/**
 The two persistent caches and the outside world as objects. Every SQL statement,
 remote call and local file system call takes the next answer of the world.
 */
module Caches {
  import opened Wrappers
  import opened DirEntries
  import opened Metadata
  import opened Content
  import opened Handlers
  import opened Solo
  import Structure
  import Paths
  import Text

  /** The answers taken so far, the remote paths asked for, and the statistics. */
  class World {
    const answers: nat -> Answer
    var taken: seq<Answer>
    var asked: seq<string>
    var acct: Acct

    constructor (answers: nat -> Answer)
      ensures this.answers == answers && taken == [] && asked == [] && acct == ZERO
    {
      this.answers, taken, asked, acct := answers, [], [], ZERO;
    }

    method Take() returns (a: Answer)
      modifies this`taken
      ensures a == answers(|old(taken)|) && taken == old(taken) + [a]
    {
      a := answers(|taken|);
      taken := taken + [a];
    }

    /** A call on the remote tree that names a path. */
    method Ask(path: string) returns (a: Answer)
      modifies this
      ensures taken == old(taken) + [a] && asked == old(asked) + [path]
      ensures acct == old(acct).(remote := old(acct).remote + 1)
    {
      a := Take();
      asked := asked + [path];
      acct := acct.(remote := acct.remote + 1);
    }

    /** Further calls on a remote file that is already open. */
    method AskMore(n: nat)
      modifies this`acct
      ensures acct == old(acct).(remote := old(acct).remote + n)
    {
      acct := acct.(remote := acct.remote + n);
    }

    method AccountCacheHit()
      modifies this`acct
      ensures acct == old(acct).(hit := old(acct).hit + 1)
    {
      acct := acct.(hit := acct.hit + 1);
    }

    method AccountCacheMiss()
      modifies this`acct
      ensures acct == old(acct).(miss := old(acct).miss + 1)
    {
      acct := acct.(miss := acct.miss + 1);
    }

    method AccountDirect()
      modifies this`acct
      ensures acct == old(acct).(direct := old(acct).direct + 1)
    {
      acct := acct.(direct := acct.direct + 1);
    }
  }

  datatype PutResult = PutOk | PutFailed | PutPanic

  class MetadataCache {
    const world: World
    var rows: Table

    ghost predicate Valid()
      reads this
    {
      UniquePaths(rows)
    }

    constructor (world: World)
      ensures Valid() && this.world == world && rows == map[]
    {
      this.world, rows := world, map[];
    }

    /** SELECT ROWID FROM paths WHERE path = ? */
    method RowId(path: string) returns (id: Option<nat>)
      requires Valid()
      ensures id == if HasPath(rows, path) then Some(IdOf(rows, path)) else None
    {
      if HasPath(rows, path) {
        var i :| i in rows && rows[i].path == path;
        id := Some(i);
      } else {
        id := None;
      }
    }

    /** None is a failed query. */
    method GetFullEntry(path: string) returns (r: Option<FullEntry>, ghost a: Answer)
      requires Valid()
      modifies world`taken
      ensures world.taken == old(world.taken) + [a]
      ensures r == if a.fault then None else Some(SelectFull(rows, path))
    {
      var answer := world.Take();
      a := answer;
      if answer.fault {
        return None, a;
      }
      var id := RowId(path);
      if id == None {
        return Some(NoRow), a;
      }
      var row := rows[id.value];
      var result := CachedRow(id.value, row.typeName, None, None, None, None);
      if row.mode.Some? || row.size.Some? || row.mtime.Some? {
        if !(row.mode.Some? && row.size.Some? && row.mtime.Some?) {
          return Some(Fatal), a;
        }
        result := result.(info := Some(FileInfo(row.mode.value, row.size.value, row.mtime.value)));
      }
      if row.dirEntries.Some? {
        var entries := new DirEntryMap();
        var parsed := entries.ParseDirEntries(row.dirEntries.value);
        match parsed
        case Parsed(_) => result := result.(entries := Some(entries.entries));
        case Malformed => return Some(Corrupt), a;
        case IndexPanic => return Some(Fatal), a;
      }
      result := result.(hash := row.contentHash, target := row.target);
      return Some(Found(result)), a;
    }

    /** An error is reported like a listing that does not parse; a NULL column fills in nothing. */
    method GetDirEntries(inode: nat) returns (r: ParseResult, ghost a: Answer)
      modifies world`taken
      ensures world.taken == old(world.taken) + [a]
      ensures r == if a.fault || inode !in rows then Malformed
                   else if rows[inode].dirEntries == None then Parsed(map[])
                   else Parse(rows[inode].dirEntries.value, map[])
    {
      var answer := world.Take();
      a := answer;
      if answer.fault || inode !in rows {
        return Malformed, a;
      }
      var entries := new DirEntryMap();
      if rows[inode].dirEntries == None {
        return Parsed(entries.entries), a;
      }
      r := entries.ParseDirEntries(rows[inode].dirEntries.value);
    }

    method PutNew(path: string, typeName: TypeName) returns (ok: bool, ghost a: Answer)
      requires Valid()
      modifies this`rows, world`taken
      ensures Valid() && world.taken == old(world.taken) + [a]
      ensures ok == (!a.fault && CanInsert(old(rows), path, a.rowId))
      ensures rows == if ok then InsertRow(old(rows), path, typeName, a.rowId) else old(rows)
    {
      var answer := world.Take();
      a := answer;
      ok := !answer.fault && CanInsert(rows, path, answer.rowId);
      if ok {
        rows := InsertRow(rows, path, typeName, answer.rowId);
      }
    }

    /**
     The type is updated if the path is known; otherwise a row is inserted, which takes
     a second statement and a second answer.
     */
    method PutNewOrUpdate(path: string, typeName: TypeName) returns (r: PutResult, ghost a: Answer, ghost b: Answer)
      requires Valid()
      modifies this`rows, world`taken
      ensures Valid() && r != PutPanic
      ensures if a.fault then world.taken == old(world.taken) + [a] && r == PutFailed && rows == old(rows)
              else if HasPath(old(rows), path) then
                world.taken == old(world.taken) + [a] && r == PutOk && rows == UpdateType(old(rows), path, typeName)
              else
                world.taken == old(world.taken) + [a] + [b] && UpdateType(old(rows), path, typeName) == old(rows) &&
                (r == PutOk <==> !b.fault && CanInsert(old(rows), path, b.rowId)) &&
                rows == if r == PutOk then InsertRow(old(rows), path, typeName, b.rowId) else old(rows)
    {
      var answer := world.Take();
      a, b := answer, answer;
      if answer.fault {
        return PutFailed, a, b;
      }
      RowsAffected(rows, path);
      var count := |Matching(rows, path)|;
      ghost var before := rows;
      rows := UpdateType(rows, path, typeName);
      if count == 0 {
        assert rows == before;
        var ok;
        ok, b := PutNew(path, typeName);
        return if ok then PutOk else PutFailed, a, b;
      } else if count == 1 {
        return PutOk, a, b;
      } else {
        return PutPanic, a, b;
      }
    }

    method PutFileInfo(inode: nat, info: FileInfo) returns (ok: bool, ghost a: Answer)
      requires Valid()
      modifies this`rows, world`taken
      ensures Valid() && world.taken == old(world.taken) + [a] && ok == !a.fault
      ensures rows == if ok then UpdateInfo(old(rows), inode, info) else old(rows)
    {
      var answer := world.Take();
      ok, a := !answer.fault, answer;
      if ok {
        rows := UpdateInfo(rows, inode, info);
      }
    }

    method PutContentHash(inode: nat, stored: string) returns (ok: bool, ghost a: Answer)
      requires Valid()
      modifies this`rows, world`taken
      ensures Valid() && world.taken == old(world.taken) + [a] && ok == !a.fault
      ensures rows == if ok then UpdateHash(old(rows), inode, stored) else old(rows)
    {
      var answer := world.Take();
      ok, a := !answer.fault, answer;
      if ok {
        rows := UpdateHash(rows, inode, stored);
      }
    }

    method PutSymlinkTarget(inode: nat, stored: string) returns (ok: bool, ghost a: Answer)
      requires Valid()
      modifies this`rows, world`taken
      ensures Valid() && world.taken == old(world.taken) + [a] && ok == !a.fault
      ensures rows == if ok then UpdateTarget(old(rows), inode, stored) else old(rows)
    {
      var answer := world.Take();
      ok, a := !answer.fault, answer;
      if ok {
        rows := UpdateTarget(rows, inode, stored);
      }
    }

    /**
     The statements for one entry: find its row, or insert it. On success the handler
     goes on with the next entry.
     */
    method PutOneEntry(ghost cfg: Config, ghost l: Local, ghost from: nat, ghost h: Local, ghost asked: seq<string>,
                       entry: Listed, path: string, ghost todo: seq<Listed>, ghost done: seq<Entry>)
      returns (rowId: Option<nat>, ghost h': Local)
      requires Valid() && Tracks(cfg, l, world.taken, from, h, asked) && h.table == rows && h.node.path == path
      requires h.pc == Listing(SelectEntry(todo, done)) && todo != [] && todo[0] == entry
      modifies this`rows, world`taken
      ensures Valid() && old(world.taken) <= world.taken && Tracks(cfg, l, world.taken, from, h', asked)
      ensures h' == if rowId.Some?
                    then NextEntry(h.(table := rows), todo[1..], done + [Entry(entry.name, rowId.value, SqlTypeName(entry.modeType))])
                    else h.(table := rows, pc := Done(Error))
    {
      var entryPath := Paths.Join(path, entry.name);
      ghost var taken := world.taken;
      var a := world.Take();
      TracksQuietly(cfg, l, taken, from, h, asked, a);
      h' := Step(cfg, h, a);
      if a.fault {
        return None, h';
      }
      var found := RowId(entryPath);
      if found.Some? {
        return found, h';
      }
      taken := world.taken;
      var b := world.Take();
      TracksQuietly(cfg, l, taken, from, h', asked, b);
      h' := Step(cfg, h', b);
      if b.fault || !CanInsert(rows, entryPath, b.rowId) {
        return None, h';
      }
      rows := InsertRow(rows, entryPath, SqlTypeName(entry.modeType), b.rowId);
      return Some(b.rowId), h';
    }

    /**
     Gives every entry a row, writes the listing text, and stores it. The ghost h is
     the handler that does this, from the first entry to the point where the stored
     listing is read back, or to the error.
     */
    method PutDirEntries(ghost cfg: Config, ghost l: Local, ghost from: nat, ghost h: Local, ghost asked: seq<string>,
                         inode: nat, path: string, entries: seq<Listed>)
      returns (ok: bool, ghost h': Local)
      requires Valid() && Tracks(cfg, l, world.taken, from, h, asked)
      requires h.table == rows && h.node.inode == inode && h.node.path == path && h == NextEntry(h, entries, [])
      modifies this`rows, world`taken
      ensures Valid() && old(world.taken) <= world.taken && Tracks(cfg, l, world.taken, from, h', asked)
      ensures h' == h.(table := rows, pc := if ok then Listing(SelectEntries) else Done(Error))
    {
      var formatted: seq<string> := [];
      ghost var done: seq<Entry> := [];
      h' := h;
      var i := 0;
      assert entries[0..] == entries;
      while i < |entries|
        invariant 0 <= i <= |entries| && Valid() && old(world.taken) <= world.taken
        invariant formatted == FormatEach(done)
        invariant h' == NextEntry(h.(table := rows), entries[i..], done)
        invariant Tracks(cfg, l, world.taken, from, h', asked)
      {
        var entry := entries[i];
        assert entries[i..][0] == entry && entries[i..][1..] == entries[i + 1..];
        var rowId;
        rowId, h' := PutOneEntry(cfg, l, from, h', asked, entry, path, entries[i..], done);
        if rowId == None {
          return false, h';
        }
        var text := entry.name + [FIELD_SEPARATOR] + Text.Digits(rowId.value) + [FIELD_SEPARATOR] +
                    TypeText(SqlTypeName(entry.modeType));
        FormatMore(done, Entry(entry.name, rowId.value, SqlTypeName(entry.modeType)));
        formatted := formatted + [text];
        done := done + [Entry(entry.name, rowId.value, SqlTypeName(entry.modeType))];
        i := i + 1;
      }
      ghost var here, taken := h', world.taken;
      var a := world.Take();
      TracksQuietly(cfg, l, taken, from, here, asked, a);
      h' := Step(cfg, here, a);
      ok := !a.fault;
      if ok {
        rows := UpdateEntries(rows, inode, Text.Join(formatted, ENTRY_SEPARATOR));
      }
    }
  }

  lemma FormatMore(es: seq<Entry>, e: Entry)
    ensures FormatEach(es + [e]) == FormatEach(es) + [FormatOne(e)]
  {
  }

  /** The object of the key is there: as it was before the put, or else with the given bytes. */
  predicate Stored(cfg: Config, before: Store, after: Store, key: string, data: Bytes)
    requires IsKey(key)
  {
    var path := PathForKey(cfg.cacheRoot, key);
    path in after.files && after.files[path] == if path in before.files then before.files[path] else data
  }

  /** A temporary file makes no difference to what is stored for a key. */
  lemma StoredBefore(cfg: Config, before: Store, temp: string, after: Store, key: string, data: Bytes)
    requires cfg.cacheRoot != "" && TopLevel(cfg.cacheRoot, temp) && IsKey(key)
    requires Stored(cfg, before.CreateTemp(temp), after, key, data)
    ensures Stored(cfg, before, after, key, data)
  {
    ObjectsApart(cfg.cacheRoot, key, temp);
  }

  /** A put that succeeded leads to the bytes it was given, unless the object that was there collides with them. */
  lemma PutThenGet(cfg: Config, before: Store, after: Store, data: Bytes)
    requires Stored(cfg, before, after, KeyFor(cfg, data), data) && Structure.StoreOK(cfg, before)
    ensures var got := after.files[PathForKey(cfg.cacheRoot, KeyFor(cfg, data))];
            KeyFor(cfg, got) == KeyFor(cfg, data) &&
            (got == data <==> (HasObject(cfg.cacheRoot, before, KeyFor(cfg, data)) ==>
                                 before.files[PathForKey(cfg.cacheRoot, KeyFor(cfg, data))] == data))
  {
    var key := KeyFor(cfg, data);
    assert HasObject(cfg.cacheRoot, before, key) ==> KeyFor(cfg, before.files[PathForKey(cfg.cacheRoot, key)]) == key;
  }

  class ContentCache {
    const world: World
    const cfg: Config
    var store: Store

    constructor (world: World, cfg: Config)
      ensures this.world == world && this.cfg == cfg && store == Store(map[], {}, {})
    {
      this.world, this.cfg, store := world, cfg, Store(map[], {}, {});
    }

    /** None is a failed Lstat. */
    method HasKey(key: string) returns (found: Option<bool>, ghost a: Answer)
      requires |key| >= 2
      modifies world`taken
      ensures world.taken == old(world.taken) + [a]
      ensures found == if a.fault then None else Some(PathForKey(cfg.cacheRoot, key) in store.files)
    {
      var path := PathForKey(cfg.cacheRoot, key);
      var answer := world.Take();
      return if answer.fault then None else Some(path in store.files), answer;
    }

    /** The deferred removal of the temporary file. */
    method Cleanup(ghost l: Local, ghost from: nat, ghost h: Local, ghost asked: seq<string>,
                   temp: string, ghost put: Option<string>)
      returns (ghost h': Local)
      requires Tracks(cfg, l, world.taken, from, h, asked) && h.store == store && h.pc == Opening(RemoveTemp(temp, put))
      modifies this`store, world`taken
      ensures old(world.taken) <= world.taken && Tracks(cfg, l, world.taken, from, h', asked)
      ensures h' == (if put.Some? then Goto(h, Opening(PutHash(put.value))) else Handlers.PutFailed(h)).(store := store)
      ensures store == old(store) || store == old(store).Remove(temp)
    {
      ghost var taken := world.taken;
      var a := world.Take();
      TracksQuietly(cfg, l, taken, from, h, asked, a);
      h' := Step(cfg, h, a);
      if !a.fault {
        store := store.Remove(temp);
      }
    }

    /** Moves the finished temporary file to its object path unless the object is already there. */
    method Publish(ghost l: Local, ghost from: nat, ghost h: Local, ghost asked: seq<string>, temp: string, key: string)
      returns (ok: bool, ghost h': Local)
      requires Tracks(cfg, l, world.taken, from, h, asked) && h.store == store
      requires IsKey(key) && temp in store.files && h.pc == Opening(CheckKey(temp, key))
      modifies this`store, world`taken
      ensures old(world.taken) <= world.taken && Tracks(cfg, l, world.taken, from, h', asked)
      ensures h' == Goto(h.(store := store), Opening(RemoveTemp(temp, if ok then Some(key) else None)))
      ensures var path := PathForKey(cfg.cacheRoot, key);
              store.files == old(store.files) ||
              (path !in old(store.files) && store.files == old(store).Rename(temp, path).files)
      ensures ok ==> Stored(cfg, old(store), store, key, old(store).files[temp])
    {
      ghost var taken, here := world.taken, h;
      var found;
      ghost var a;
      found, a := HasKey(key);
      TracksQuietly(cfg, l, taken, from, here, asked, a);
      here := Step(cfg, here, a);
      if found == None {
        return false, here;
      }
      if found.value {
        return true, here;
      }
      ok, h' := MoveIn(l, from, here, asked, temp, key);
    }

    /** Makes the bucket and renames the temporary file. */
    method MoveIn(ghost l: Local, ghost from: nat, ghost h: Local, ghost asked: seq<string>, temp: string, key: string)
      returns (ok: bool, ghost h': Local)
      requires Tracks(cfg, l, world.taken, from, h, asked) && h.store == store
      requires IsKey(key) && temp in store.files && h.pc == Opening(MakeBucket(temp, key))
      modifies this`store, world`taken
      ensures old(world.taken) <= world.taken && Tracks(cfg, l, world.taken, from, h', asked)
      ensures h' == Goto(h.(store := store), Opening(RemoveTemp(temp, if ok then Some(key) else None)))
      ensures store.files == if ok then old(store).Rename(temp, PathForKey(cfg.cacheRoot, key)).files else old(store.files)
    {
      ghost var taken := world.taken;
      var a := world.Take();
      TracksQuietly(cfg, l, taken, from, h, asked, a);
      h' := Step(cfg, h, a);
      if a.fault {
        return false, h';
      }
      store := store.Mkdir(BucketPath(cfg.cacheRoot, key));
      taken := world.taken;
      var b := world.Take();
      TracksQuietly(cfg, l, taken, from, h', asked, b);
      h' := Step(cfg, h', b);
      if b.fault {
        return false, h';
      }
      store := store.Rename(temp, PathForKey(cfg.cacheRoot, key));
      ok := true;
    }

    /**
     Fetches the remote file into the store. The handler h goes from opening the remote
     file to storing the key, or to what follows a failure. Files that were in the
     cache directory before are untouched, and after a success the object of the key is there.
     */
    method PutContents(ghost l: Local, ghost from: nat, ghost h: Local, ghost asked: seq<string>, path: string)
      returns (key: Option<string>, ghost h': Local, ghost data: Bytes)
      requires Tracks(cfg, l, world.taken, from, h, asked) && h.store == store && h.pc == Opening(OpenRemote)
      requires path == h.node.below && world.acct == CountRemote(h).acct.(remote := h.acct.remote)
      modifies this`store, world
      ensures old(world.taken) <= world.taken && Tracks(cfg, l, world.taken, from, h', asked + [path])
      ensures world.asked == old(world.asked) + [path]
      ensures h' == Local(h.node, if key.Some? then Opening(PutHash(key.value)) else Handlers.PutFailed(h).pc, h.table, store, world.acct)
      ensures forall f :: f in old(store.files) ==> f in store.files && store.files[f] == old(store.files)[f]
      ensures key.Some? ==>
                |world.taken| > |old(world.taken)| + 2 && data == Delivered(world.taken[|old(world.taken)| + 2].turns) &&
                key.value == KeyFor(cfg, data) && (cfg.cacheRoot != "" ==> Stored(cfg, old(store), store, key.value, data))
    {
      ghost var here;
      var ok;
      ok, here := OpenRemoteFile(l, from, h, asked, path);
      if !ok {
        return None, here, [];
      }
      key, h', data := PutOpened(l, from, here, asked + [path]);
    }

    /** Opens the remote file. */
    method OpenRemoteFile(ghost l: Local, ghost from: nat, ghost h: Local, ghost asked: seq<string>, path: string)
      returns (ok: bool, ghost h': Local)
      requires Tracks(cfg, l, world.taken, from, h, asked) && h.store == store && h.pc == Opening(OpenRemote)
      requires path == h.node.below && world.acct == CountRemote(h).acct.(remote := h.acct.remote)
      modifies world
      ensures |world.taken| == |old(world.taken)| + 1 && old(world.taken) <= world.taken
      ensures Tracks(cfg, l, world.taken, from, h', asked + [path]) && world.asked == old(world.asked) + [path]
      ensures h' == h.(acct := world.acct, pc := if ok then Opening(CreateTemp) else Handlers.PutFailed(h).pc)
    {
      ghost var taken := world.taken;
      var a := world.Ask(path);
      TracksMore(cfg, l, taken, from, h, asked, a);
      h' := Step(cfg, h, a);
      ok := a.openOk;
    }

    /** The part of PutContents that follows once the remote file is open. */
    method PutOpened(ghost l: Local, ghost from: nat, ghost h: Local, ghost asked: seq<string>)
      returns (key: Option<string>, ghost h': Local, ghost data: Bytes)
      requires Tracks(cfg, l, world.taken, from, h, asked) && h.store == store && h.acct == world.acct
      requires h.pc == Opening(CreateTemp)
      modifies this`store, world`taken, world`acct
      ensures old(world.taken) <= world.taken && Tracks(cfg, l, world.taken, from, h', asked)
      ensures h' == Local(h.node, if key.Some? then Opening(PutHash(key.value)) else Handlers.PutFailed(h).pc, h.table, store, world.acct)
      ensures forall f :: f in old(store.files) ==> f in store.files && store.files[f] == old(store.files)[f]
      ensures key.Some? ==>
                |world.taken| > |old(world.taken)| + 1 && data == Delivered(world.taken[|old(world.taken)| + 1].turns) &&
                key.value == KeyFor(cfg, data) && (cfg.cacheRoot != "" ==> Stored(cfg, old(store), store, key.value, data))
    {
      data := [];
      var temp;
      ghost var here;
      temp, here := TempFile(l, from, h, asked);
      if temp == None {
        return None, here, data;
      }
      key, h', data := FetchAndPublish(l, from, here, asked, temp.value);
      if key.Some? && cfg.cacheRoot != "" {
        StoredBefore(cfg, old(store), temp.value, store, key.value, data);
      }
    }

    /** A new temporary file directly in the cache directory. */
    method TempFile(ghost l: Local, ghost from: nat, ghost h: Local, ghost asked: seq<string>)
      returns (temp: Option<string>, ghost h': Local)
      requires Tracks(cfg, l, world.taken, from, h, asked) && h.store == store && h.pc == Opening(CreateTemp)
      modifies this`store, world`taken
      ensures |world.taken| == |old(world.taken)| + 1 && old(world.taken) <= world.taken
      ensures Tracks(cfg, l, world.taken, from, h', asked)
      ensures temp == None ==> store == old(store) && h' == Handlers.PutFailed(h)
      ensures temp.Some? ==>
                store == old(store).CreateTemp(temp.value) && temp.value !in old(store.files) &&
                h' == h.(store := store, pc := Opening(Fetch(temp.value))) &&
                (cfg.cacheRoot != "" ==> TopLevel(cfg.cacheRoot, temp.value))
    {
      ghost var taken := world.taken;
      var a := world.Take();
      TracksQuietly(cfg, l, taken, from, h, asked, a);
      h' := Step(cfg, h, a);
      var path := TempPath(cfg.cacheRoot, a.suffix);
      if a.fault || '/' in a.suffix || path in store.files || path in store.used {
        return None, h';
      }
      if cfg.cacheRoot != "" {
        TempTopLevel(cfg.cacheRoot, a.suffix);
      }
      store := store.CreateTemp(path);
      temp := Some(path);
    }

    /** Copies the remote file into the temporary file and its digest. */
    method FetchFile(ghost l: Local, ghost from: nat, ghost h: Local, ghost asked: seq<string>, temp: string)
      returns (ok: bool, digested: Bytes, ghost h': Local)
      requires Tracks(cfg, l, world.taken, from, h, asked) && h.store == store && h.acct == world.acct
      requires h.pc == Opening(Fetch(temp))
      modifies this`store, world`taken, world`acct
      ensures |world.taken| == |old(world.taken)| + 1 && old(world.taken) <= world.taken
      ensures Tracks(cfg, l, world.taken, from, h', asked)
      ensures temp in store.files && store == old(store).Write(temp, store.files[temp])
      ensures h' == Local(h.node, Opening(if ok then CheckKey(temp, KeyFor(cfg, digested)) else RemoveTemp(temp, None)),
                          h.table, store, world.acct)
      ensures ok ==> digested == store.files[temp] == Delivered(world.taken[|old(world.taken)|].turns)
    {
      ghost var taken := world.taken;
      var a := world.Take();
      TracksQuietly(cfg, l, taken, from, h, asked, a);
      h' := Step(cfg, h, a);
      var file := new Sink();
      var digest := new Sink();
      var _, err := Copy2(file, digest, a.turns);
      CopyIsTee(a.turns, [], [], 0);
      world.AskMore(|a.turns|);
      store := store.Write(temp, file.data);
      ok, digested := err == None, digest.data;
    }

    method FetchAndPublish(ghost l: Local, ghost from: nat, ghost h: Local, ghost asked: seq<string>, temp: string)
      returns (key: Option<string>, ghost h': Local, ghost data: Bytes)
      requires Tracks(cfg, l, world.taken, from, h, asked) && h.store == store && h.acct == world.acct
      requires h.pc == Opening(Fetch(temp)) && temp in store.files
      requires cfg.cacheRoot != "" ==> TopLevel(cfg.cacheRoot, temp)
      modifies this`store, world`taken, world`acct
      ensures old(world.taken) <= world.taken && Tracks(cfg, l, world.taken, from, h', asked)
      ensures h' == Local(h.node, if key.Some? then Opening(PutHash(key.value)) else Handlers.PutFailed(h).pc, h.table, store, world.acct)
      ensures forall f :: f in old(store.files) && f != temp ==> f in store.files && store.files[f] == old(store.files)[f]
      ensures key.Some? ==>
                |world.taken| > |old(world.taken)| && data == Delivered(world.taken[|old(world.taken)|].turns) &&
                key.value == KeyFor(cfg, data) && (cfg.cacheRoot != "" ==> Stored(cfg, old(store), store, key.value, data))
    {
      ghost var here;
      var ok, digested;
      ok, digested, here := FetchFile(l, from, h, asked, temp);
      data := digested;
      key := None;
      if ok {
        var k := KeyFor(cfg, digested);
        var placed;
        placed, here := Publish(l, from, here, asked, temp, k);
        key := if placed then Some(k) else None;
        if cfg.cacheRoot != "" {
          ObjectsApart(cfg.cacheRoot, k, temp);
        }
      }
      h' := Cleanup(l, from, here, asked, temp, key);
    }
  }
}
