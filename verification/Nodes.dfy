/**
 The file system nodes as objects: directories, files and symbolic links with
 their lazily filled fields, and the operations the kernel calls on them. Each
 operation is proved to do what its machine in Handlers does when it runs on its
 own, so that everything proved about the machines holds of the operations.
 */
module Nodes {
  import opened Wrappers
  import opened DirEntries
  import opened Metadata
  import opened Content
  import opened Handlers
  import opened Solo
  import opened Caches
  import opened Meaning
  import Runs
  import Paths

  class Globals {
    const cfg: Config
    const world: World
    const metadata: MetadataCache
    const content: ContentCache

    ghost predicate Valid()
      reads metadata
    {
      metadata.world == world && content.world == world && content.cfg == cfg && metadata.Valid()
    }

    constructor (cfg: Config, answers: nat -> Answer)
      ensures Valid() && this.cfg == cfg && fresh(world) && fresh(metadata) && fresh(content)
    {
      this.cfg := cfg;
      var w := new World(answers);
      world := w;
      metadata := new MetadataCache(w);
      content := new ContentCache(w, cfg);
    }
  }

  /**
   The call, with the answers taken since, ends in l' having asked for these paths, as its
   machine does; it means what its outcome says, and has asked for its own path only.
   */
  ghost predicate Performs(cfg: Config, c: Call, taken: seq<Answer>, taken': seq<Answer>,
                           asked: seq<string>, asked': seq<string>, l': Local)
  {
    l'.pc.Done? && taken <= taken' && asked <= asked' &&
    Tracks(cfg, Start(cfg, c), taken', |taken|, l', asked'[|asked|..]) &&
    Means(cfg, c, taken'[|taken|..], l') && AsksRight(c, asked'[|asked|..], l')
  }

  lemma PerformsNow(cfg: Config, c: Call, taken: seq<Answer>, taken': seq<Answer>,
                    asked: seq<string>, more: seq<string>, l': Local)
    requires l'.pc.Done? && taken <= taken' && Tracks(cfg, Start(cfg, c), taken', |taken|, l', more)
    ensures Performs(cfg, c, taken, taken', asked, asked + more, l')
  {
    assert (asked + more)[|asked|..] == more;
    CallMeans(cfg, c, taken'[|taken|..]);
    CallAsks(cfg, c, taken'[|taken|..]);
  }

  /** A node object of any kind. */
  datatype AnyNode = NoNode | ADir(dir: Dir) | AFile(file: File) | ALink(link: Symlink)

  ghost predicate IsView(n: AnyNode, node: Node)
    reads if n.ADir? then {n.dir} else {}, if n.AFile? then {n.file} else {}, if n.ALink? then {n.link} else {}
  {
    match n
    case NoNode => false
    case ADir(dir) => dir.View() == node
    case AFile(file) => file.View() == node
    case ALink(link) => link.View() == node
  }

  method NewNodeForEntry(globals: Globals, parentPath: string, parentBelowPath: string, row: CachedRow, name: string)
    returns (reply: Reply, node: AnyNode)
    ensures reply == NodeFor(globals.cfg, parentPath, parentBelowPath, row, name)
    ensures reply.NodeReply? ==> IsView(node, reply.node)
  {
    var path := Paths.Join(parentPath, name);
    var belowPath := Paths.Join(parentBelowPath, name);
    var direct := globals.cfg.direct(path);
    match row.typeName
    case Directory =>
      var dir := new Dir(globals, path, belowPath, row.inode, direct, row.info, row.entries);
      return NodeReply(Node(path, belowPath, row.inode, direct, Directory, row.info, row.entries, None, None, map[])), ADir(dir);
    case File =>
      var file := new File(globals, path, belowPath, row.inode, direct, row.info, row.hash);
      return NodeReply(Node(path, belowPath, row.inode, direct, DirEntries.File, row.info, None, row.hash, None, map[])), AFile(file);
    case NoEntry =>
      return NoEnt, NoNode;
    case Symlink =>
      var link := new Symlink(globals, path, belowPath, row.inode, direct, row.info, row.target);
      return NodeReply(Node(path, belowPath, row.inode, direct, DirEntries.Symlink, row.info, None, None, row.target, map[])), ALink(link);
  }

  /** Attr of all three kinds of nodes; the node's fileInfo goes in and comes out. */
  method CommonAttr(globals: Globals, ghost node: Node, inode: nat, direct: bool, belowPath: string,
                    fileInfo: Option<FileInfo>)
    returns (reply: Reply, fileInfo': Option<FileInfo>)
    requires globals.Valid()
    requires node.inode == inode && node.direct == direct && node.below == belowPath && node.info == fileInfo
    modifies globals.world, globals.metadata`rows
    ensures globals.Valid()
    ensures Performs(globals.cfg,
                     Call(Op.Attr, node, old(globals.metadata.rows), globals.content.store, old(globals.world.acct)),
                     old(globals.world.taken), globals.world.taken, old(globals.world.asked), globals.world.asked,
                     Local(node.(info := fileInfo'), Done(reply), globals.metadata.rows, globals.content.store, globals.world.acct))
  {
    var world := globals.world;
    ghost var cfg, taken, asked := globals.cfg, world.taken, world.asked;
    ghost var call := Call(Op.Attr, node, globals.metadata.rows, globals.content.store, world.acct);
    ghost var start := Start(cfg, call);
    fileInfo' := fileInfo;
    TracksStart(cfg, start, taken);
    if !direct && fileInfo.Some? {
      world.AccountCacheHit();
      reply := AttrReply(inode, fileInfo.value);
      PerformsNow(cfg, call, taken, taken, asked, [],
                  Local(node.(info := fileInfo'), Done(reply), globals.metadata.rows, globals.content.store, world.acct));
      assert asked + [] == asked;
        return;
    }
    if direct {
      world.AccountDirect();
    } else {
      world.AccountCacheMiss();
    }
    var a := world.Ask(belowPath);
    TracksMore(cfg, start, taken, |taken|, start, [], a);
    ghost var h := Step(cfg, start, a);
    assert [] + AskedBy(start) == [belowPath];
    match a.stat {
      case StatOk(rawFileInfo) =>
        ghost var taken1 := world.taken;
        var ok;
        ghost var b;
        ok, b := globals.metadata.PutFileInfo(inode, rawFileInfo);
        TracksQuietly(cfg, start, taken1, |taken|, h, [belowPath], b);
        h := Step(cfg, h, b);
        if ok {
          fileInfo' := Some(rawFileInfo);
          reply := AttrReply(inode, rawFileInfo);
        } else {
          reply := Error;
        }
      case _ =>
        reply := if direct && fileInfo.Some? then AttrReply(inode, fileInfo.value) else Error;
    }
    PerformsNow(cfg, call, taken, world.taken, asked, [belowPath],
                Local(node.(info := fileInfo'), Done(reply), globals.metadata.rows, globals.content.store, world.acct));
  }

  /** Stores the type of an entry: one statement, or two when the path is new. */
  method StoreType(globals: Globals, path: string, typeName: TypeName, ghost name: string,
                   ghost start: Local, ghost from: nat, ghost h: Local, ghost paths: seq<string>)
    returns (put: PutResult, ghost h': Local)
    requires globals.Valid() && Tracks(globals.cfg, start, globals.world.taken, from, h, paths)
    requires h.pc == Looking(Update(name, typeName)) && h.table == globals.metadata.rows
    requires path == Paths.Join(h.node.path, name)
    modifies globals.world`taken, globals.metadata`rows
    ensures globals.Valid() && old(globals.world.taken) <= globals.world.taken && put != PutPanic
    ensures Tracks(globals.cfg, start, globals.world.taken, from, h', paths)
    ensures h' == h.(table := globals.metadata.rows,
                     pc := if put != PutOk then Done(Error)
                           else if typeName == NoEntry then Done(NoEnt) else Looking(Reload(name)))
  {
    ghost var cfg, taken := globals.cfg, globals.world.taken;
    ghost var a, b;
    RowsAffected(globals.metadata.rows, path);
    put, a, b := globals.metadata.PutNewOrUpdate(path, typeName);
    TracksQuietly(cfg, start, taken, from, h, paths, a);
    h' := Step(cfg, h, a);
    if h'.pc == Looking(Insert(name, typeName)) {
      TracksQuietly(cfg, start, taken + [a], from, h', paths, b);
      h' := Step(cfg, h', b);
    }
  }

  /** The reply slice: one item per valid entry, in the order in which the map hands them out. */
  method ListEntries(m: EntryMap) returns (dirents: seq<Dirent>)
    ensures (set d | d in dirents) == Dirents(m)
    ensures forall i, j :: 0 <= i < j < |dirents| ==> dirents[i].name != dirents[j].name
  {
    dirents := [];
    var rest := m.Keys;
    while rest != {}
      invariant rest <= m.Keys
      invariant (set d | d in dirents) == set n | n in m && n !in rest && m[n].valid :: Dirent(m[n].inode, n, m[n].modeType)
      invariant forall d :: d in dirents ==> d.name !in rest
      invariant forall i, j :: 0 <= i < j < |dirents| ==> dirents[i].name != dirents[j].name
      decreases |rest|
    {
      var basename :| basename in rest;
      ghost var before := dirents;
      rest := rest - {basename};
      if m[basename].valid {
        var de := Dirent(m[basename].inode, basename, m[basename].modeType);
        dirents := dirents + [de];
        assert (set d | d in dirents) == (set d | d in before) + {de};
      }
    }
  }

  class Dir {
    const globals: Globals
    const path: string
    const belowPath: string
    const inode: nat
    const direct: bool
    var fileInfo: Option<FileInfo>
    var dirEntries: Option<EntryMap>
    var rows: map<string, CachedRow>

    ghost function View(): Node
      reads this
    {
      Node(path, belowPath, inode, direct, Directory, fileInfo, dirEntries, None, None, rows)
    }

    constructor (globals: Globals, path: string, belowPath: string, inode: nat, direct: bool,
                 fileInfo: Option<FileInfo>, dirEntries: Option<EntryMap>)
      ensures this.globals == globals
      ensures View() == Node(path, belowPath, inode, direct, Directory, fileInfo, dirEntries, None, None, map[])
    {
      this.globals, this.path, this.belowPath, this.inode, this.direct := globals, path, belowPath, inode, direct;
      this.fileInfo, this.dirEntries, rows := fileInfo, dirEntries, map[];
    }

    method Attr() returns (reply: Reply)
      requires globals.Valid()
      modifies this`fileInfo, globals.world, globals.metadata`rows
      ensures globals.Valid()
      ensures Performs(globals.cfg,
                       Call(Op.Attr, old(View()), old(globals.metadata.rows), globals.content.store, old(globals.world.acct)),
                       old(globals.world.taken), globals.world.taken, old(globals.world.asked), globals.world.asked,
                       Local(View(), Done(reply), globals.metadata.rows, globals.content.store, globals.world.acct))
    {
      reply, fileInfo := CommonAttr(globals, View(), inode, direct, belowPath, fileInfo);
    }

    /** Searches for an entry; a node that is found comes back as a new object. */
    method Lookup(name: string) returns (reply: Reply, node: AnyNode)
      requires globals.Valid()
      modifies this`rows, globals.world, globals.metadata`rows
      ensures globals.Valid()
      ensures Performs(globals.cfg,
                       Call(Op.Lookup(name), old(View()), old(globals.metadata.rows), globals.content.store, old(globals.world.acct)),
                       old(globals.world.taken), globals.world.taken, old(globals.world.asked), globals.world.asked,
                       Local(View(), Done(reply), globals.metadata.rows, globals.content.store, globals.world.acct))
      ensures reply.NodeReply? ==> IsView(node, reply.node)
    {
      var world, metadata := globals.world, globals.metadata;
      ghost var cfg, taken, asked := globals.cfg, world.taken, world.asked;
      ghost var call := Call(Op.Lookup(name), View(), metadata.rows, globals.content.store, world.acct);
      ghost var start := Start(cfg, call);
      node := NoNode;
      TracksStart(cfg, start, taken);
      if !direct && name in rows {
        reply, node := NewNodeForEntry(globals, path, belowPath, rows[name], name);
        PerformsNow(cfg, call, taken, taken, asked, [], start);
        assert asked + [] == asked;
        return;
      }
      ghost var paths;
      reply, node, paths := LookupRow(name, start, |taken|);
      PerformsNow(cfg, call, taken, world.taken, asked, paths,
                  Local(View(), Done(reply), metadata.rows, globals.content.store, world.acct));
    }

    /** The lookup of a name that is not remembered. */
    method LookupRow(name: string, ghost start: Local, ghost from: nat)
      returns (reply: Reply, node: AnyNode, ghost paths: seq<string>)
      requires globals.Valid() && Tracks(globals.cfg, start, globals.world.taken, from, start, [])
      requires start == Local(View(), Looking(Query(name)), globals.metadata.rows, globals.content.store, globals.world.acct)
      modifies this`rows, globals.world, globals.metadata`rows
      ensures globals.Valid() && globals.world.asked == old(globals.world.asked) + paths
      ensures old(globals.world.taken) <= globals.world.taken
      ensures Tracks(globals.cfg, start, globals.world.taken, from,
                     Local(View(), Done(reply), globals.metadata.rows, globals.content.store, globals.world.acct), paths)
      ensures reply.NodeReply? ==> IsView(node, reply.node)
    {
      var world, metadata := globals.world, globals.metadata;
      ghost var cfg, taken := globals.cfg, world.taken;
      node, paths := NoNode, [];
      var found;
      ghost var a;
      found, a := metadata.GetFullEntry(Paths.Join(path, name));
      TracksQuietly(cfg, start, taken, from, start, [], a);
      ghost var h := Step(cfg, start, a);
      if found == None || found.value.Corrupt? || found.value.Fatal? {
        reply := if found == None || found.value.Corrupt? then Error else Panic;
      } else if direct {
        paths := [Paths.Join(belowPath, name)];
        reply, node := LookupDirect(name, found.value.Found?, start, from, h);
      } else if found.value.NoRow? {
        paths := [Paths.Join(belowPath, name)];
        reply, node := LookupMiss(name, start, from, h);
      } else {
        world.AccountCacheHit();
        rows := rows[name := found.value.row];
        reply, node := NewNodeForEntry(globals, path, belowPath, found.value.row, name);
      }
    }

    /** The branch for a directory that is not cached, from the remote Lstat on. */
    method LookupDirect(name: string, cached: bool, ghost start: Local, ghost from: nat, ghost h: Local)
      returns (reply: Reply, node: AnyNode)
      requires globals.Valid() && direct
      requires Tracks(globals.cfg, start, globals.world.taken, from, h, [])
      requires h == Local(View(), Looking(AskDirect(name, cached)), globals.metadata.rows, globals.content.store, globals.world.acct)
      modifies this`rows, globals.world, globals.metadata`rows
      ensures globals.Valid() && globals.world.asked == old(globals.world.asked) + [Paths.Join(belowPath, name)]
      ensures old(globals.world.taken) <= globals.world.taken
      ensures Tracks(globals.cfg, start, globals.world.taken, from,
                     Local(View(), Done(reply), globals.metadata.rows, globals.content.store, globals.world.acct),
                     [Paths.Join(belowPath, name)])
      ensures reply.NodeReply? ==> IsView(node, reply.node)
    {
      var world, metadata := globals.world, globals.metadata;
      ghost var cfg, taken, paths := globals.cfg, world.taken, [Paths.Join(belowPath, name)];
      node := NoNode;
      world.AccountDirect();
      var a := world.Ask(Paths.Join(belowPath, name));
      TracksMore(cfg, start, taken, from, h, [], a);
      assert [] + AskedBy(h) == paths;
      ghost var here := Step(cfg, h, a);
      if a.stat.StatOk? || (a.stat.StatNoEnt? && !cached) {
        var typeName := if a.stat.StatOk? then SqlTypeName(a.stat.info.mode.modeType) else NoEntry;
        assert here.pc == Looking(Update(name, typeName));
        var put;
        put, here := StoreType(globals, Paths.Join(path, name), typeName, name, start, from, here, paths);
        if put != PutOk {
          return Error, NoNode;
        }
        if typeName == NoEntry {
          return NoEnt, NoNode;
        }
      } else if !cached {
        return Error, NoNode;
      }
      reply, node := Reread(name, start, from, here, paths);
    }

    /** Reads the row back, remembers it and makes the node. */
    method Reread(name: string, ghost start: Local, ghost from: nat, ghost h: Local, ghost paths: seq<string>)
      returns (reply: Reply, node: AnyNode)
      requires globals.Valid()
      requires Tracks(globals.cfg, start, globals.world.taken, from, h, paths)
      requires h == Local(View(), Looking(Reload(name)), globals.metadata.rows, globals.content.store, globals.world.acct)
      modifies this`rows, globals.world`taken
      ensures globals.Valid() && old(globals.world.taken) <= globals.world.taken
      ensures Tracks(globals.cfg, start, globals.world.taken, from,
                     Local(View(), Done(reply), globals.metadata.rows, globals.content.store, globals.world.acct), paths)
      ensures reply.NodeReply? ==> IsView(node, reply.node)
    {
      ghost var taken := globals.world.taken;
      var found;
      ghost var a;
      found, a := globals.metadata.GetFullEntry(Paths.Join(path, name));
      TracksQuietly(globals.cfg, start, taken, from, h, paths, a);
      if found == None || found.value.Corrupt? {
        return Error, NoNode;
      }
      if found.value.NoRow? || found.value.Fatal? {
        return Panic, NoNode;
      }
      rows := rows[name := found.value.row];
      reply, node := NewNodeForEntry(globals, path, belowPath, found.value.row, name);
    }

    /** The branch for a cached directory that does not know the entry, from the remote Lstat on. */
    method LookupMiss(name: string, ghost start: Local, ghost from: nat, ghost h: Local)
      returns (reply: Reply, node: AnyNode)
      requires globals.Valid() && !direct
      requires Tracks(globals.cfg, start, globals.world.taken, from, h, [])
      requires h == Local(View(), Looking(AskMiss(name)), globals.metadata.rows, globals.content.store, globals.world.acct)
      modifies this`rows, globals.world, globals.metadata`rows
      ensures globals.Valid() && globals.world.asked == old(globals.world.asked) + [Paths.Join(belowPath, name)]
      ensures old(globals.world.taken) <= globals.world.taken
      ensures Tracks(globals.cfg, start, globals.world.taken, from,
                     Local(View(), Done(reply), globals.metadata.rows, globals.content.store, globals.world.acct),
                     [Paths.Join(belowPath, name)])
      ensures reply.NodeReply? ==> IsView(node, reply.node)
    {
      var world, metadata := globals.world, globals.metadata;
      ghost var cfg, taken, paths := globals.cfg, world.taken, [Paths.Join(belowPath, name)];
      node := NoNode;
      world.AccountCacheMiss();
      var a := world.Ask(Paths.Join(belowPath, name));
      TracksMore(cfg, start, taken, from, h, [], a);
      assert [] + AskedBy(h) == paths;
      ghost var here := Step(cfg, h, a);
      if a.stat.StatErr? {
        return Error, NoNode;
      }
      var typeName := if a.stat.StatOk? then SqlTypeName(a.stat.info.mode.modeType) else NoEntry;
      reply, node := InsertNew(name, typeName, start, from, here, paths);
    }

    /** Inserts the row of a new entry and answers from it. */
    method InsertNew(name: string, typeName: TypeName, ghost start: Local, ghost from: nat, ghost h: Local, ghost paths: seq<string>)
      returns (reply: Reply, node: AnyNode)
      requires globals.Valid() && Tracks(globals.cfg, start, globals.world.taken, from, h, paths)
      requires h == Local(View(), Looking(Insert(name, typeName)), globals.metadata.rows, globals.content.store, globals.world.acct)
      modifies this`rows, globals.world`taken, globals.metadata`rows
      ensures globals.Valid() && old(globals.world.taken) <= globals.world.taken
      ensures Tracks(globals.cfg, start, globals.world.taken, from,
                     Local(View(), Done(reply), globals.metadata.rows, globals.content.store, globals.world.acct), paths)
      ensures reply.NodeReply? ==> IsView(node, reply.node)
    {
      ghost var cfg, taken := globals.cfg, globals.world.taken;
      var ok;
      ghost var b;
      ok, b := globals.metadata.PutNew(Paths.Join(path, name), typeName);
      TracksQuietly(cfg, start, taken, from, h, paths, b);
      ghost var here := Step(cfg, h, b);
      if !ok {
        return Error, NoNode;
      }
      if typeName == NoEntry {
        return NoEnt, NoNode;
      }
      reply, node := Reread(name, start, from, here, paths);
    }

    /** The entries of the directory, in no particular order. */
    method ReadDirAll() returns (reply: Reply, dirents: seq<Dirent>)
      requires globals.Valid()
      modifies this`dirEntries, globals.world, globals.metadata`rows
      ensures globals.Valid()
      ensures Performs(globals.cfg,
                       Call(Op.ReadDirAll, old(View()), old(globals.metadata.rows), globals.content.store, old(globals.world.acct)),
                       old(globals.world.taken), globals.world.taken, old(globals.world.asked), globals.world.asked,
                       Local(View(), Done(reply), globals.metadata.rows, globals.content.store, globals.world.acct))
      ensures reply.EntriesReply? ==>
                (set d | d in dirents) == reply.dirents && forall i, j :: 0 <= i < j < |dirents| ==> dirents[i].name != dirents[j].name
    {
      var world := globals.world;
      ghost var cfg, taken, asked := globals.cfg, world.taken, world.asked;
      ghost var call := Call(Op.ReadDirAll, View(), globals.metadata.rows, globals.content.store, world.acct);
      ghost var start := Start(cfg, call);
      dirents := [];
      TracksStart(cfg, start, taken);
      if !direct && dirEntries.Some? {
        world.AccountCacheHit();
        dirents := ListEntries(dirEntries.value);
        reply := EntriesReply(Dirents(dirEntries.value));
        PerformsNow(cfg, call, taken, taken, asked, [], start);
        assert asked + [] == asked;
        return;
      }
      var ok;
      ghost var h;
      ok, h := Refresh(start, |taken|);
      if !ok {
        reply := Error;
        PerformsNow(cfg, call, taken, world.taken, asked, [belowPath], h);
        return;
      }
      reply, dirents := RereadEntries(start, |taken|, h);
      PerformsNow(cfg, call, taken, world.taken, asked, [belowPath],
                  Local(View(), Done(reply), globals.metadata.rows, globals.content.store, world.acct));
    }

    /** Reads the stored listing back, remembers it and lists it. */
    method RereadEntries(ghost start: Local, ghost from: nat, ghost h: Local) returns (reply: Reply, dirents: seq<Dirent>)
      requires globals.Valid() && Tracks(globals.cfg, start, globals.world.taken, from, h, [belowPath])
      requires h == Local(View(), Listing(SelectEntries), globals.metadata.rows, globals.content.store, globals.world.acct)
      modifies this`dirEntries, globals.world`taken
      ensures globals.Valid() && old(globals.world.taken) <= globals.world.taken
      ensures Tracks(globals.cfg, start, globals.world.taken, from,
                     Local(View(), Done(reply), globals.metadata.rows, globals.content.store, globals.world.acct), [belowPath])
      ensures reply.EntriesReply? ==>
                (set d | d in dirents) == reply.dirents && forall i, j :: 0 <= i < j < |dirents| ==> dirents[i].name != dirents[j].name
    {
      ghost var taken := globals.world.taken;
      dirents := [];
      var entries;
      ghost var a;
      entries, a := globals.metadata.GetDirEntries(inode);
      TracksQuietly(globals.cfg, start, taken, from, h, [belowPath], a);
      assert Dirents(map[]) == {};
      match entries {
        case Parsed(m) =>
          dirEntries := Some(m);
          dirents := ListEntries(m);
          reply := EntriesReply(Dirents(m));
        case Malformed => reply := Error;
        case IndexPanic => reply := Panic;
      }
    }

    /** Fetches the listing and stores it; a direct directory can go on without if it has been listed before. */
    method Refresh(ghost start: Local, ghost from: nat) returns (ok: bool, ghost h: Local)
      requires globals.Valid() && Tracks(globals.cfg, start, globals.world.taken, from, start, [])
      requires start == Local(View(), Listing(OpenDir), globals.metadata.rows, globals.content.store, globals.world.acct)
      modifies globals.world, globals.metadata`rows
      ensures globals.Valid() && old(globals.world.taken) <= globals.world.taken
      ensures globals.world.asked == old(globals.world.asked) + [belowPath]
      ensures Tracks(globals.cfg, start, globals.world.taken, from, h, [belowPath])
      ensures h == Local(View(), if ok then Listing(SelectEntries) else Done(Error),
                         globals.metadata.rows, globals.content.store, globals.world.acct)
    {
      var world := globals.world;
      ghost var cfg, taken := globals.cfg, world.taken;
      if direct {
        world.AccountDirect();
      } else {
        world.AccountCacheMiss();
      }
      var a := world.Ask(belowPath);
      TracksMore(cfg, start, taken, from, start, [], a);
      assert [] + AskedBy(start) == [belowPath];
      h := Step(cfg, start, a);
      if !a.openOk {
        return direct && dirEntries.Some?, h;
      }
      ghost var taken1 := world.taken;
      var b := world.Take();
      world.AskMore(1);
      TracksQuietly(cfg, start, taken1, from, h, [belowPath], b);
      h := Step(cfg, h, b);
      if b.listing == None {
        return false, h;
      }
      ok, h := globals.metadata.PutDirEntries(cfg, start, from, h, [belowPath], inode, path, b.listing.value);
    }
  }

  class File {
    const globals: Globals
    const path: string
    const belowPath: string
    const inode: nat
    const direct: bool
    var fileInfo: Option<FileInfo>
    var contentHash: Option<string>

    ghost function View(): Node
      reads this
    {
      Node(path, belowPath, inode, direct, DirEntries.File, fileInfo, None, contentHash, None, map[])
    }

    constructor (globals: Globals, path: string, belowPath: string, inode: nat, direct: bool,
                 fileInfo: Option<FileInfo>, contentHash: Option<string>)
      ensures this.globals == globals
      ensures View() == Node(path, belowPath, inode, direct, DirEntries.File, fileInfo, None, contentHash, None, map[])
    {
      this.globals, this.path, this.belowPath, this.inode, this.direct := globals, path, belowPath, inode, direct;
      this.fileInfo, this.contentHash := fileInfo, contentHash;
    }

    method Attr() returns (reply: Reply)
      requires globals.Valid()
      modifies this`fileInfo, globals.world, globals.metadata`rows
      ensures globals.Valid()
      ensures Performs(globals.cfg,
                       Call(Op.Attr, old(View()), old(globals.metadata.rows), globals.content.store, old(globals.world.acct)),
                       old(globals.world.taken), globals.world.taken, old(globals.world.asked), globals.world.asked,
                       Local(View(), Done(reply), globals.metadata.rows, globals.content.store, globals.world.acct))
    {
      reply, fileInfo := CommonAttr(globals, View(), inode, direct, belowPath, fileInfo);
    }

    /** Makes sure that the contents are in the store and opens the object. */
    method Open() returns (reply: Reply, handle: OpenFile?)
      requires globals.Valid()
      modifies this`contentHash, globals.world, globals.metadata`rows, globals.content`store
      ensures globals.Valid()
      ensures Performs(globals.cfg,
                       Call(Op.Open, old(View()), old(globals.metadata.rows), old(globals.content.store), old(globals.world.acct)),
                       old(globals.world.taken), globals.world.taken, old(globals.world.asked), globals.world.asked,
                       Local(View(), Done(reply), globals.metadata.rows, globals.content.store, globals.world.acct))
      ensures reply.HandleReply? ==> handle != null && fresh(handle) && handle.reader == Some(reply.data)
    {
      var world := globals.world;
      ghost var cfg, taken, asked := globals.cfg, world.taken, world.asked;
      ghost var call := Call(Op.Open, View(), globals.metadata.rows, globals.content.store, world.acct);
      ghost var start := Start(cfg, call);
      ghost var paths: seq<string> := [];
      ghost var h := start;
      handle := null;
      TracksStart(cfg, start, taken);
      assert asked + [] == asked;
      if !direct && contentHash.Some? {
        world.AccountCacheHit();
      } else {
        var ok;
        ok, h := FetchContents(start, |taken|);
        paths := [belowPath];
        if !ok {
          reply := Error;
          PerformsNow(cfg, call, taken, world.taken, asked, paths, h);
          return;
        }
      }
      reply, handle := OpenObject(start, |taken|, h, paths);
      PerformsNow(cfg, call, taken, world.taken, asked, paths,
                  Local(View(), Done(reply), globals.metadata.rows, globals.content.store, world.acct));
    }

    /** Puts the remote contents into the store and records the key; a direct file can fall back on the last key. */
    method FetchContents(ghost start: Local, ghost from: nat) returns (ok: bool, ghost h: Local)
      requires globals.Valid() && Tracks(globals.cfg, start, globals.world.taken, from, start, [])
      requires start == Local(View(), Opening(OpenRemote), globals.metadata.rows, globals.content.store, globals.world.acct)
      requires direct || contentHash == None
      modifies this`contentHash, globals.world, globals.metadata`rows, globals.content`store
      ensures globals.Valid() && old(globals.world.taken) <= globals.world.taken
      ensures globals.world.asked == old(globals.world.asked) + [belowPath]
      ensures Tracks(globals.cfg, start, globals.world.taken, from, h, [belowPath])
      ensures h == Local(View(), if ok then Opening(FindObject) else Done(Error),
                         globals.metadata.rows, globals.content.store, globals.world.acct)
    {
      ghost var cfg := globals.cfg;
      if direct {
        globals.world.AccountDirect();
      } else {
        globals.world.AccountCacheMiss();
      }
      var key;
      ghost var data;
      key, h, data := globals.content.PutContents(start, from, start, [], belowPath);
      assert [] + [belowPath] == [belowPath];
      if key == None {
        return direct && contentHash.Some?, h;
      }
      ghost var taken := globals.world.taken;
      ghost var a;
      ok, a := globals.metadata.PutContentHash(inode, globals.cfg.affinity(key.value));
      TracksQuietly(cfg, start, taken, from, h, [belowPath], a);
      h := Step(cfg, h, a);
      if ok {
        contentHash := key;
      }
    }

    /** GetFileForContents and the local Open. */
    method OpenObject(ghost start: Local, ghost from: nat, ghost h: Local, ghost paths: seq<string>)
      returns (reply: Reply, handle: OpenFile?)
      requires globals.Valid() && Tracks(globals.cfg, start, globals.world.taken, from, h, paths)
      requires h == Local(View(), Opening(FindObject), globals.metadata.rows, globals.content.store, globals.world.acct)
      modifies globals.world`taken
      ensures old(globals.world.taken) <= globals.world.taken
      ensures Tracks(globals.cfg, start, globals.world.taken, from,
                     Local(View(), Done(reply), globals.metadata.rows, globals.content.store, globals.world.acct), paths)
      ensures reply.HandleReply? ==> handle != null && fresh(handle) && handle.reader == Some(reply.data)
    {
      var world, content := globals.world, globals.content;
      ghost var cfg, taken := globals.cfg, world.taken;
      handle := null;
      if contentHash == None || |contentHash.value| < 2 {
        var a := world.Take();
        TracksQuietly(cfg, start, taken, from, h, paths, a);
        return Panic, null;
      }
      var found;
      ghost var a;
      found, a := content.HasKey(contentHash.value);
      TracksQuietly(cfg, start, taken, from, h, paths, a);
      ghost var here := Step(cfg, h, a);
      if found == None {
        return Error, null;
      }
      if !found.value {
        return NoKey, null;
      }
      reply, handle := OpenLocal(PathForKey(globals.cfg.cacheRoot, contentHash.value), start, from, here, paths);
    }

    /** The local Open of an object that is there. */
    method OpenLocal(objectPath: string, ghost start: Local, ghost from: nat, ghost h: Local, ghost paths: seq<string>)
      returns (reply: Reply, handle: OpenFile?)
      requires globals.Valid() && Tracks(globals.cfg, start, globals.world.taken, from, h, paths)
      requires h == Local(View(), Opening(OpenPc.OpenObject), globals.metadata.rows, globals.content.store, globals.world.acct)
      requires contentHash.Some? && |contentHash.value| >= 2 && objectPath == PathForKey(globals.cfg.cacheRoot, contentHash.value)
      requires objectPath in globals.content.store.files
      modifies globals.world`taken
      ensures old(globals.world.taken) <= globals.world.taken
      ensures Tracks(globals.cfg, start, globals.world.taken, from,
                     Local(View(), Done(reply), globals.metadata.rows, globals.content.store, globals.world.acct), paths)
      ensures reply.HandleReply? ==> handle != null && fresh(handle) && handle.reader == Some(reply.data)
    {
      ghost var taken := globals.world.taken;
      var a := globals.world.Take();
      TracksQuietly(globals.cfg, start, taken, from, h, paths, a);
      if a.fault {
        return Error, null;
      }
      var data := globals.content.store.files[objectPath];
      handle := new OpenFile(globals.world, path, data);
      return HandleReply(data), handle;
    }
  }

  /** An open file; the reader is gone once the file is released. */
  class OpenFile {
    const world: World
    const path: string
    var reader: Option<Bytes>

    constructor (world: World, path: string, data: Bytes)
      ensures this.world == world && this.path == path && reader == Some(data)
    {
      this.world, this.path, reader := world, path, Some(data);
    }

    /**
     Fills the response with the part of the file that the range covers. A read that fails
     after some bytes keeps these; a negative offset fails at once.
     */
    method Read(response: array<byte>, offset: int, size: nat, failsAfter: Option<nat>) returns (n: nat, ok: bool)
      requires reader.Some? && size <= response.Length
      modifies response, world`acct
      ensures world.acct == old(world.acct).(hit := old(world.acct).hit + 1)
      ensures ok == (failsAfter == None && offset >= 0)
      ensures n <= size && (offset < 0 ==> n == 0)
      ensures offset >= 0 ==>
                var all := if |reader.value| <= offset then 0
                           else if |reader.value| - offset < size then |reader.value| - offset else size;
                n == (if failsAfter.Some? && failsAfter.value < all then failsAfter.value else all) &&
                forall k :: 0 <= k < n ==> response[k] == reader.value[offset + k]
    {
      world.AccountCacheHit();
      if offset < 0 {
        return 0, false;
      }
      var data := reader.value;
      n := 0;
      while n < size && offset + n < |data| && failsAfter != Some(n)
        invariant 0 <= n <= size && (n > 0 ==> offset + n <= |data|)
        invariant failsAfter.Some? ==> n <= failsAfter.value
        invariant forall k :: 0 <= k < n ==> response[k] == data[offset + k]
        decreases size - n
        modifies response
      {
        response[n] := data[offset + n];
        n := n + 1;
      }
      ok := failsAfter == None;
    }

    /** Releasing twice is harmless; a failed close keeps the reader. */
    method Release(fault: bool) returns (ok: bool)
      modifies this`reader
      ensures ok == (old(reader) == None || !fault)
      ensures reader == if ok then None else old(reader)
    {
      if reader == None {
        return true;
      }
      if fault {
        return false;
      }
      reader := None;
      return true;
    }
  }

  class Symlink {
    const globals: Globals
    const path: string
    const belowPath: string
    const inode: nat
    const direct: bool
    var fileInfo: Option<FileInfo>
    var target: Option<string>

    ghost function View(): Node
      reads this
    {
      Node(path, belowPath, inode, direct, DirEntries.Symlink, fileInfo, None, None, target, map[])
    }

    constructor (globals: Globals, path: string, belowPath: string, inode: nat, direct: bool,
                 fileInfo: Option<FileInfo>, target: Option<string>)
      ensures this.globals == globals
      ensures View() == Node(path, belowPath, inode, direct, DirEntries.Symlink, fileInfo, None, None, target, map[])
    {
      this.globals, this.path, this.belowPath, this.inode, this.direct := globals, path, belowPath, inode, direct;
      this.fileInfo, this.target := fileInfo, target;
    }

    method Attr() returns (reply: Reply)
      requires globals.Valid()
      modifies this`fileInfo, globals.world, globals.metadata`rows
      ensures globals.Valid()
      ensures Performs(globals.cfg,
                       Call(Op.Attr, old(View()), old(globals.metadata.rows), globals.content.store, old(globals.world.acct)),
                       old(globals.world.taken), globals.world.taken, old(globals.world.asked), globals.world.asked,
                       Local(View(), Done(reply), globals.metadata.rows, globals.content.store, globals.world.acct))
    {
      reply, fileInfo := CommonAttr(globals, View(), inode, direct, belowPath, fileInfo);
    }

    method Readlink() returns (reply: Reply)
      requires globals.Valid()
      modifies this`target, globals.world, globals.metadata`rows
      ensures globals.Valid()
      ensures Performs(globals.cfg,
                       Call(Op.Readlink, old(View()), old(globals.metadata.rows), globals.content.store, old(globals.world.acct)),
                       old(globals.world.taken), globals.world.taken, old(globals.world.asked), globals.world.asked,
                       Local(View(), Done(reply), globals.metadata.rows, globals.content.store, globals.world.acct))
    {
      var world := globals.world;
      ghost var cfg, taken, asked := globals.cfg, world.taken, world.asked;
      ghost var call := Call(Op.Readlink, View(), globals.metadata.rows, globals.content.store, world.acct);
      ghost var start := Start(cfg, call);
      TracksStart(cfg, start, taken);
      if !direct && target.Some? {
        world.AccountCacheHit();
        reply := TargetReply(target.value);
        PerformsNow(cfg, call, taken, taken, asked, [], start);
        assert asked + [] == asked;
        return;
      }
      reply := FetchTarget(start, |taken|);
      PerformsNow(cfg, call, taken, world.taken, asked, [belowPath],
                  Local(View(), Done(reply), globals.metadata.rows, globals.content.store, world.acct));
    }

    /** Reads the remote link and stores its target; a direct link can fall back on the last one. */
    method FetchTarget(ghost start: Local, ghost from: nat) returns (reply: Reply)
      requires globals.Valid() && Tracks(globals.cfg, start, globals.world.taken, from, start, [])
      requires start == Local(View(), Linking(CallReadlink), globals.metadata.rows, globals.content.store, globals.world.acct)
      modifies this`target, globals.world, globals.metadata`rows
      ensures globals.Valid() && old(globals.world.taken) <= globals.world.taken
      ensures globals.world.asked == old(globals.world.asked) + [belowPath]
      ensures Tracks(globals.cfg, start, globals.world.taken, from,
                     Local(View(), Done(reply), globals.metadata.rows, globals.content.store, globals.world.acct), [belowPath])
    {
      var world := globals.world;
      ghost var cfg, taken := globals.cfg, world.taken;
      if direct {
        world.AccountDirect();
      } else {
        world.AccountCacheMiss();
      }
      var a := world.Ask(belowPath);
      TracksMore(cfg, start, taken, from, start, [], a);
      ghost var h := Step(cfg, start, a);
      assert [] + AskedBy(start) == [belowPath];
      if a.target == None {
        return if direct && target.Some? then TargetReply(target.value) else Error;
      }
      taken := world.taken;
      var ok;
      ghost var b;
      ok, b := globals.metadata.PutSymlinkTarget(inode, globals.cfg.affinity(a.target.value));
      TracksQuietly(cfg, start, taken, from, h, [belowPath], b);
      if !ok {
        return Error;
      }
      target := a.target;
      return TargetReply(target.value);
    }
  }

  /** The root set-up: makes sure that "/" has a row of type directory and makes the root node from it. */
  method MountRoot(globals: Globals) returns (reply: Reply, node: AnyNode, ghost parent: Node)
    requires globals.Valid()
    modifies globals.world`taken, globals.metadata`rows
    ensures globals.Valid()
    ensures Performs(globals.cfg,
                     Call(Op.Mount, MountParent(globals.cfg), old(globals.metadata.rows), globals.content.store, globals.world.acct),
                     old(globals.world.taken), globals.world.taken, globals.world.asked, globals.world.asked,
                     Local(parent, Done(reply), globals.metadata.rows, globals.content.store, globals.world.acct))
    ensures reply.NodeReply? ==> IsView(node, reply.node)
  {
    ghost var cfg, taken, asked := globals.cfg, globals.world.taken, globals.world.asked;
    ghost var call := Call(Op.Mount, MountParent(cfg), globals.metadata.rows, globals.content.store, globals.world.acct);
    ghost var start := Start(cfg, call);
    parent := MountParent(cfg);
    Paths.RootJoinsRoot();
    TracksStart(cfg, start, taken);
    assert asked + [] == asked;
    var row;
    ghost var h;
    row, h := PutAndGetRow(globals, "/", DirType, "/", start, |taken|);
    if row == None || row.value.Corrupt? {
      reply, node := Error, NoNode;
    } else if row.value.NoRow? || row.value.Fatal? {
      reply, node := Panic, NoNode;
    } else {
      reply, node := NewNodeForEntry(globals, "/", globals.cfg.remoteDir, row.value.row, "/");
      parent := h.node;
    }
    PerformsNow(cfg, call, taken, globals.world.taken, asked, [], h);
  }

  /** Makes sure that the path has a row and reads it back; None is a statement that failed. */
  method PutAndGetRow(globals: Globals, path: string, modeType: ModeType, ghost name: string,
                      ghost start: Local, ghost from: nat)
    returns (row: Option<FullEntry>, ghost h: Local)
    requires globals.Valid() && path == Paths.Join(start.node.path, name)
    requires start.pc == Looking(EnsureRow(name, SqlTypeName(modeType))) && start.table == globals.metadata.rows
    requires Tracks(globals.cfg, start, globals.world.taken, from, start, [])
    modifies globals.world`taken, globals.metadata`rows
    ensures globals.Valid() && old(globals.world.taken) <= globals.world.taken
    ensures Tracks(globals.cfg, start, globals.world.taken, from, h, [])
    ensures h == if row == None || row.value.Corrupt? then start.(pc := Done(Error), table := globals.metadata.rows)
                 else if row.value.NoRow? || row.value.Fatal? then start.(pc := Done(Panic), table := globals.metadata.rows)
                 else Resolve(globals.cfg, start.(table := globals.metadata.rows), name, row.value.row)
  {
    var world, metadata := globals.world, globals.metadata;
    var typeName := SqlTypeName(modeType);
    ghost var cfg, taken := globals.cfg, world.taken;
    ghost var a;
    row, a := metadata.GetFullEntry(path);
    TracksMore(cfg, start, taken, from, start, [], a);
    assert [] + AskedBy(start) == [];
    h := Step(cfg, start, a);
    if row == None || row.value.Corrupt? || row.value.Fatal? {
      return row, h;
    }
    var ok;
    ok, h := PutRow(globals, path, typeName, name, row.value.Found?, start, from, h);
    if !ok {
      return None, h;
    }
    taken := world.taken;
    row, a := metadata.GetFullEntry(path);
    TracksQuietly(cfg, start, taken, from, h, [], a);
    h := Step(cfg, h, a);
  }

  /** Stores the type of a path that is not cached, and of a cached one that has no row yet. */
  method PutRow(globals: Globals, path: string, typeName: TypeName, ghost name: string, cached: bool,
                   ghost start: Local, ghost from: nat, ghost h: Local)
    returns (ok: bool, ghost h': Local)
    requires globals.Valid() && path == Paths.Join(h.node.path, name) && typeName != NoEntry
    requires Tracks(globals.cfg, start, globals.world.taken, from, h, []) && h.table == globals.metadata.rows
    requires h.pc == Looking(if globals.cfg.direct(path) then Update(name, typeName)
                             else if cached then Reload(name) else Insert(name, typeName))
    modifies globals.world`taken, globals.metadata`rows
    ensures globals.Valid() && old(globals.world.taken) <= globals.world.taken
    ensures Tracks(globals.cfg, start, globals.world.taken, from, h', [])
    ensures h' == h.(table := globals.metadata.rows, pc := if ok then Looking(Reload(name)) else Done(Error))
  {
    ok, h' := true, h;
    if globals.cfg.direct(path) {
      var put;
      put, h' := StoreType(globals, path, typeName, name, start, from, h, []);
      ok := put == PutOk;
    } else if !cached {
      ghost var taken := globals.world.taken;
      ghost var a;
      ok, a := globals.metadata.PutNew(path, typeName);
      TracksQuietly(globals.cfg, start, taken, from, h, [], a);
      h' := Step(globals.cfg, h, a);
    }
  }
}
