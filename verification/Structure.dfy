/**
 What holds of every state of every run, whatever the remote tree answers and
 however it changes: the table, the store and everything the handlers remember
 stay consistent with one another.
 */
module Structure {
  import opened Wrappers
  import opened DirEntries
  import opened Metadata
  import opened Content
  import opened Handlers
  import opened Paths
  import Text

  predicate WfConfig(cfg: Config) {
    cfg.remoteDir != "" && cfg.cacheRoot != ""
  }

  /** Directory listings hold names that can be stored; the listing format has no escapes. */
  predicate WfAnswer(a: Answer) {
    a.listing.Some? ==> forall i :: 0 <= i < |a.listing.value| ==> EntryName(a.listing.value[i].name)
  }

  // ----- paths -----

  /** The path is a child of a directory that is cached, so that its type is never updated. */
  predicate Pinned(cfg: Config, path: string) {
    var cs := Components(path);
    cs != [] && !cfg.direct(Render(true, cs[..|cs| - 1]))
  }

  lemma PinnedChild(cfg: Config, dir: string, name: string)
    requires Canonical(dir) && ProperName(name)
    ensures Pinned(cfg, Join(dir, name)) == !cfg.direct(dir)
  {
    JoinName(dir, name);
    assert (Components(dir) + [name])[..|Components(dir)|] == Components(dir);
  }

  /** The name below the node leads to a path of the mount point and to its remote counterpart. */
  predicate Slot(cfg: Config, node: Node, name: string) {
    var path := Join(node.path, name);
    Canonical(path) && Join(node.below, name) == Below(cfg.remoteDir, path) &&
    (Pinned(cfg, path) ==> !node.direct)
  }

  predicate Placed(cfg: Config, node: Node) {
    Canonical(node.path) && node.below == Below(cfg.remoteDir, node.path) && node.direct == cfg.direct(node.path)
  }

  lemma ChildSlot(cfg: Config, node: Node, name: string)
    requires WfConfig(cfg) && Placed(cfg, node) && ProperName(name)
    ensures Slot(cfg, node, name)
  {
    JoinCanonical(node.path, name);
    BelowJoin(cfg.remoteDir, node.path, name);
    PinnedChild(cfg, node.path, name);
  }

  lemma RootSlot(cfg: Config)
    requires WfConfig(cfg)
    ensures Join("/", "/") == "/" && Slot(cfg, MountParent(cfg), "/")
  {
    RootComponents();
    RootJoinsRoot();
  }

  // ----- the table and the things remembered from it -----

  /** Every column the remembered row has is set in the table. */
  predicate Covered(c: CachedRow, row: Row) {
    (c.info.Some? ==> RowInfo(row).Some?) && (c.entries.Some? ==> row.dirEntries.Some?) &&
    (c.hash.Some? ==> row.contentHash.Some?) && (c.target.Some? ==> row.target.Some?)
  }

  /** A remembered hash is a key with an object, or what the text column made of such a key. */
  ghost predicate HashOK(cfg: Config, st: Store, hash: Option<string>) {
    hash.Some? ==>
      exists k :: HasObject(cfg.cacheRoot, st, k) && (hash.value == k || hash.value == cfg.affinity(k))
  }

  /** The text column does not give the key of some object back unchanged. */
  ghost predicate Mangled(cfg: Config, st: Store) {
    exists k :: HasObject(cfg.cacheRoot, st, k) && cfg.affinity(k) != k
  }

  /** Every listed name refers to the row of that name below path. */
  ghost predicate EntriesOK(t: Table, path: string, m: EntryMap) {
    forall n :: n in m ==> ProperName(n) && m[n].valid && m[n].inode in t && t[m[n].inode].path == Join(path, n)
  }

  /** A row as remembered at some time, for the given path. */
  ghost predicate CachedOK(cfg: Config, t: Table, st: Store, path: string, c: CachedRow) {
    Canonical(path) &&
    c.inode in t && t[c.inode].path == path &&
    (Pinned(cfg, path) ==> c.typeName == t[c.inode].typeName) &&
    Covered(c, t[c.inode]) &&
    (c.entries.Some? ==> EntriesOK(t, path, c.entries.value)) &&
    HashOK(cfg, st, c.hash)
  }

  ghost predicate RowOK(cfg: Config, t: Table, st: Store, id: nat, row: Row) {
    0 < id < ROWID_LIMIT && RowEntry(id, row).Found? && CachedOK(cfg, t, st, row.path, RowEntry(id, row).row)
  }

  ghost predicate TableOK(cfg: Config, t: Table, st: Store) {
    UniquePaths(t) && forall id :: id in t ==> RowOK(cfg, t, st, id, t[id])
  }

  /** Objects hold bytes with the right digest; temporary names are directly in the cache directory. */
  ghost predicate StoreOK(cfg: Config, st: Store) {
    (forall k :: HasObject(cfg.cacheRoot, st, k) ==> KeyFor(cfg, st.files[PathForKey(cfg.cacheRoot, k)]) == k) &&
    (forall f :: f in st.used ==> TopLevel(cfg.cacheRoot, f))
  }

  function CachedOf(node: Node): CachedRow {
    CachedRow(node.inode, node.typeName, node.info, node.entries, node.hash, node.target)
  }

  ghost predicate NodeOK(cfg: Config, t: Table, st: Store, node: Node) {
    Placed(cfg, node) && node.typeName != NoEntry &&
    CachedOK(cfg, t, st, node.path, CachedOf(node)) &&
    forall name :: name in node.rows ==>
      ProperName(name) && CachedOK(cfg, t, st, Join(node.path, name), node.rows[name])
  }

  // ----- running handlers -----

  ghost predicate HolderOK(cfg: Config, t: Table, st: Store, op: Op, node: Node) {
    if op.Mount? then node.path == "/" && node.below == cfg.remoteDir && node.direct == cfg.direct("/")
    else NodeOK(cfg, t, st, node)
  }

  /** The operation looks for this name. */
  predicate Seeks(op: Op, name: string) {
    op == Lookup(name) || (op == Mount && name == "/")
  }

  ghost predicate Doable(t: Table, node: Node, todo: seq<Listed>, done: seq<Entry>) {
    (forall i :: 0 <= i < |todo| ==> EntryName(todo[i].name)) &&
    (forall i :: 0 <= i < |done| ==>
      EntryName(done[i].name) && done[i].typeName != NoEntry && done[i].inode in t &&
      t[done[i].inode].path == Join(node.path, done[i].name))
  }

  predicate TempOK(cfg: Config, st: Store, temp: string) {
    TopLevel(cfg.cacheRoot, temp) && temp in st.used && temp in st.files
  }

  ghost predicate HasWhiteout(t: Table, path: string) {
    exists id :: id in t && t[id].path == path && t[id].typeName == NoEntry
  }

  ghost predicate DirentsOK(t: Table, path: string, ds: set<Dirent>) {
    forall d :: d in ds ==> ProperName(d.name) && d.inode in t && t[d.inode].path == Join(path, d.name)
  }

  ghost predicate ReplyOK(cfg: Config, t: Table, st: Store, op: Op, node: Node, reply: Reply) {
    match reply
    case Error => true
    case NoEnt => exists name :: Seeks(op, name) && Slot(cfg, node, name) &&
                                 (Pinned(cfg, Join(node.path, name)) ==> HasWhiteout(t, Join(node.path, name)))
    case NoKey => op.Open? && Mangled(cfg, st)
    case Panic => op.Open? && Mangled(cfg, st)
    case NodeReply(n) => exists name :: Seeks(op, name) && Slot(cfg, node, name) &&
                                        n.path == Join(node.path, name) && NodeOK(cfg, t, st, n)
    case AttrReply(inode, _) => op.Attr? && inode == node.inode
    case EntriesReply(ds) => op.ReadDirAll? && DirentsOK(t, node.path, ds)
    case TargetReply(_) => op.Readlink?
    case HandleReply(data) =>
      op.Open? && node.hash.Some? && (IsKey(node.hash.value) ==> KeyFor(cfg, data) == node.hash.value)
  }

  ghost predicate LookupOK(cfg: Config, t: Table, op: Op, node: Node, pc: LookupPc) {
    match pc
    case Query(name) => op == Lookup(name) && Slot(cfg, node, name)
    case AskDirect(name, cached) =>
      op == Lookup(name) && Slot(cfg, node, name) && node.direct && (cached ==> HasPath(t, Join(node.path, name)))
    case AskMiss(name) => op == Lookup(name) && Slot(cfg, node, name) && !node.direct
    case Update(name, typeName) =>
      Seeks(op, name) && Slot(cfg, node, name) && node.direct && (op.Mount? ==> typeName == Directory)
    case Insert(name, typeName) => Seeks(op, name) && Slot(cfg, node, name) && (op.Mount? ==> typeName == Directory)
    case Reload(name) => Seeks(op, name) && Slot(cfg, node, name) && HasPath(t, Join(node.path, name))
    case EnsureRow(name, typeName) => op.Mount? && name == "/" && typeName == Directory
  }

  ghost predicate OpenOK(cfg: Config, st: Store, node: Node, pc: OpenPc) {
    match pc
    case OpenRemote => true
    case CreateTemp => true
    case Fetch(temp) => TempOK(cfg, st, temp)
    case CheckKey(temp, key) => TempOK(cfg, st, temp) && KeyFor(cfg, st.files[temp]) == key
    case MakeBucket(temp, key) => TempOK(cfg, st, temp) && KeyFor(cfg, st.files[temp]) == key
    case RenameTemp(temp, key) =>
      TempOK(cfg, st, temp) && KeyFor(cfg, st.files[temp]) == key && BucketPath(cfg.cacheRoot, key) in st.dirs
    case RemoveTemp(temp, put) =>
      TopLevel(cfg.cacheRoot, temp) && temp in st.used && (put.Some? ==> HasObject(cfg.cacheRoot, st, put.value))
    case PutHash(key) => HasObject(cfg.cacheRoot, st, key)
    case FindObject => node.hash.Some?
    case OpenObject => node.hash.Some?
  }

  ghost predicate ReaddirOK(t: Table, node: Node, pc: ReaddirPc) {
    match pc
    case SelectEntry(todo, done) => Doable(t, node, todo, done)
    case InsertEntry(todo, done) => Doable(t, node, todo, done)
    case PutEntries(done) => Doable(t, node, [], done)
    case SelectEntries => node.inode in t && t[node.inode].dirEntries.Some?
    case _ => true
  }

  ghost predicate PcOK(cfg: Config, t: Table, st: Store, op: Op, node: Node, pc: Pc) {
    match pc
    case Looking(lk) => LookupOK(cfg, t, op, node, lk)
    case Stating(_) => op.Attr?
    case Linking(_) => op.Readlink?
    case Opening(o) => op.Open? && OpenOK(cfg, st, node, o)
    case Listing(rd) => op.ReadDirAll? && ReaddirOK(t, node, rd)
    case Done(reply) => ReplyOK(cfg, t, st, op, node, reply)
  }

  /** The temporary file the handler owns. */
  function TempOf(pc: Pc): Option<string> {
    match pc
    case Opening(op) =>
      if op.Fetch? || op.CheckKey? || op.MakeBucket? || op.RenameTemp? || op.RemoveTemp? then Some(op.temp) else None
    case _ => None
  }

  ghost predicate LocalOK(cfg: Config, op: Op, l: Local) {
    WellFormed(l.pc) &&
    TableOK(cfg, l.table, l.store) && StoreOK(cfg, l.store) &&
    HolderOK(cfg, l.table, l.store, op, l.node) && PcOK(cfg, l.table, l.store, op, l.node, l.pc)
  }

  // ----- how the table and the store change -----

  /** Rows keep their path; pinned rows keep their type; columns never go back to NULL. */
  ghost predicate Kept(cfg: Config, r: Row, r': Row) {
    r'.path == r.path && (Pinned(cfg, r.path) ==> r'.typeName == r.typeName) &&
    (RowInfo(r).Some? ==> RowInfo(r').Some?) && (r.dirEntries.Some? ==> r'.dirEntries.Some?) &&
    (r.contentHash.Some? ==> r'.contentHash.Some?) && (r.target.Some? ==> r'.target.Some?)
  }

  ghost predicate Grows(cfg: Config, t: Table, t': Table) {
    forall id :: id in t ==> id in t' && Kept(cfg, t[id], t'[id])
  }

  /** Objects and directories stay; temporary files of others stay as they are. */
  ghost predicate StoreGrows(cfg: Config, st: Store, st': Store, own: Option<string>) {
    (forall k :: HasObject(cfg.cacheRoot, st, k) ==> HasObject(cfg.cacheRoot, st', k)) &&
    st.used <= st'.used && st.dirs <= st'.dirs &&
    (forall f :: f in st.used && f in st.files && own != Some(f) ==> f in st'.files && st'.files[f] == st.files[f])
  }

  lemma GrowsTransitive(cfg: Config, t: Table, t': Table, t'': Table)
    requires Grows(cfg, t, t') && Grows(cfg, t', t'')
    ensures Grows(cfg, t, t'')
  {
  }

  // ----- what is remembered survives the changes of others -----

  lemma CachedStable(cfg: Config, t: Table, st: Store, t': Table, st': Store, own: Option<string>,
                     path: string, c: CachedRow)
    requires Grows(cfg, t, t') && StoreGrows(cfg, st, st', own)
    requires CachedOK(cfg, t, st, path, c)
    ensures CachedOK(cfg, t', st', path, c)
  {
    assert Kept(cfg, t[c.inode], t'[c.inode]);
    if c.entries.Some? {
      forall n | n in c.entries.value
        ensures c.entries.value[n].inode in t' && t'[c.entries.value[n].inode].path == Join(path, n)
      {
      }
    }
  }

  lemma NodeStable(cfg: Config, t: Table, st: Store, t': Table, st': Store, own: Option<string>, node: Node)
    requires Grows(cfg, t, t') && StoreGrows(cfg, st, st', own)
    requires NodeOK(cfg, t, st, node)
    ensures NodeOK(cfg, t', st', node)
  {
    CachedStable(cfg, t, st, t', st', own, node.path, CachedOf(node));
    forall name | name in node.rows
      ensures CachedOK(cfg, t', st', Join(node.path, name), node.rows[name])
    {
      CachedStable(cfg, t, st, t', st', own, Join(node.path, name), node.rows[name]);
    }
  }

  lemma HasPathStable(cfg: Config, t: Table, t': Table, path: string)
    requires Grows(cfg, t, t') && HasPath(t, path)
    ensures HasPath(t', path)
  {
    var id := IdOf(t, path);
    assert id in t' && t'[id].path == path;
  }

  lemma WhiteoutStable(cfg: Config, t: Table, t': Table, path: string)
    requires Grows(cfg, t, t') && HasWhiteout(t, path) && Pinned(cfg, path)
    ensures HasWhiteout(t', path)
  {
    var id :| id in t && t[id].path == path && t[id].typeName == NoEntry;
    assert Kept(cfg, t[id], t'[id]);
  }

  lemma ReplyStable(cfg: Config, t: Table, st: Store, t': Table, st': Store, own: Option<string>,
                    op: Op, node: Node, reply: Reply)
    requires Grows(cfg, t, t') && StoreGrows(cfg, st, st', own)
    requires ReplyOK(cfg, t, st, op, node, reply)
    ensures ReplyOK(cfg, t', st', op, node, reply)
  {
    match reply
    case NoEnt =>
      var name :| Seeks(op, name) && Slot(cfg, node, name) &&
                  (Pinned(cfg, Join(node.path, name)) ==> HasWhiteout(t, Join(node.path, name)));
      if Pinned(cfg, Join(node.path, name)) {
        WhiteoutStable(cfg, t, t', Join(node.path, name));
      }
    case NodeReply(n) =>
      NodeStable(cfg, t, st, t', st', own, n);
    case EntriesReply(ds) =>
      forall d | d in ds
        ensures d.inode in t' && t'[d.inode].path == Join(node.path, d.name)
      {
      }
    case _ =>
  }

  lemma HolderStable(cfg: Config, t: Table, st: Store, t': Table, st': Store, own: Option<string>, op: Op, node: Node)
    requires Grows(cfg, t, t') && StoreGrows(cfg, st, st', own)
    requires HolderOK(cfg, t, st, op, node)
    ensures HolderOK(cfg, t', st', op, node)
  {
    if !op.Mount? {
      NodeStable(cfg, t, st, t', st', own, node);
    }
  }

  lemma DoableStable(cfg: Config, t: Table, t': Table, node: Node, todo: seq<Listed>, done: seq<Entry>)
    requires Grows(cfg, t, t') && Doable(t, node, todo, done)
    ensures Doable(t', node, todo, done)
  {
    forall i | 0 <= i < |done|
      ensures done[i].inode in t' && t'[done[i].inode].path == Join(node.path, done[i].name)
    {
      assert done[i].inode in t;
    }
  }

  lemma PcStable(cfg: Config, t: Table, st: Store, t': Table, st': Store, own: Option<string>,
                 op: Op, node: Node, pc: Pc)
    requires Grows(cfg, t, t') && StoreGrows(cfg, st, st', own)
    requires own.Some? ==> TempOf(pc) != own
    requires PcOK(cfg, t, st, op, node, pc)
    ensures PcOK(cfg, t', st', op, node, pc)
  {
    match pc
    case Looking(lk) =>
      if (lk.AskDirect? && lk.cached) || lk.Reload? {
        HasPathStable(cfg, t, t', Join(node.path, lk.name));
      }
    case Listing(rd) =>
      if rd.SelectEntry? || rd.InsertEntry? {
        DoableStable(cfg, t, t', node, rd.todo, rd.done);
      } else if rd.PutEntries? {
        DoableStable(cfg, t, t', node, [], rd.done);
      }
    case Done(reply) => ReplyStable(cfg, t, st, t', st', own, op, node, reply);
    case _ =>
  }

  lemma TableStable(cfg: Config, t: Table, st: Store, st': Store, own: Option<string>)
    requires StoreGrows(cfg, st, st', own) && TableOK(cfg, t, st)
    ensures TableOK(cfg, t, st')
  {
    forall id | id in t
      ensures RowOK(cfg, t, st', id, t[id])
    {
      CachedStable(cfg, t, st, t, st', own, t[id].path, RowEntry(id, t[id]).row);
    }
  }

  // ----- the statements -----

  /** Replacing one row by a later version of it. */
  lemma UpdateRow(cfg: Config, t: Table, st: Store, id: nat, row: Row)
    requires TableOK(cfg, t, st) && id in t && Kept(cfg, t[id], row)
    requires RowOK(cfg, t[id := row], st, id, row)
    ensures TableOK(cfg, t[id := row], st) && Grows(cfg, t, t[id := row])
  {
    var t' := t[id := row];
    forall i | i in t'
      ensures RowOK(cfg, t', st, i, t'[i])
    {
      if i != id {
        CachedStable(cfg, t, st, t', st, None, t[i].path, RowEntry(i, t[i]).row);
      }
    }
  }

  lemma RowStable(cfg: Config, t: Table, t': Table, st: Store, id: nat, row: Row)
    requires Grows(cfg, t, t') && RowOK(cfg, t, st, id, row)
    ensures RowOK(cfg, t', st, id, row)
  {
    CachedStable(cfg, t, st, t', st, None, row.path, RowEntry(id, row).row);
  }

  lemma NewRowOK(cfg: Config, t: Table, st: Store, path: string, typeName: TypeName, id: nat)
    requires Canonical(path) && 0 < id < ROWID_LIMIT
    requires id in t && t[id] == NewRow(path, typeName)
    ensures RowOK(cfg, t, st, id, t[id])
  {
  }

  lemma AddRow(cfg: Config, t: Table, st: Store, id: nat, row: Row)
    requires TableOK(cfg, t, st) && id !in t && !HasPath(t, row.path)
    requires RowOK(cfg, t[id := row], st, id, row)
    ensures TableOK(cfg, t[id := row], st) && Grows(cfg, t, t[id := row])
  {
    var t' := t[id := row];
    assert Grows(cfg, t, t') by {
      forall i | i in t
        ensures i in t' && Kept(cfg, t[i], t'[i])
      {
        assert t'[i] == t[i];
      }
    }
    forall i | i in t'
      ensures RowOK(cfg, t', st, i, t'[i])
    {
      if i != id {
        RowStable(cfg, t, t', st, i, t[i]);
      }
    }
  }

  lemma InsertOK(cfg: Config, t: Table, st: Store, path: string, typeName: TypeName, id: nat)
    requires TableOK(cfg, t, st) && CanInsert(t, path, id) && Canonical(path)
    ensures var t' := InsertRow(t, path, typeName, id);
            TableOK(cfg, t', st) && Grows(cfg, t, t') && id in t' && t'[id] == NewRow(path, typeName)
  {
    NewRowOK(cfg, InsertRow(t, path, typeName, id), st, path, typeName, id);
    AddRow(cfg, t, st, id, NewRow(path, typeName));
  }

  lemma UpdateTypeOK(cfg: Config, t: Table, st: Store, path: string, typeName: TypeName)
    requires TableOK(cfg, t, st) && !Pinned(cfg, path)
    ensures TableOK(cfg, UpdateType(t, path, typeName), st) && Grows(cfg, t, UpdateType(t, path, typeName))
  {
    var t' := UpdateType(t, path, typeName);
    assert Grows(cfg, t, t');
    forall i | i in t'
      ensures RowOK(cfg, t', st, i, t'[i])
    {
      RowStable(cfg, t, t', st, i, t[i]);
      RetypedRowOK(cfg, t', st, i, t[i]);
    }
  }

  lemma RetypedRowOK(cfg: Config, t: Table, st: Store, id: nat, row: Row)
    requires RowOK(cfg, t, st, id, row) && id in t && t[id] == row.(typeName := t[id].typeName)
    ensures RowOK(cfg, t, st, id, t[id])
  {
    assert RowEntry(id, t[id]).row == RowEntry(id, row).row.(typeName := t[id].typeName);
  }

  lemma UpdateInfoOK(cfg: Config, t: Table, st: Store, id: nat, info: FileInfo)
    requires TableOK(cfg, t, st) && id in t
    ensures TableOK(cfg, UpdateInfo(t, id, info), st) && Grows(cfg, t, UpdateInfo(t, id, info))
  {
    assert RowOK(cfg, t, st, id, t[id]);
    var t' := UpdateInfo(t, id, info);
    var c := RowEntry(id, t[id]).row;
    assert RowEntry(id, t'[id]).row == c.(info := Some(info));
    assert Grows(cfg, t, t');
    CachedStable(cfg, t, st, t', st, None, t[id].path, c);
    UpdateRow(cfg, t, st, id, t'[id]);
  }

  lemma UpdateHashOK(cfg: Config, t: Table, st: Store, id: nat, hash: string)
    requires TableOK(cfg, t, st) && id in t && HashOK(cfg, st, Some(hash))
    ensures TableOK(cfg, UpdateHash(t, id, hash), st) && Grows(cfg, t, UpdateHash(t, id, hash))
  {
    assert RowOK(cfg, t, st, id, t[id]);
    var t' := UpdateHash(t, id, hash);
    var c := RowEntry(id, t[id]).row;
    assert RowEntry(id, t'[id]).row == c.(hash := Some(hash));
    assert Grows(cfg, t, t');
    CachedStable(cfg, t, st, t', st, None, t[id].path, c);
    UpdateRow(cfg, t, st, id, t'[id]);
  }

  lemma UpdateTargetOK(cfg: Config, t: Table, st: Store, id: nat, target: string)
    requires TableOK(cfg, t, st) && id in t
    ensures TableOK(cfg, UpdateTarget(t, id, target), st) && Grows(cfg, t, UpdateTarget(t, id, target))
  {
    assert RowOK(cfg, t, st, id, t[id]);
    var t' := UpdateTarget(t, id, target);
    var c := RowEntry(id, t[id]).row;
    assert RowEntry(id, t'[id]).row == c.(target := Some(target));
    assert Grows(cfg, t, t');
    CachedStable(cfg, t, st, t', st, None, t[id].path, c);
    UpdateRow(cfg, t, st, id, t'[id]);
  }

  lemma CollectedOK(t: Table, node: Node, done: seq<Entry>)
    requires Doable(t, node, [], done)
    ensures EntriesOK(t, node.path, Collect(done, map[]))
  {
    CollectKeys(done, map[]);
    var m := Collect(done, map[]);
    forall n | n in m
      ensures ProperName(n) && m[n].valid && m[n].inode in t && t[m[n].inode].path == Join(node.path, n)
    {
      var i :| 0 <= i < |done| && done[i].name == n && m[n] == EntryOfType(done[i].inode, done[i].typeName);
      assert done[i].typeName != NoEntry;
    }
  }

  lemma DoableStorable(cfg: Config, t: Table, st: Store, node: Node, done: seq<Entry>)
    requires TableOK(cfg, t, st) && Doable(t, node, [], done)
    ensures Storable(done) && SeparatorFree(done)
  {
    forall i | 0 <= i < |done|
      ensures done[i].inode < Text.UINT64_LIMIT
    {
      assert done[i].inode in t;
      assert RowOK(cfg, t, st, done[i].inode, t[done[i].inode]);
    }
  }

  /** The listing text that PutDirEntries stores reads back as references to the children's rows. */
  lemma StoredListing(cfg: Config, t: Table, st: Store, node: Node, done: seq<Entry>)
    requires TableOK(cfg, t, st) && Doable(t, node, [], done)
    ensures Parse(Format(done), map[]) == Parsed(Collect(done, map[]))
    ensures EntriesOK(t, node.path, Collect(done, map[]))
  {
    DoableStorable(cfg, t, st, node, done);
    FormatParse(done, map[]);
    CollectedOK(t, node, done);
  }

  lemma UpdateEntriesOK(cfg: Config, t: Table, st: Store, node: Node, done: seq<Entry>)
    requires TableOK(cfg, t, st) && node.inode in t && t[node.inode].path == node.path
    requires Doable(t, node, [], done)
    ensures var t' := UpdateEntries(t, node.inode, Format(done));
            TableOK(cfg, t', st) && Grows(cfg, t, t')
  {
    StoredListing(cfg, t, st, node, done);
    UpdateTextOK(cfg, t, st, node.inode, Format(done), Collect(done, map[]));
  }

  lemma UpdateTextOK(cfg: Config, t: Table, st: Store, id: nat, text: string, m: EntryMap)
    requires TableOK(cfg, t, st) && id in t && Parse(text, map[]) == Parsed(m) && EntriesOK(t, t[id].path, m)
    ensures TableOK(cfg, UpdateEntries(t, id, text), st) && Grows(cfg, t, UpdateEntries(t, id, text))
  {
    assert RowOK(cfg, t, st, id, t[id]);
    var t' := UpdateEntries(t, id, text);
    var c := RowEntry(id, t[id]).row;
    assert RowEntry(id, t'[id]).row == c.(entries := Some(m));
    assert Grows(cfg, t, t');
    CachedStable(cfg, t, st, t', st, None, t[id].path, c);
    assert EntriesOK(t', t[id].path, m);
    UpdateRow(cfg, t, st, id, t'[id]);
  }

  lemma SelectOK(cfg: Config, t: Table, st: Store, path: string)
    requires TableOK(cfg, t, st)
    ensures HasPath(t, path) ==> SelectFull(t, path).Found? && CachedOK(cfg, t, st, path, SelectFull(t, path).row)
                                 && SelectFull(t, path).row.typeName == t[IdOf(t, path)].typeName
    ensures !HasPath(t, path) ==> SelectFull(t, path) == NoRow
  {
    if HasPath(t, path) {
      assert RowOK(cfg, t, st, IdOf(t, path), t[IdOf(t, path)]);
    }
  }
}
