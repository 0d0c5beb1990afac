/** With an immutable remote tree, every action keeps everything in agreement with the tree. */
module TruthSteps {
  import opened Wrappers
  import opened DirEntries
  import opened Metadata
  import opened Content
  import opened Handlers
  import opened Paths
  import opened Structure
  import StructureSteps
  import opened Runs
  import opened Remote

  /** The node's row is the one of its path. */
  predicate Anchored(cfg: Config, t: Table, node: Node) {
    node.inode in t && t[node.inode].path == node.path && node.below == Below(cfg.remoteDir, node.path)
  }

  // ----- the table -----

  lemma InsertTrue(cfg: Config, r: Tree, t: Table, path: string, typeName: TypeName, id: nat)
    requires TableTrue(cfg, r, t) && TypeTrue(r, Below(cfg.remoteDir, path), typeName)
    ensures TableTrue(cfg, r, InsertRow(t, path, typeName, id))
  {
    assert RowTrue(cfg, r, id, NewRow(path, typeName));
  }

  /** An update of the type writes the type that is already there. */
  lemma UpdateTypeTrue(cfg: Config, r: Tree, t: Table, st: Store, path: string, typeName: TypeName)
    requires TableOK(cfg, t, st) && TableTrue(cfg, r, t) && TypeTrue(r, Below(cfg.remoteDir, path), typeName)
    ensures UpdateType(t, path, typeName) == t
  {
    forall id | id in t && t[id].path == path
      ensures t[id].typeName == typeName
    {
      RowOf(cfg, r, t, st, id);
      OneType(r, Below(cfg.remoteDir, path), t[id].typeName, typeName);
    }
  }

  lemma OneType(r: Tree, p: string, t: TypeName, t': TypeName)
    requires TypeTrue(r, p, t) && TypeTrue(r, p, t')
    ensures t == t'
  {
  }

  /** Replacing a row by one that agrees with the tree. */
  lemma UpdateRowTrue(cfg: Config, r: Tree, t: Table, id: nat, row: Row)
    requires TableTrue(cfg, r, t) && RowTrue(cfg, r, id, row)
    ensures TableTrue(cfg, r, t[id := row])
  {
  }

  lemma RowOf(cfg: Config, r: Tree, t: Table, st: Store, id: nat)
    requires TableOK(cfg, t, st) && TableTrue(cfg, r, t) && id in t
    ensures RowEntry(id, t[id]).Found? && CachedTrue(cfg, r, t[id].path, RowEntry(id, t[id]).row)
  {
    assert RowOK(cfg, t, st, id, t[id]);
    assert RowTrue(cfg, r, id, t[id]);
  }

  lemma UpdateInfoTrue(cfg: Config, r: Tree, t: Table, st: Store, id: nat, info: FileInfo)
    requires TableOK(cfg, t, st) && TableTrue(cfg, r, t) && id in t
    requires InfoTrue(r, Below(cfg.remoteDir, t[id].path), info)
    ensures TableTrue(cfg, r, UpdateInfo(t, id, info))
  {
    RowOf(cfg, r, t, st, id);
    var row := UpdateInfo(t, id, info)[id];
    assert RowEntry(id, row).row == RowEntry(id, t[id]).row.(info := Some(info));
    UpdateRowTrue(cfg, r, t, id, row);
  }

  lemma UpdateHashTrue(cfg: Config, r: Tree, t: Table, st: Store, id: nat, hash: string)
    requires TableOK(cfg, t, st) && TableTrue(cfg, r, t) && id in t
    requires KeyTrue(cfg, r, Below(cfg.remoteDir, t[id].path), hash)
    ensures TableTrue(cfg, r, UpdateHash(t, id, hash))
  {
    RowOf(cfg, r, t, st, id);
    var row := UpdateHash(t, id, hash)[id];
    assert RowEntry(id, row).row == RowEntry(id, t[id]).row.(hash := Some(hash));
    UpdateRowTrue(cfg, r, t, id, row);
  }

  lemma UpdateTargetTrue(cfg: Config, r: Tree, t: Table, st: Store, id: nat, target: string)
    requires TableOK(cfg, t, st) && TableTrue(cfg, r, t) && id in t
    requires TargetTrue(r, Below(cfg.remoteDir, t[id].path), target)
    ensures TableTrue(cfg, r, UpdateTarget(t, id, target))
  {
    RowOf(cfg, r, t, st, id);
    var row := UpdateTarget(t, id, target)[id];
    assert RowEntry(id, row).row == RowEntry(id, t[id]).row.(target := Some(target));
    UpdateRowTrue(cfg, r, t, id, row);
  }

  lemma UpdateEntriesTrue(cfg: Config, r: Tree, t: Table, st: Store, id: nat, text: string, m: EntryMap)
    requires TableOK(cfg, t, st) && TableTrue(cfg, r, t) && id in t
    requires Parse(text, map[]) == Parsed(m) && EntriesTrue(r, Below(cfg.remoteDir, t[id].path), m)
    ensures TableTrue(cfg, r, UpdateEntries(t, id, text))
  {
    RowOf(cfg, r, t, st, id);
    var row := UpdateEntries(t, id, text)[id];
    assert RowEntry(id, row).row == RowEntry(id, t[id]).row.(entries := Some(m));
    UpdateRowTrue(cfg, r, t, id, row);
  }

  lemma SelectTrue(cfg: Config, r: Tree, t: Table, st: Store, path: string)
    requires TableOK(cfg, t, st) && TableTrue(cfg, r, t)
    ensures HasPath(t, path) ==> SelectFull(t, path).Found? && CachedTrue(cfg, r, path, SelectFull(t, path).row)
    ensures !HasPath(t, path) ==> SelectFull(t, path) == NoRow
  {
    if HasPath(t, path) {
      RowOf(cfg, r, t, st, IdOf(t, path));
    }
  }

  // ----- Lookup -----

  lemma NodeForTrue(cfg: Config, r: Tree, op: Op, node: Node, name: string, row: CachedRow)
    requires Slot(cfg, node, name) && Seeks(op, name) && CachedTrue(cfg, r, Join(node.path, name), row)
    ensures ReplyTrue(cfg, r, op, node, NodeFor(cfg, node.path, node.below, row, name))
  {
  }

  lemma ResolveTrue(cfg: Config, r: Tree, op: Op, l: Local, l1: Local, name: string, row: CachedRow)
    requires LocalTrue(cfg, r, op, l) && l1 == l.(acct := l1.acct)
    requires Slot(cfg, l.node, name) && Seeks(op, name) && CachedTrue(cfg, r, Join(l.node.path, name), row)
    ensures LocalTrue(cfg, r, op, Resolve(cfg, l1, name, row))
  {
    var l' := Resolve(cfg, l1, name, row);
    assert CachedOf(l'.node) == CachedOf(l.node);
    assert Slot(cfg, l'.node, name);
    NodeForTrue(cfg, r, op, l'.node, name, row);
  }

  lemma QueryTrue(cfg: Config, r: Tree, op: Op, l: Local, a: Answer, name: string)
    requires WellFormed(l.pc) && LocalTrue(cfg, r, op, l) && l.pc == Looking(Query(name))
    requires TableOK(cfg, l.table, l.store) && Slot(cfg, l.node, name) && Seeks(op, name)
    requires Truthful(r, l, a)
    ensures LocalTrue(cfg, r, op, Step(cfg, l, a))
  {
    var path := Join(l.node.path, name);
    SelectTrue(cfg, r, l.table, l.store, path);
    if !a.fault && HasPath(l.table, path) && !l.node.direct {
      ResolveTrue(cfg, r, op, l, CountHit(l), name, SelectFull(l.table, path).row);
    }
  }

  /** A truthful Lstat gives the type of the entry. */
  lemma StatType(cfg: Config, r: Tree, node: Node, name: string, stat: Stat)
    requires WfTree(cfg, r) && Slot(cfg, node, name) && StatTrue(r, Join(node.below, name), stat)
    ensures var p := Below(cfg.remoteDir, Join(node.path, name));
            (stat.StatOk? ==> TypeTrue(r, p, SqlTypeName(stat.info.mode.modeType))) &&
            (stat.StatNoEnt? ==> TypeTrue(r, p, NoEntry))
  {
  }

  /** The action leaves everything but the program counter and the statistics alone. */
  lemma OnlyMovesTrue(cfg: Config, r: Tree, op: Op, l: Local, l': Local)
    requires LocalTrue(cfg, r, op, l) && l'.table == l.table && l'.store == l.store && l'.node == l.node
    requires PcTrue(cfg, r, l.store, op, l.node, l'.pc)
    ensures LocalTrue(cfg, r, op, l')
  {
  }

  lemma AskDirectTrue(cfg: Config, r: Tree, op: Op, l: Local, a: Answer, name: string, cached: bool)
    requires WellFormed(l.pc) && LocalTrue(cfg, r, op, l) && l.pc == Looking(AskDirect(name, cached))
    requires WfTree(cfg, r) && Slot(cfg, l.node, name)
    requires Truthful(r, l, a)
    ensures LocalTrue(cfg, r, op, Step(cfg, l, a))
  {
    AskDirectIs(cfg, l, a, name, cached);
    StatType(cfg, r, l.node, name, a.stat);
    OnlyMovesTrue(cfg, r, op, l, LookupDirect(l, a, name, cached));
  }

  lemma AskDirectIs(cfg: Config, l: Local, a: Answer, name: string, cached: bool)
    requires l.pc == Looking(AskDirect(name, cached))
    ensures Step(cfg, l, a) == LookupDirect(l, a, name, cached)
  {
  }

  lemma AskMissTrue(cfg: Config, r: Tree, op: Op, l: Local, a: Answer, name: string)
    requires WellFormed(l.pc) && LocalTrue(cfg, r, op, l) && l.pc == Looking(AskMiss(name))
    requires WfTree(cfg, r) && Slot(cfg, l.node, name)
    requires Truthful(r, l, a)
    ensures LocalTrue(cfg, r, op, Step(cfg, l, a))
  {
    AskMissIs(cfg, l, a, name);
    StatType(cfg, r, l.node, name, a.stat);
    OnlyMovesTrue(cfg, r, op, l, LookupMiss(l, a, name));
  }

  lemma AskMissIs(cfg: Config, l: Local, a: Answer, name: string)
    requires l.pc == Looking(AskMiss(name))
    ensures Step(cfg, l, a) == LookupMiss(l, a, name)
  {
  }

  lemma AfterPutTrue(cfg: Config, r: Tree, op: Op, l: Local, name: string, typeName: TypeName)
    requires TableTrue(cfg, r, l.table) && StoreTrue(cfg, r, l.store) && HolderTrue(cfg, r, op, l.node)
    requires Slot(cfg, l.node, name) && Seeks(op, name)
    requires TypeTrue(r, Below(cfg.remoteDir, Join(l.node.path, name)), typeName)
    ensures LocalTrue(cfg, r, op, AfterPut(l, name, typeName))
  {
  }

  lemma RetypedTrue(cfg: Config, r: Tree, op: Op, l: Local, a: Answer, name: string, typeName: TypeName)
    requires LocalTrue(cfg, r, op, l) && l.pc == Looking(Update(name, typeName))
    requires Slot(cfg, l.node, name) && Seeks(op, name)
    requires UpdateType(l.table, Join(l.node.path, name), typeName) == l.table
    ensures LocalTrue(cfg, r, op, LookupUpdate(l, a, name, typeName))
  {
    AfterPutTrue(cfg, r, op, l, name, typeName);
  }

  lemma RetypeTrue(cfg: Config, r: Tree, op: Op, l: Local, a: Answer, name: string, typeName: TypeName)
    requires WellFormed(l.pc) && LocalTrue(cfg, r, op, l) && l.pc == Looking(Update(name, typeName))
    requires TableOK(cfg, l.table, l.store) && Slot(cfg, l.node, name) && Seeks(op, name)
    requires Truthful(r, l, a)
    ensures LocalTrue(cfg, r, op, Step(cfg, l, a))
  {
    UpdateTypeTrue(cfg, r, l.table, l.store, Join(l.node.path, name), typeName);
    RetypedTrue(cfg, r, op, l, a, name, typeName);
  }

  lemma AddTrue(cfg: Config, r: Tree, op: Op, l: Local, a: Answer, name: string, typeName: TypeName)
    requires WellFormed(l.pc) && LocalTrue(cfg, r, op, l) && l.pc == Looking(Insert(name, typeName))
    requires Slot(cfg, l.node, name) && Seeks(op, name)
    requires Truthful(r, l, a)
    ensures LocalTrue(cfg, r, op, Step(cfg, l, a))
  {
    var path := Join(l.node.path, name);
    if !a.fault && CanInsert(l.table, path, a.rowId) {
      InsertTrue(cfg, r, l.table, path, typeName, a.rowId);
      AfterPutTrue(cfg, r, op, l.(table := InsertRow(l.table, path, typeName, a.rowId)), name, typeName);
    }
  }

  lemma ReloadTrue(cfg: Config, r: Tree, op: Op, l: Local, a: Answer, name: string)
    requires WellFormed(l.pc) && LocalTrue(cfg, r, op, l) && l.pc == Looking(Reload(name))
    requires TableOK(cfg, l.table, l.store) && Slot(cfg, l.node, name) && Seeks(op, name)
    requires HasPath(l.table, Join(l.node.path, name))
    requires Truthful(r, l, a)
    ensures LocalTrue(cfg, r, op, Step(cfg, l, a))
  {
    SelectTrue(cfg, r, l.table, l.store, Join(l.node.path, name));
    if !a.fault {
      ResolveTrue(cfg, r, op, l, l, name, SelectFull(l.table, Join(l.node.path, name)).row);
    }
  }

  lemma RootTrue(cfg: Config, r: Tree, op: Op, l: Local, a: Answer)
    requires WellFormed(l.pc) && LocalTrue(cfg, r, op, l) && l.pc == Looking(EnsureRow("/", Directory))
    requires Ideal(cfg, r) && TableOK(cfg, l.table, l.store) && l.node.path == "/"
    requires Truthful(r, l, a)
    ensures LocalTrue(cfg, r, op, Step(cfg, l, a))
  {
    RootSlot(cfg);
    SelectTrue(cfg, r, l.table, l.store, Join(l.node.path, "/"));
  }

  lemma LookingTrue(cfg: Config, r: Tree, op: Op, l: Local, a: Answer)
    requires Ideal(cfg, r) && LocalOK(cfg, op, l) && LocalTrue(cfg, r, op, l) && l.pc.Looking? && Truthful(r, l, a)
    ensures LocalTrue(cfg, r, op, Step(cfg, l, a))
  {
    match l.pc.lk
    case Query(name) => QueryTrue(cfg, r, op, l, a, name);
    case AskDirect(name, cached) => AskDirectTrue(cfg, r, op, l, a, name, cached);
    case AskMiss(name) => AskMissTrue(cfg, r, op, l, a, name);
    case Update(name, typeName) => RetypeTrue(cfg, r, op, l, a, name, typeName);
    case Insert(name, typeName) => AddTrue(cfg, r, op, l, a, name, typeName);
    case Reload(name) => ReloadTrue(cfg, r, op, l, a, name);
    case EnsureRow(_, _) => RootTrue(cfg, r, op, l, a);
  }

  // ----- Attr and Readlink -----

  lemma StatFieldsTrue(cfg: Config, r: Tree, op: Op, l: Local, a: Answer)
    requires TableOK(cfg, l.table, l.store) && Anchored(cfg, l.table, l.node) && op.Attr?
    requires LocalTrue(cfg, r, op, l) && l.pc.Stating? && Truthful(r, l, a)
    ensures LocalTrue(cfg, r, op, AttrStep(l, a, l.pc.at))
  {
    if l.pc.at.PutInfo? && !a.fault {
      UpdateInfoTrue(cfg, r, l.table, l.store, l.node.inode, l.pc.at.info);
    }
  }

  lemma StatingTrue(cfg: Config, r: Tree, op: Op, l: Local, a: Answer)
    requires Ideal(cfg, r) && LocalOK(cfg, op, l) && LocalTrue(cfg, r, op, l) && l.pc.Stating? && Truthful(r, l, a)
    ensures LocalTrue(cfg, r, op, Step(cfg, l, a))
  {
    StructureSteps.StatingIs(cfg, l, a);
    StatFieldsTrue(cfg, r, op, l, a);
  }

  lemma LinkFieldsTrue(cfg: Config, r: Tree, op: Op, l: Local, a: Answer)
    requires TableOK(cfg, l.table, l.store) && Anchored(cfg, l.table, l.node) && op.Readlink? && Ideal(cfg, r)
    requires LocalTrue(cfg, r, op, l) && l.pc.Linking? && Truthful(r, l, a)
    ensures LocalTrue(cfg, r, op, ReadlinkStep(cfg, l, a, l.pc.rl))
  {
    if l.pc.rl.PutTarget? && !a.fault {
      UpdateTargetTrue(cfg, r, l.table, l.store, l.node.inode, l.pc.rl.target);
    }
  }

  lemma LinkingTrue(cfg: Config, r: Tree, op: Op, l: Local, a: Answer)
    requires Ideal(cfg, r) && LocalOK(cfg, op, l) && LocalTrue(cfg, r, op, l) && l.pc.Linking? && Truthful(r, l, a)
    ensures LocalTrue(cfg, r, op, Step(cfg, l, a))
  {
    StructureSteps.LinkingIs(cfg, l, a);
    LinkFieldsTrue(cfg, r, op, l, a);
  }

  // ----- Open -----

  lemma FileTrue(cfg: Config, r: Tree, st: Store, st': Store, temp: string)
    requires WfConfig(cfg) && StoreTrue(cfg, r, st) && TopLevel(cfg.cacheRoot, temp)
    requires forall f :: f != temp && f in st'.files ==> f in st.files && st'.files[f] == st.files[f]
    ensures StoreTrue(cfg, r, st')
  {
    forall k | HasObject(cfg.cacheRoot, st', k)
      ensures st'.files[PathForKey(cfg.cacheRoot, k)] in Contents(r)
    {
      ObjectsApart(cfg.cacheRoot, k, temp);
      assert HasObject(cfg.cacheRoot, st, k);
    }
  }

  lemma RenameTrue(cfg: Config, r: Tree, st: Store, p: string, temp: string, key: string)
    requires WfConfig(cfg) && StoreTrue(cfg, r, st) && TopLevel(cfg.cacheRoot, temp) && IsKey(key)
    requires temp in st.files && ContentTrue(r, p, st.files[temp])
    ensures StoreTrue(cfg, r, st.Rename(temp, PathForKey(cfg.cacheRoot, key)))
  {
    var st' := st.Rename(temp, PathForKey(cfg.cacheRoot, key));
    ObjectsApart(cfg.cacheRoot, key, temp);
    assert r[p].content in Contents(r);
    forall k | HasObject(cfg.cacheRoot, st', k)
      ensures st'.files[PathForKey(cfg.cacheRoot, k)] in Contents(r)
    {
      if PathForKey(cfg.cacheRoot, k) != PathForKey(cfg.cacheRoot, key) {
        assert HasObject(cfg.cacheRoot, st, k);
      }
    }
  }

  lemma CopyTrue(cfg: Config, r: Tree, st: Store, node: Node, turns: seq<Turn>, temp: string)
    requires Copy(turns, [], [], 0).err == None ==> ContentTrue(r, node.below, Delivered(turns))
    ensures var c := Copy(turns, [], [], 0);
            c.err == None ==> OpenTrue(cfg, r, st.Write(temp, c.first), node, CheckKey(temp, KeyFor(cfg, c.second)))
  {
    CopyIsTee(turns, [], [], 0);
    assert [] + Delivered(turns) == Delivered(turns);
  }

  lemma FetchTrue(cfg: Config, r: Tree, op: Op, l: Local, a: Answer, temp: string)
    requires WellFormed(l.pc) && LocalTrue(cfg, r, op, l) && l.pc == Opening(Fetch(temp))
    requires WfConfig(cfg) && TopLevel(cfg.cacheRoot, temp)
    requires Truthful(r, l, a)
    ensures LocalTrue(cfg, r, op, Step(cfg, l, a))
  {
    FileTrue(cfg, r, l.store, OpenFetch(cfg, l, a, temp).store, temp);
    CopyTrue(cfg, r, l.store, l.node, a.turns, temp);
  }

  /** An object under the right key holds the file's bytes, as no two files collide. */
  lemma ObjectTrue(cfg: Config, r: Tree, st: Store, p: string, key: string)
    requires Ideal(cfg, r) && StoreOK(cfg, st) && StoreTrue(cfg, r, st)
    requires KeyTrue(cfg, r, p, key) && PathForKey(cfg.cacheRoot, key) in st.files
    ensures ContentTrue(r, p, st.files[PathForKey(cfg.cacheRoot, key)])
  {
    var data := st.files[PathForKey(cfg.cacheRoot, key)];
    assert HasObject(cfg.cacheRoot, st, key);
    assert data in Contents(r) && r[p].content in Contents(r);
    assert KeyFor(cfg, data) == KeyFor(cfg, r[p].content);
  }

  lemma SourceTrue(cfg: Config, r: Tree, op: Op, l: Local, a: Answer)
    requires WellFormed(l.pc) && LocalTrue(cfg, r, op, l) && l.pc == Opening(OpenRemote)
    requires Truthful(r, l, a)
    ensures LocalTrue(cfg, r, op, Step(cfg, l, a))
  {
  }

  lemma TempTrue(cfg: Config, r: Tree, op: Op, l: Local, a: Answer)
    requires WellFormed(l.pc) && LocalTrue(cfg, r, op, l) && l.pc == Opening(CreateTemp)
    requires WfConfig(cfg)
    requires Truthful(r, l, a)
    ensures LocalTrue(cfg, r, op, Step(cfg, l, a))
  {
    var temp := TempPath(cfg.cacheRoot, a.suffix);
    if '/' !in a.suffix {
      TempTopLevel(cfg.cacheRoot, a.suffix);
      FileTrue(cfg, r, l.store, l.store.CreateTemp(temp), temp);
    }
  }

  lemma CheckTrue(cfg: Config, r: Tree, op: Op, l: Local, a: Answer, temp: string, key: string)
    requires WellFormed(l.pc) && LocalTrue(cfg, r, op, l) && l.pc == Opening(CheckKey(temp, key))
    requires Truthful(r, l, a)
    ensures LocalTrue(cfg, r, op, Step(cfg, l, a))
  {
  }

  lemma BucketTrue(cfg: Config, r: Tree, op: Op, l: Local, a: Answer, temp: string, key: string)
    requires WellFormed(l.pc) && LocalTrue(cfg, r, op, l) && l.pc == Opening(MakeBucket(temp, key))
    requires Truthful(r, l, a)
    ensures LocalTrue(cfg, r, op, Step(cfg, l, a))
  {
  }

  lemma MoveTrue(cfg: Config, r: Tree, op: Op, l: Local, a: Answer, temp: string, key: string)
    requires WellFormed(l.pc) && LocalTrue(cfg, r, op, l) && l.pc == Opening(RenameTemp(temp, key))
    requires WfConfig(cfg) && TopLevel(cfg.cacheRoot, temp)
    requires Truthful(r, l, a)
    ensures LocalTrue(cfg, r, op, Step(cfg, l, a))
  {
    RenameTrue(cfg, r, l.store, l.node.below, temp, key);
  }

  lemma RemoveTrue(cfg: Config, r: Tree, op: Op, l: Local, a: Answer, temp: string, put: Option<string>)
    requires WellFormed(l.pc) && LocalTrue(cfg, r, op, l) && l.pc == Opening(RemoveTemp(temp, put))
    requires WfConfig(cfg) && TopLevel(cfg.cacheRoot, temp)
    requires Truthful(r, l, a)
    ensures LocalTrue(cfg, r, op, Step(cfg, l, a))
  {
    FileTrue(cfg, r, l.store, l.store.Remove(temp), temp);
  }

  /** The table and the node after the key has been recorded. */
  lemma HashedTrue(cfg: Config, r: Tree, op: Op, t: Table, st: Store, node: Node, key: string)
    requires Ideal(cfg, r) && TableOK(cfg, t, st) && TableTrue(cfg, r, t) && Anchored(cfg, t, node)
    requires HolderTrue(cfg, r, op, node) && KeyTrue(cfg, r, node.below, key)
    ensures TableTrue(cfg, r, UpdateHash(t, node.inode, cfg.affinity(key)))
    ensures HolderTrue(cfg, r, op, node.(hash := Some(key)))
  {
    assert cfg.affinity(key) == key;
    UpdateHashTrue(cfg, r, t, st, node.inode, key);
  }

  lemma PutHashTrue(cfg: Config, r: Tree, op: Op, l: Local, a: Answer, key: string)
    requires WellFormed(l.pc) && LocalTrue(cfg, r, op, l) && l.pc == Opening(PutHash(key))
    requires Ideal(cfg, r) && TableOK(cfg, l.table, l.store) && Anchored(cfg, l.table, l.node)
    requires Truthful(r, l, a)
    ensures LocalTrue(cfg, r, op, Step(cfg, l, a))
  {
    if !a.fault {
      HashedTrue(cfg, r, op, l.table, l.store, l.node, key);
    }
  }

  lemma FindTrue(cfg: Config, r: Tree, op: Op, l: Local, a: Answer)
    requires WellFormed(l.pc) && LocalTrue(cfg, r, op, l) && l.pc == Opening(FindObject)
    requires Truthful(r, l, a)
    ensures LocalTrue(cfg, r, op, Step(cfg, l, a))
  {
  }

  lemma ReadTrue(cfg: Config, r: Tree, op: Op, l: Local, a: Answer)
    requires WellFormed(l.pc) && LocalTrue(cfg, r, op, l) && l.pc == Opening(OpenObject)
    requires Ideal(cfg, r) && StoreOK(cfg, l.store) && !op.Mount? && l.node.below == Below(cfg.remoteDir, l.node.path)
    requires Truthful(r, l, a)
    ensures LocalTrue(cfg, r, op, Step(cfg, l, a))
  {
    if l.node.hash.Some? && |l.node.hash.value| >= 2 && PathForKey(cfg.cacheRoot, l.node.hash.value) in l.store.files {
      ObjectTrue(cfg, r, l.store, l.node.below, l.node.hash.value);
    }
    StructureSteps.ObjectIs(cfg, l, a);
    OnlyMovesTrue(cfg, r, op, l, OpenRead(cfg, l, a));
  }

  lemma PuttingTrue(cfg: Config, r: Tree, op: Op, l: Local, a: Answer)
    requires Ideal(cfg, r) && LocalOK(cfg, op, l) && LocalTrue(cfg, r, op, l) && l.pc.Opening? && Truthful(r, l, a)
    requires l.pc.op.CheckKey? || l.pc.op.MakeBucket?
    ensures LocalTrue(cfg, r, op, Step(cfg, l, a))
  {
    if l.pc.op.CheckKey? {
      CheckTrue(cfg, r, op, l, a, l.pc.op.temp, l.pc.op.key);
    } else {
      BucketTrue(cfg, r, op, l, a, l.pc.op.temp, l.pc.op.key);
    }
  }

  lemma RenamingTrue(cfg: Config, r: Tree, op: Op, l: Local, a: Answer)
    requires Ideal(cfg, r) && LocalOK(cfg, op, l) && LocalTrue(cfg, r, op, l) && l.pc.Opening? && Truthful(r, l, a)
    requires l.pc.op.RenameTemp?
    ensures LocalTrue(cfg, r, op, Step(cfg, l, a))
  {
    MoveTrue(cfg, r, op, l, a, l.pc.op.temp, l.pc.op.key);
  }

  lemma RemovingTrue(cfg: Config, r: Tree, op: Op, l: Local, a: Answer)
    requires Ideal(cfg, r) && LocalOK(cfg, op, l) && LocalTrue(cfg, r, op, l) && l.pc.Opening? && Truthful(r, l, a)
    requires l.pc.op.RemoveTemp?
    ensures LocalTrue(cfg, r, op, Step(cfg, l, a))
  {
    RemoveTrue(cfg, r, op, l, a, l.pc.op.temp, l.pc.op.put);
  }

  lemma RecordingTrue(cfg: Config, r: Tree, op: Op, l: Local, a: Answer)
    requires Ideal(cfg, r) && LocalOK(cfg, op, l) && LocalTrue(cfg, r, op, l) && l.pc.Opening? && Truthful(r, l, a)
    requires l.pc.op.PutHash?
    ensures LocalTrue(cfg, r, op, Step(cfg, l, a))
  {
    PutHashTrue(cfg, r, op, l, a, l.pc.op.key);
  }

  lemma FetchingTrue(cfg: Config, r: Tree, op: Op, l: Local, a: Answer)
    requires Ideal(cfg, r) && LocalOK(cfg, op, l) && LocalTrue(cfg, r, op, l) && l.pc.Opening? && Truthful(r, l, a)
    requires l.pc.op.OpenRemote? || l.pc.op.CreateTemp? || l.pc.op.Fetch?
    ensures LocalTrue(cfg, r, op, Step(cfg, l, a))
  {
    match l.pc.op
    case OpenRemote => SourceTrue(cfg, r, op, l, a);
    case CreateTemp => TempTrue(cfg, r, op, l, a);
    case Fetch(temp) => FetchTrue(cfg, r, op, l, a, temp);
  }

  lemma ServingTrue(cfg: Config, r: Tree, op: Op, l: Local, a: Answer)
    requires Ideal(cfg, r) && LocalOK(cfg, op, l) && LocalTrue(cfg, r, op, l) && l.pc.Opening? && Truthful(r, l, a)
    requires l.pc.op.FindObject? || l.pc.op.OpenObject?
    ensures LocalTrue(cfg, r, op, Step(cfg, l, a))
  {
    if l.pc.op.FindObject? {
      FindTrue(cfg, r, op, l, a);
    } else {
      ReadTrue(cfg, r, op, l, a);
    }
  }

  lemma OpeningTrue(cfg: Config, r: Tree, op: Op, l: Local, a: Answer)
    requires Ideal(cfg, r) && LocalOK(cfg, op, l) && LocalTrue(cfg, r, op, l) && l.pc.Opening? && Truthful(r, l, a)
    ensures LocalTrue(cfg, r, op, Step(cfg, l, a))
  {
    var o := l.pc.op;
    if o.OpenRemote? || o.CreateTemp? || o.Fetch? {
      FetchingTrue(cfg, r, op, l, a);
    } else if o.CheckKey? || o.MakeBucket? {
      PuttingTrue(cfg, r, op, l, a);
    } else if o.RenameTemp? {
      RenamingTrue(cfg, r, op, l, a);
    } else if o.RemoveTemp? {
      RemovingTrue(cfg, r, op, l, a);
    } else if o.PutHash? {
      RecordingTrue(cfg, r, op, l, a);
    } else {
      ServingTrue(cfg, r, op, l, a);
    }
  }

  // ----- ReadDirAll -----

  lemma DirentsOfTrue(r: Tree, p: string, m: EntryMap)
    requires EntriesTrue(r, p, m)
    ensures DirentsTrue(r, p, Dirents(m))
  {
    forall n | ProperName(n) && Join(p, n) in r
      ensures exists d :: d in Dirents(m) && d.name == n
    {
      assert Dirent(m[n].inode, n, m[n].modeType) in Dirents(m);
    }
  }

  lemma OneMoreTrue(r: Tree, p: string, todo: seq<Listed>, done: seq<Entry>, inode: nat)
    requires todo != [] && ListTrue(r, p, todo, done)
    ensures ListTrue(r, p, todo[1..], done + [Entry(todo[0].name, inode, SqlTypeName(todo[0].modeType))])
  {
    var done' := done + [Entry(todo[0].name, inode, SqlTypeName(todo[0].modeType))];
    forall n | ProperName(n) && Join(p, n) in r
      ensures (exists i :: 0 <= i < |todo[1..]| && todo[1..][i].name == n) ||
              (exists i :: 0 <= i < |done'| && done'[i].name == n)
    {
      if i :| 0 <= i < |done| && done[i].name == n {
        assert done'[i].name == n;
      } else {
        var i :| 0 <= i < |todo| && todo[i].name == n;
        if i == 0 {
          assert done'[|done|].name == n;
        } else {
          assert todo[1..][i - 1].name == n;
        }
      }
    }
  }

  lemma EntryOfKind(inode: nat, m: ModeType)
    ensures EntryOfType(inode, SqlTypeName(m)) == OneDirEntry(true, inode, m)
  {
  }

  lemma CollectedTrue(r: Tree, p: string, done: seq<Entry>, n: string)
    requires ListTrue(r, p, [], done) && n in Collect(done, map[])
    ensures var e := Collect(done, map[])[n];
            ProperName(n) && Join(p, n) in r && e.valid && e.modeType == KindOf(r[Join(p, n)])
  {
    CollectKeys(done, map[]);
    var i :| 0 <= i < |done| && done[i].name == n &&
             Collect(done, map[])[n] == EntryOfType(done[i].inode, done[i].typeName);
    EntryOfKind(done[i].inode, KindOf(r[Join(p, n)]));
  }

  lemma CollectTrue(r: Tree, p: string, done: seq<Entry>)
    requires ListTrue(r, p, [], done)
    ensures EntriesTrue(r, p, Collect(done, map[]))
  {
    forall n | n in Collect(done, map[])
      ensures var e := Collect(done, map[])[n];
              ProperName(n) && Join(p, n) in r && e.valid && e.modeType == KindOf(r[Join(p, n)])
    {
      CollectedTrue(r, p, done, n);
    }
    forall n | ProperName(n) && Join(p, n) in r
      ensures n in Collect(done, map[])
    {
      CollectKeys(done, map[]);
    }
  }

  lemma OpenDirTrue(cfg: Config, r: Tree, op: Op, l: Local, a: Answer)
    requires WellFormed(l.pc) && LocalTrue(cfg, r, op, l) && l.pc == Listing(OpenDir)
    requires Truthful(r, l, a)
    ensures LocalTrue(cfg, r, op, Step(cfg, l, a))
  {
  }

  lemma ReadEntriesTrue(cfg: Config, r: Tree, op: Op, l: Local, a: Answer)
    requires WellFormed(l.pc) && LocalTrue(cfg, r, op, l) && l.pc == Listing(ReadEntries)
    requires Truthful(r, l, a)
    ensures LocalTrue(cfg, r, op, Step(cfg, l, a))
  {
  }

  lemma SelectEntryTrue(cfg: Config, r: Tree, op: Op, l: Local, a: Answer, todo: seq<Listed>, done: seq<Entry>)
    requires WellFormed(l.pc) && LocalTrue(cfg, r, op, l) && l.pc == Listing(SelectEntry(todo, done))
    requires Truthful(r, l, a)
    ensures LocalTrue(cfg, r, op, Step(cfg, l, a))
  {
    var path := Join(l.node.path, todo[0].name);
    if HasPath(l.table, path) {
      OneMoreTrue(r, l.node.below, todo, done, IdOf(l.table, path));
    }
  }

  lemma InsertEntryTrue(cfg: Config, r: Tree, op: Op, l: Local, a: Answer, todo: seq<Listed>, done: seq<Entry>)
    requires WellFormed(l.pc) && LocalTrue(cfg, r, op, l) && l.pc == Listing(InsertEntry(todo, done))
    requires WfConfig(cfg) && Placed(cfg, l.node)
    requires Truthful(r, l, a)
    ensures LocalTrue(cfg, r, op, Step(cfg, l, a))
  {
    var path := Join(l.node.path, todo[0].name);
    ChildSlot(cfg, l.node, todo[0].name);
    if !a.fault && CanInsert(l.table, path, a.rowId) {
      InsertTrue(cfg, r, l.table, path, SqlTypeName(todo[0].modeType), a.rowId);
      OneMoreTrue(r, l.node.below, todo, done, a.rowId);
    }
  }

  lemma PutEntriesTrue(cfg: Config, r: Tree, op: Op, l: Local, a: Answer, done: seq<Entry>)
    requires WellFormed(l.pc) && LocalTrue(cfg, r, op, l) && l.pc == Listing(PutEntries(done))
    requires TableOK(cfg, l.table, l.store) && Anchored(cfg, l.table, l.node) && Doable(l.table, l.node, [], done)
    requires Truthful(r, l, a)
    ensures LocalTrue(cfg, r, op, Step(cfg, l, a))
  {
    PutEntriesIs(cfg, l, a, done);
    StoredListing(cfg, l.table, l.store, l.node, done);
    CollectTrue(r, l.node.below, done);
    if !a.fault {
      UpdateEntriesTrue(cfg, r, l.table, l.store, l.node.inode, Format(done), Collect(done, map[]));
    }
  }

  lemma PutEntriesIs(cfg: Config, l: Local, a: Answer, done: seq<Entry>)
    requires l.pc == Listing(PutEntries(done))
    ensures Step(cfg, l, a) == ReaddirPut(l, a, done)
  {
  }

  lemma SelectEntriesTrue(cfg: Config, r: Tree, op: Op, l: Local, a: Answer)
    requires WellFormed(l.pc) && LocalTrue(cfg, r, op, l) && l.pc == Listing(SelectEntries)
    requires TableOK(cfg, l.table, l.store) && Anchored(cfg, l.table, l.node) && l.table[l.node.inode].dirEntries.Some?
    requires Truthful(r, l, a)
    ensures LocalTrue(cfg, r, op, Step(cfg, l, a))
  {
    RowOf(cfg, r, l.table, l.store, l.node.inode);
    if !a.fault {
      DirentsOfTrue(r, l.node.below, RowEntry(l.node.inode, l.table[l.node.inode]).row.entries.value);
    }
  }

  lemma ListingTrueStep(cfg: Config, r: Tree, op: Op, l: Local, a: Answer)
    requires Ideal(cfg, r) && LocalOK(cfg, op, l) && LocalTrue(cfg, r, op, l) && l.pc.Listing? && Truthful(r, l, a)
    ensures LocalTrue(cfg, r, op, Step(cfg, l, a))
  {
    match l.pc.rd
    case OpenDir => OpenDirTrue(cfg, r, op, l, a);
    case ReadEntries => ReadEntriesTrue(cfg, r, op, l, a);
    case SelectEntry(todo, done) => SelectEntryTrue(cfg, r, op, l, a, todo, done);
    case InsertEntry(todo, done) => InsertEntryTrue(cfg, r, op, l, a, todo, done);
    case PutEntries(done) => PutEntriesTrue(cfg, r, op, l, a, done);
    case SelectEntries => SelectEntriesTrue(cfg, r, op, l, a);
  }

  /** Every action of every handler keeps the agreement with the tree. */
  lemma StepTrue(cfg: Config, r: Tree, op: Op, l: Local, a: Answer)
    requires Ideal(cfg, r) && LocalOK(cfg, op, l) && LocalTrue(cfg, r, op, l) && Truthful(r, l, a)
    ensures LocalTrue(cfg, r, op, Step(cfg, l, a))
  {
    match l.pc
    case Looking(_) => LookingTrue(cfg, r, op, l, a);
    case Stating(_) => StatingTrue(cfg, r, op, l, a);
    case Linking(_) => LinkingTrue(cfg, r, op, l, a);
    case Opening(_) => OpeningTrue(cfg, r, op, l, a);
    case Listing(_) => ListingTrueStep(cfg, r, op, l, a);
    case Done(_) =>
  }
}
