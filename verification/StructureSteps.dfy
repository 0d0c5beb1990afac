/** Every action of every handler keeps the invariants of Structure. */
module StructureSteps {
  import opened Wrappers
  import opened DirEntries
  import opened Metadata
  import opened Content
  import opened Handlers
  import opened Paths
  import opened Structure

  /** The handler goes on to use its temporary file, drops it, or takes one nobody ever had. */
  predicate TempFresh(l: Local, l': Local) {
    TempOf(l'.pc) == TempOf(l.pc) || TempOf(l'.pc) == None || TempOf(l'.pc).value !in l.store.used
  }

  /** One action: the invariants hold again and everything remembered elsewhere stays valid. */
  ghost predicate Moves(cfg: Config, op: Op, l: Local, l': Local) {
    LocalOK(cfg, op, l') && Grows(cfg, l.table, l'.table) &&
    StoreGrows(cfg, l.store, l'.store, TempOf(l.pc)) && TempFresh(l, l')
  }

  /** The action only moves the program counter, to a place that is fine. */
  ghost predicate Still(cfg: Config, op: Op, l: Local, l': Local) {
    l'.table == l.table && l'.store == l.store && l'.node == l.node &&
    WellFormed(l'.pc) && PcOK(cfg, l.table, l.store, op, l.node, l'.pc) && TempFresh(l, l')
  }

  lemma Quiet(cfg: Config, op: Op, l: Local, l': Local)
    requires LocalOK(cfg, op, l) && Still(cfg, op, l, l')
    ensures Moves(cfg, op, l, l')
  {
  }

  /** An action that changes the table or the node, and not the store. */
  lemma TableMove(cfg: Config, op: Op, l: Local, l': Local)
    requires LocalOK(cfg, op, l) && TempFresh(l, l') && WellFormed(l'.pc)
    requires l'.store == l.store && TableOK(cfg, l'.table, l.store) && Grows(cfg, l.table, l'.table)
    requires HolderOK(cfg, l'.table, l.store, op, l'.node)
    requires PcOK(cfg, l'.table, l.store, op, l'.node, l'.pc)
    ensures Moves(cfg, op, l, l')
  {
  }

  /** An action that changes the store only. */
  lemma StoreMove(cfg: Config, op: Op, l: Local, l': Local)
    requires LocalOK(cfg, op, l) && TempFresh(l, l') && WellFormed(l'.pc)
    requires l'.table == l.table && l'.node == l.node
    requires StoreOK(cfg, l'.store) && StoreGrows(cfg, l.store, l'.store, TempOf(l.pc))
    requires PcOK(cfg, l.table, l'.store, op, l.node, l'.pc)
    ensures Moves(cfg, op, l, l')
  {
    TableStable(cfg, l.table, l.store, l'.store, TempOf(l.pc));
    HolderStable(cfg, l.table, l.store, l.table, l'.store, TempOf(l.pc), op, l.node);
  }

  // ----- Lookup and the root set-up -----

  lemma NewNodeOK(cfg: Config, t: Table, st: Store, node: Node, name: string, row: CachedRow)
    requires Slot(cfg, node, name) && row.typeName != NoEntry
    requires CachedOK(cfg, t, st, Join(node.path, name), row)
    ensures var r := NodeFor(cfg, node.path, node.below, row, name);
            r.NodeReply? && r.node.path == Join(node.path, name) && NodeOK(cfg, t, st, r.node)
  {
    var n := NodeFor(cfg, node.path, node.below, row, name).node;
    assert Covered(CachedOf(n), t[n.inode]);
  }

  lemma NodeForOK(cfg: Config, t: Table, st: Store, op: Op, node: Node, name: string, row: CachedRow)
    requires Slot(cfg, node, name) && Seeks(op, name)
    requires CachedOK(cfg, t, st, Join(node.path, name), row)
    ensures ReplyOK(cfg, t, st, op, node, NodeFor(cfg, node.path, node.below, row, name))
  {
    if row.typeName != NoEntry {
      NewNodeOK(cfg, t, st, node, name, row);
    } else if Pinned(cfg, Join(node.path, name)) {
      assert t[row.inode].typeName == NoEntry;
      assert HasWhiteout(t, Join(node.path, name));
    }
  }

  /** Remembering a row of a child. */
  lemma RememberOK(cfg: Config, t: Table, st: Store, op: Op, node: Node, name: string, row: CachedRow)
    requires HolderOK(cfg, t, st, op, node) && (op.Lookup? ==> ProperName(name))
    requires Seeks(op, name) && CachedOK(cfg, t, st, Join(node.path, name), row)
    ensures HolderOK(cfg, t, st, op, node.(rows := node.rows[name := row]))
  {
    assert CachedOf(node.(rows := node.rows[name := row])) == CachedOf(node);
  }

  lemma ResolveOK(cfg: Config, op: Op, l: Local, l1: Local, name: string, row: CachedRow)
    requires LocalOK(cfg, op, l) && Seeks(op, name) && Slot(cfg, l.node, name)
    requires l1 == l.(acct := l1.acct) && (op.Lookup? ==> ProperName(name))
    requires CachedOK(cfg, l.table, l.store, Join(l.node.path, name), row)
    ensures Moves(cfg, op, l, Resolve(cfg, l1, name, row))
  {
    var l' := Resolve(cfg, l1, name, row);
    RememberOK(cfg, l.table, l.store, op, l.node, name, row);
    assert Slot(cfg, l'.node, name);
    NodeForOK(cfg, l.table, l.store, op, l'.node, name, row);
    TableMove(cfg, op, l, l');
  }

  lemma QueryIs(cfg: Config, l: Local, a: Answer, name: string)
    requires l.pc == Looking(Query(name))
    ensures Step(cfg, l, a) == LookupQuery(cfg, l, a, name)
  {
  }

  lemma QueryStep(cfg: Config, op: Op, l: Local, a: Answer, name: string)
    requires LocalOK(cfg, op, l) && l.pc == Looking(Query(name)) && ProperName(name)
    ensures Moves(cfg, op, l, Step(cfg, l, a))
  {
    QueryIs(cfg, l, a, name);
    var path := Join(l.node.path, name);
    SelectOK(cfg, l.table, l.store, path);
    if !a.fault && HasPath(l.table, path) && !l.node.direct {
      ResolveOK(cfg, op, l, CountHit(l), name, SelectFull(l.table, path).row);
    } else {
      Quiet(cfg, op, l, LookupQuery(cfg, l, a, name));
    }
  }

  lemma AskDirectPc(cfg: Config, op: Op, l: Local, a: Answer, name: string, cached: bool)
    requires LookupOK(cfg, l.table, op, l.node, AskDirect(name, cached))
    ensures Still(cfg, op, l, LookupDirect(l, a, name, cached))
  {
  }

  lemma AskDirectStep(cfg: Config, op: Op, l: Local, a: Answer, name: string, cached: bool)
    requires LocalOK(cfg, op, l) && l.pc == Looking(AskDirect(name, cached))
    ensures Moves(cfg, op, l, Step(cfg, l, a))
  {
    AskDirectPc(cfg, op, l, a, name, cached);
    Quiet(cfg, op, l, LookupDirect(l, a, name, cached));
  }

  lemma AskMissPc(cfg: Config, op: Op, l: Local, a: Answer, name: string)
    requires LookupOK(cfg, l.table, op, l.node, AskMiss(name))
    ensures Still(cfg, op, l, LookupMiss(l, a, name))
  {
  }

  lemma AskMissStep(cfg: Config, op: Op, l: Local, a: Answer, name: string)
    requires LocalOK(cfg, op, l) && l.pc == Looking(AskMiss(name))
    ensures Moves(cfg, op, l, Step(cfg, l, a))
  {
    AskMissPc(cfg, op, l, a, name);
    Quiet(cfg, op, l, LookupMiss(l, a, name));
  }

  /** What follows once a row of the right type is known to be there. */
  lemma AfterPutOK(cfg: Config, op: Op, l: Local, l1: Local, name: string, typeName: TypeName)
    requires LocalOK(cfg, op, l) && TempOf(l.pc) == None
    requires l1 == l.(table := l1.table) && TableOK(cfg, l1.table, l.store) && Grows(cfg, l.table, l1.table)
    requires Seeks(op, name) && Slot(cfg, l.node, name) && HasPath(l1.table, Join(l.node.path, name))
    requires typeName == NoEntry && Pinned(cfg, Join(l.node.path, name)) ==>
               HasWhiteout(l1.table, Join(l.node.path, name))
    ensures Moves(cfg, op, l, AfterPut(l1, name, typeName))
  {
    HolderStable(cfg, l.table, l.store, l1.table, l.store, None, op, l.node);
    TableMove(cfg, op, l, AfterPut(l1, name, typeName));
  }

  lemma UpdateIs(cfg: Config, l: Local, a: Answer, name: string, typeName: TypeName)
    requires l.pc == Looking(Update(name, typeName))
    ensures Step(cfg, l, a) == LookupUpdate(l, a, name, typeName)
  {
  }

  lemma UpdateStep(cfg: Config, op: Op, l: Local, a: Answer, name: string, typeName: TypeName)
    requires LocalOK(cfg, op, l) && l.pc == Looking(Update(name, typeName))
    ensures Moves(cfg, op, l, Step(cfg, l, a))
  {
    UpdateIs(cfg, l, a, name, typeName);
    var path := Join(l.node.path, name);
    if a.fault {
      Quiet(cfg, op, l, LookupUpdate(l, a, name, typeName));
    } else {
      UpdateTypeOK(cfg, l.table, l.store, path, typeName);
      RowsAffected(l.table, path);
      var l1 := l.(table := UpdateType(l.table, path, typeName));
      if HasPath(l.table, path) {
        HasPathStable(cfg, l.table, l1.table, path);
        AfterPutOK(cfg, op, l, l1, name, typeName);
      } else {
        HolderStable(cfg, l.table, l.store, l1.table, l.store, None, op, l.node);
        TableMove(cfg, op, l, LookupUpdate(l, a, name, typeName));
      }
    }
  }

  lemma InsertIs(cfg: Config, l: Local, a: Answer, name: string, typeName: TypeName)
    requires l.pc == Looking(Insert(name, typeName))
    ensures Step(cfg, l, a) == LookupInsert(l, a, name, typeName)
  {
  }

  lemma InsertMoves(cfg: Config, op: Op, l: Local, a: Answer, name: string, typeName: TypeName)
    requires LocalOK(cfg, op, l) && l.pc == Looking(Insert(name, typeName))
    requires !a.fault && CanInsert(l.table, Join(l.node.path, name), a.rowId)
    ensures Moves(cfg, op, l, LookupInsert(l, a, name, typeName))
  {
    var path := Join(l.node.path, name);
    InsertOK(cfg, l.table, l.store, path, typeName, a.rowId);
    var l1 := l.(table := InsertRow(l.table, path, typeName, a.rowId));
    assert l1.table[a.rowId].path == path;
    AfterPutOK(cfg, op, l, l1, name, typeName);
  }

  lemma InsertStep(cfg: Config, op: Op, l: Local, a: Answer, name: string, typeName: TypeName)
    requires LocalOK(cfg, op, l) && l.pc == Looking(Insert(name, typeName))
    ensures Moves(cfg, op, l, Step(cfg, l, a))
  {
    InsertIs(cfg, l, a, name, typeName);
    if a.fault || !CanInsert(l.table, Join(l.node.path, name), a.rowId) {
      Quiet(cfg, op, l, l.(pc := Done(Error)));
    } else {
      InsertMoves(cfg, op, l, a, name, typeName);
    }
  }

  lemma ReloadIs(cfg: Config, l: Local, a: Answer, name: string)
    requires l.pc == Looking(Reload(name))
    ensures Step(cfg, l, a) == LookupReload(cfg, l, a, name)
  {
  }

  lemma ReloadMoves(cfg: Config, op: Op, l: Local, a: Answer, name: string)
    requires LocalOK(cfg, op, l) && l.pc == Looking(Reload(name)) && (op.Lookup? ==> ProperName(name)) && !a.fault
    ensures Moves(cfg, op, l, LookupReload(cfg, l, a, name))
  {
    SelectOK(cfg, l.table, l.store, Join(l.node.path, name));
    ResolveOK(cfg, op, l, l, name, SelectFull(l.table, Join(l.node.path, name)).row);
  }

  lemma ReloadStep(cfg: Config, op: Op, l: Local, a: Answer, name: string)
    requires LocalOK(cfg, op, l) && l.pc == Looking(Reload(name)) && (op.Lookup? ==> ProperName(name))
    ensures Moves(cfg, op, l, Step(cfg, l, a))
  {
    ReloadIs(cfg, l, a, name);
    if a.fault {
      Quiet(cfg, op, l, l.(pc := Done(Error)));
    } else {
      ReloadMoves(cfg, op, l, a, name);
    }
  }

  lemma MountPc(cfg: Config, l: Local, a: Answer)
    requires Slot(cfg, l.node, "/")
    requires HasPath(l.table, Join(l.node.path, "/")) ==> SelectFull(l.table, Join(l.node.path, "/")).Found?
    requires l.node.direct == cfg.direct(Join(l.node.path, "/"))
    ensures Still(cfg, Mount, l, RowQuery(cfg, l, a, "/", Directory))
  {
  }

  lemma MountMoves(cfg: Config, l: Local, a: Answer)
    requires WfConfig(cfg) && LocalOK(cfg, Mount, l) && l.pc == Looking(EnsureRow("/", Directory))
    ensures Moves(cfg, Mount, l, RowQuery(cfg, l, a, "/", Directory))
  {
    RootSlot(cfg);
    SelectOK(cfg, l.table, l.store, Join(l.node.path, "/"));
    MountPc(cfg, l, a);
    Quiet(cfg, Mount, l, RowQuery(cfg, l, a, "/", Directory));
  }

  lemma MountStep(cfg: Config, op: Op, l: Local, a: Answer)
    requires WfConfig(cfg) && LocalOK(cfg, op, l) && l.pc.Looking? && l.pc.lk.EnsureRow?
    ensures Moves(cfg, op, l, Step(cfg, l, a))
  {
    MountMoves(cfg, l, a);
  }

  lemma AskingStep(cfg: Config, op: Op, l: Local, a: Answer)
    requires LocalOK(cfg, op, l) && l.pc.Looking? && (op.Lookup? ==> ProperName(op.name))
    requires l.pc.lk.Query? || l.pc.lk.AskDirect? || l.pc.lk.AskMiss?
    ensures Moves(cfg, op, l, Step(cfg, l, a))
  {
    match l.pc.lk
    case Query(name) => QueryStep(cfg, op, l, a, name);
    case AskDirect(name, cached) => AskDirectStep(cfg, op, l, a, name, cached);
    case AskMiss(name) => AskMissStep(cfg, op, l, a, name);
  }

  lemma StoringStep(cfg: Config, op: Op, l: Local, a: Answer)
    requires LocalOK(cfg, op, l) && l.pc.Looking? && (l.pc.lk.Update? || l.pc.lk.Insert?)
    ensures Moves(cfg, op, l, Step(cfg, l, a))
  {
    if l.pc.lk.Update? {
      UpdateStep(cfg, op, l, a, l.pc.lk.name, l.pc.lk.typeName);
    } else {
      InsertStep(cfg, op, l, a, l.pc.lk.name, l.pc.lk.typeName);
    }
  }

  lemma LookingStep(cfg: Config, op: Op, l: Local, a: Answer)
    requires WfConfig(cfg) && LocalOK(cfg, op, l) && l.pc.Looking? && (op.Lookup? ==> ProperName(op.name))
    ensures Moves(cfg, op, l, Step(cfg, l, a))
  {
    match l.pc.lk
    case Reload(name) => ReloadStep(cfg, op, l, a, name);
    case EnsureRow(_, _) => MountStep(cfg, op, l, a);
    case Update(_, _) => StoringStep(cfg, op, l, a);
    case Insert(_, _) => StoringStep(cfg, op, l, a);
    case _ => AskingStep(cfg, op, l, a);
  }

  // ----- Attr and Readlink -----

  /** Filling in a field of a node whose column is set keeps the node valid. */
  lemma FilledNode(cfg: Config, t: Table, st: Store, node: Node, node': Node)
    requires NodeOK(cfg, t, st, node)
    requires node' == node.(info := node'.info, entries := node'.entries, hash := node'.hash, target := node'.target)
    requires Covered(CachedOf(node'), t[node.inode]) && HashOK(cfg, st, node'.hash)
    requires node'.entries.Some? ==> EntriesOK(t, node.path, node'.entries.value)
    ensures NodeOK(cfg, t, st, node')
  {
  }

  lemma StatedOK(cfg: Config, t: Table, st: Store, node: Node, info: FileInfo)
    requires TableOK(cfg, t, st) && NodeOK(cfg, t, st, node)
    ensures var t' := UpdateInfo(t, node.inode, info);
            TableOK(cfg, t', st) && Grows(cfg, t, t') && NodeOK(cfg, t', st, node.(info := Some(info)))
  {
    var t' := UpdateInfo(t, node.inode, info);
    UpdateInfoOK(cfg, t, st, node.inode, info);
    NodeStable(cfg, t, st, t', st, None, node);
    FilledNode(cfg, t', st, node, node.(info := Some(info)));
  }

  lemma StatingIs(cfg: Config, l: Local, a: Answer)
    requires l.pc.Stating?
    ensures Step(cfg, l, a) == AttrStep(l, a, l.pc.at)
  {
  }

  lemma StatingStep(cfg: Config, op: Op, l: Local, a: Answer)
    requires LocalOK(cfg, op, l) && l.pc.Stating?
    ensures Moves(cfg, op, l, Step(cfg, l, a))
  {
    StatingIs(cfg, l, a);
    var l' := AttrStep(l, a, l.pc.at);
    if l.pc.at.PutInfo? && !a.fault {
      StatedOK(cfg, l.table, l.store, l.node, l.pc.at.info);
      TableMove(cfg, op, l, l');
    } else {
      Quiet(cfg, op, l, l');
    }
  }

  lemma LinkedOK(cfg: Config, t: Table, st: Store, node: Node, stored: string, target: string)
    requires TableOK(cfg, t, st) && NodeOK(cfg, t, st, node)
    ensures var t' := UpdateTarget(t, node.inode, stored);
            TableOK(cfg, t', st) && Grows(cfg, t, t') && NodeOK(cfg, t', st, node.(target := Some(target)))
  {
    var t' := UpdateTarget(t, node.inode, stored);
    UpdateTargetOK(cfg, t, st, node.inode, stored);
    NodeStable(cfg, t, st, t', st, None, node);
    FilledNode(cfg, t', st, node, node.(target := Some(target)));
  }

  lemma LinkingIs(cfg: Config, l: Local, a: Answer)
    requires l.pc.Linking?
    ensures Step(cfg, l, a) == ReadlinkStep(cfg, l, a, l.pc.rl)
  {
  }

  lemma LinkingStep(cfg: Config, op: Op, l: Local, a: Answer)
    requires LocalOK(cfg, op, l) && l.pc.Linking?
    ensures Moves(cfg, op, l, Step(cfg, l, a))
  {
    LinkingIs(cfg, l, a);
    var l' := ReadlinkStep(cfg, l, a, l.pc.rl);
    if l.pc.rl.PutTarget? && !a.fault {
      LinkedOK(cfg, l.table, l.store, l.node, cfg.affinity(l.pc.rl.target), l.pc.rl.target);
      TableMove(cfg, op, l, l');
    } else {
      Quiet(cfg, op, l, l');
    }
  }

  // ----- Open -----

  /** Changing a file directly inside the cache directory leaves the objects alone. */
  lemma TopLevelChange(cfg: Config, st: Store, st': Store, temp: string)
    requires WfConfig(cfg) && StoreOK(cfg, st) && TopLevel(cfg.cacheRoot, temp)
    requires st'.dirs == st.dirs && (st'.used == st.used || st'.used == st.used + {temp})
    requires forall f :: f != temp ==> (f in st'.files <==> f in st.files) && (f in st.files ==> st'.files[f] == st.files[f])
    ensures StoreOK(cfg, st') && StoreGrows(cfg, st, st', Some(temp))
    ensures temp !in st.used ==> StoreGrows(cfg, st, st', None)
  {
    forall k | IsKey(k)
      ensures HasObject(cfg.cacheRoot, st, k) <==> HasObject(cfg.cacheRoot, st', k)
      ensures HasObject(cfg.cacheRoot, st, k) ==> KeyFor(cfg, st'.files[PathForKey(cfg.cacheRoot, k)]) == k
    {
      ObjectsApart(cfg.cacheRoot, k, temp);
    }
  }

  lemma WriteOK(cfg: Config, st: Store, temp: string, data: Bytes)
    requires WfConfig(cfg) && StoreOK(cfg, st) && TempOK(cfg, st, temp)
    ensures var st' := st.Write(temp, data);
            StoreOK(cfg, st') && StoreGrows(cfg, st, st', Some(temp)) && TempOK(cfg, st', temp)
  {
    TopLevelChange(cfg, st, st.Write(temp, data), temp);
  }

  lemma CreateOK(cfg: Config, st: Store, temp: string)
    requires WfConfig(cfg) && StoreOK(cfg, st) && TopLevel(cfg.cacheRoot, temp) && temp !in st.used
    ensures var st' := st.CreateTemp(temp);
            StoreOK(cfg, st') && StoreGrows(cfg, st, st', None) && TempOK(cfg, st', temp)
  {
    TopLevelChange(cfg, st, st.CreateTemp(temp), temp);
  }

  lemma RemoveOK(cfg: Config, st: Store, temp: string)
    requires WfConfig(cfg) && StoreOK(cfg, st) && TopLevel(cfg.cacheRoot, temp)
    ensures StoreOK(cfg, st.Remove(temp)) && StoreGrows(cfg, st, st.Remove(temp), Some(temp))
    ensures StoreGrows(cfg, st, st, Some(temp))
  {
    TopLevelChange(cfg, st, st.Remove(temp), temp);
  }

  lemma SourcePc(cfg: Config, l: Local, a: Answer)
    requires l.pc == Opening(OpenRemote)
    ensures Still(cfg, Open, l, OpenSource(l, a))
  {
  }

  lemma SourceStep(cfg: Config, op: Op, l: Local, a: Answer)
    requires LocalOK(cfg, op, l) && l.pc == Opening(OpenRemote)
    ensures Moves(cfg, op, l, Step(cfg, l, a))
  {
    SourcePc(cfg, l, a);
    Quiet(cfg, op, l, OpenSource(l, a));
  }

  lemma TempIs(cfg: Config, l: Local, a: Answer)
    requires l.pc == Opening(CreateTemp)
    ensures Step(cfg, l, a) == OpenTemp(cfg, l, a)
  {
  }

  lemma TempStep(cfg: Config, op: Op, l: Local, a: Answer)
    requires WfConfig(cfg) && LocalOK(cfg, op, l) && l.pc == Opening(CreateTemp)
    ensures Moves(cfg, op, l, Step(cfg, l, a))
  {
    TempIs(cfg, l, a);
    var temp := TempPath(cfg.cacheRoot, a.suffix);
    var l' := OpenTemp(cfg, l, a);
    if a.fault || '/' in a.suffix || temp in l.store.files || temp in l.store.used {
      Quiet(cfg, op, l, l');
    } else {
      TempTopLevel(cfg.cacheRoot, a.suffix);
      CreateOK(cfg, l.store, temp);
      StoreMove(cfg, op, l, l');
    }
  }

  lemma FetchStep(cfg: Config, op: Op, l: Local, a: Answer, temp: string)
    requires WfConfig(cfg) && LocalOK(cfg, op, l) && l.pc == Opening(Fetch(temp))
    ensures Moves(cfg, op, l, Step(cfg, l, a))
  {
    var l' := OpenFetch(cfg, l, a, temp);
    WriteOK(cfg, l.store, temp, l'.store.files[temp]);
    CopyIsTee(a.turns, [], [], 0);
    StoreMove(cfg, op, l, l');
  }

  lemma CheckPc(cfg: Config, l: Local, a: Answer, temp: string, key: string)
    requires IsKey(key) && l.pc == Opening(CheckKey(temp, key)) && OpenOK(cfg, l.store, l.node, l.pc.op)
    ensures Still(cfg, Open, l, OpenHasKey(cfg, l, a, temp, key))
  {
  }

  lemma CheckStep(cfg: Config, op: Op, l: Local, a: Answer, temp: string, key: string)
    requires LocalOK(cfg, op, l) && l.pc == Opening(CheckKey(temp, key))
    ensures Moves(cfg, op, l, Step(cfg, l, a))
  {
    CheckPc(cfg, l, a, temp, key);
    Quiet(cfg, op, l, OpenHasKey(cfg, l, a, temp, key));
  }

  lemma BucketStep(cfg: Config, op: Op, l: Local, a: Answer, temp: string, key: string)
    requires LocalOK(cfg, op, l) && l.pc == Opening(MakeBucket(temp, key))
    ensures Moves(cfg, op, l, Step(cfg, l, a))
  {
    BucketPc(cfg, l, a, temp, key);
    StoreMove(cfg, op, l, OpenMkdir(cfg, l, a, temp, key));
  }

  lemma BucketPc(cfg: Config, l: Local, a: Answer, temp: string, key: string)
    requires IsKey(key) && l.pc == Opening(MakeBucket(temp, key)) && OpenOK(cfg, l.store, l.node, l.pc.op)
    requires StoreOK(cfg, l.store)
    ensures var l' := OpenMkdir(cfg, l, a, temp, key);
            l'.table == l.table && l'.node == l.node && StoreOK(cfg, l'.store) &&
            StoreGrows(cfg, l.store, l'.store, Some(temp)) && WellFormed(l'.pc) && TempFresh(l, l') &&
            PcOK(cfg, l.table, l'.store, Open, l.node, l'.pc)
  {
  }

  /** Moving a finished temporary file to its object path. */
  lemma RenameOK(cfg: Config, st: Store, temp: string, key: string)
    requires WfConfig(cfg) && StoreOK(cfg, st) && TempOK(cfg, st, temp) && KeyFor(cfg, st.files[temp]) == key
    ensures var st' := st.Rename(temp, PathForKey(cfg.cacheRoot, key));
            StoreOK(cfg, st') && StoreGrows(cfg, st, st', Some(temp)) && HasObject(cfg.cacheRoot, st', key)
  {
    var root := cfg.cacheRoot;
    var st' := st.Rename(temp, PathForKey(root, key));
    ObjectsApart(root, key, temp);
    forall k | IsKey(k)
      ensures HasObject(root, st, k) ==> HasObject(root, st', k)
      ensures HasObject(root, st', k) ==> KeyFor(cfg, st'.files[PathForKey(root, k)]) == k
    {
      ObjectsApart(root, k, temp);
      if PathForKey(root, k) == PathForKey(root, key) {
        PathForKeyInjective(root, k, key);
      }
    }
    forall f | f in st.used && f in st.files && Some(temp) != Some(f)
      ensures f in st'.files && st'.files[f] == st.files[f]
    {
      ObjectsApart(root, key, f);
    }
  }

  lemma RenameMoves(cfg: Config, op: Op, l: Local, a: Answer, temp: string, key: string)
    requires WfConfig(cfg) && LocalOK(cfg, op, l) && l.pc == Opening(RenameTemp(temp, key))
    requires !a.fault && BucketPath(cfg.cacheRoot, key) in l.store.dirs
    ensures Moves(cfg, op, l, OpenRename(cfg, l, a, temp, key))
  {
    RenameOK(cfg, l.store, temp, key);
    StoreMove(cfg, op, l, OpenRename(cfg, l, a, temp, key));
  }

  lemma RenameFails(cfg: Config, op: Op, l: Local, a: Answer, temp: string, key: string)
    requires LocalOK(cfg, op, l) && l.pc == Opening(RenameTemp(temp, key))
    requires a.fault || BucketPath(cfg.cacheRoot, key) !in l.store.dirs
    ensures Moves(cfg, op, l, OpenRename(cfg, l, a, temp, key))
  {
    Quiet(cfg, op, l, OpenRename(cfg, l, a, temp, key));
  }

  lemma RenameIs(cfg: Config, l: Local, a: Answer, temp: string, key: string)
    requires IsKey(key) && l.pc == Opening(RenameTemp(temp, key))
    ensures Step(cfg, l, a) == OpenRename(cfg, l, a, temp, key)
  {
  }

  lemma RenameStep(cfg: Config, op: Op, l: Local, a: Answer, temp: string, key: string)
    requires WfConfig(cfg) && LocalOK(cfg, op, l) && l.pc == Opening(RenameTemp(temp, key))
    ensures Moves(cfg, op, l, Step(cfg, l, a))
  {
    RenameIs(cfg, l, a, temp, key);
    if a.fault || BucketPath(cfg.cacheRoot, key) !in l.store.dirs {
      RenameFails(cfg, op, l, a, temp, key);
    } else {
      RenameMoves(cfg, op, l, a, temp, key);
    }
  }

  lemma RemovePc(cfg: Config, op: Op, l: Local, a: Answer, temp: string, put: Option<string>)
    requires WfConfig(cfg) && StoreOK(cfg, l.store) && op.Open?
    requires OpenOK(cfg, l.store, l.node, RemoveTemp(temp, put))
    ensures var l' := OpenRemove(l, a, temp, put);
            StoreOK(cfg, l'.store) && StoreGrows(cfg, l.store, l'.store, Some(temp)) &&
            PcOK(cfg, l.table, l'.store, op, l.node, l'.pc) && TempOf(l'.pc) == None
  {
    RemoveOK(cfg, l.store, temp);
  }

  lemma RemoveMoves(cfg: Config, op: Op, l: Local, a: Answer, temp: string, put: Option<string>)
    requires WfConfig(cfg) && LocalOK(cfg, op, l) && l.pc == Opening(RemoveTemp(temp, put))
    ensures Moves(cfg, op, l, OpenRemove(l, a, temp, put))
  {
    RemovePc(cfg, op, l, a, temp, put);
    StoreMove(cfg, op, l, OpenRemove(l, a, temp, put));
  }

  lemma RemoveStep(cfg: Config, op: Op, l: Local, a: Answer, temp: string, put: Option<string>)
    requires WfConfig(cfg) && LocalOK(cfg, op, l) && l.pc == Opening(RemoveTemp(temp, put))
    ensures Moves(cfg, op, l, Step(cfg, l, a))
  {
    RemoveIs(cfg, l, a, temp, put);
    RemoveMoves(cfg, op, l, a, temp, put);
  }

  lemma RemoveIs(cfg: Config, l: Local, a: Answer, temp: string, put: Option<string>)
    requires l.pc == Opening(RemoveTemp(temp, put))
    ensures Step(cfg, l, a) == OpenRemove(l, a, temp, put)
  {
  }

  lemma HashedOK(cfg: Config, t: Table, st: Store, node: Node, key: string)
    requires TableOK(cfg, t, st) && NodeOK(cfg, t, st, node) && HasObject(cfg.cacheRoot, st, key)
    ensures var t' := UpdateHash(t, node.inode, cfg.affinity(key));
            TableOK(cfg, t', st) && Grows(cfg, t, t') && NodeOK(cfg, t', st, node.(hash := Some(key)))
  {
    var hash := cfg.affinity(key);
    var t' := UpdateHash(t, node.inode, hash);
    UpdateHashOK(cfg, t, st, node.inode, hash);
    NodeStable(cfg, t, st, t', st, None, node);
    FilledNode(cfg, t', st, node, node.(hash := Some(key)));
  }

  lemma PutHashMoves(cfg: Config, op: Op, l: Local, a: Answer, key: string)
    requires LocalOK(cfg, op, l) && l.pc == Opening(PutHash(key)) && !a.fault
    ensures Moves(cfg, op, l, OpenPutHash(cfg, l, a, key))
  {
    HashedOK(cfg, l.table, l.store, l.node, key);
    TableMove(cfg, op, l, OpenPutHash(cfg, l, a, key));
  }

  lemma PutHashIs(cfg: Config, l: Local, a: Answer, key: string)
    requires l.pc == Opening(PutHash(key))
    ensures Step(cfg, l, a) == OpenPutHash(cfg, l, a, key)
  {
  }

  lemma PutHashStep(cfg: Config, op: Op, l: Local, a: Answer, key: string)
    requires LocalOK(cfg, op, l) && l.pc == Opening(PutHash(key))
    ensures Moves(cfg, op, l, Step(cfg, l, a))
  {
    PutHashIs(cfg, l, a, key);
    if a.fault {
      Quiet(cfg, op, l, l.(pc := Done(Error)));
    } else {
      PutHashMoves(cfg, op, l, a, key);
    }
  }

  /** A hash without an object is what the text column made of another one. */
  lemma MissingIsMangled(cfg: Config, st: Store, hash: string)
    requires HashOK(cfg, st, Some(hash))
    ensures |hash| < 2 || PathForKey(cfg.cacheRoot, hash) !in st.files ==> Mangled(cfg, st)
  {
    var k :| HasObject(cfg.cacheRoot, st, k) && (hash == k || hash == cfg.affinity(k));
  }

  lemma ObjectDigest(cfg: Config, st: Store, key: string)
    requires StoreOK(cfg, st)
    ensures HasObject(cfg.cacheRoot, st, key) ==> KeyFor(cfg, st.files[PathForKey(cfg.cacheRoot, key)]) == key
  {
  }

  lemma FindPc(cfg: Config, l: Local, a: Answer)
    requires l.node.hash.Some? && HashOK(cfg, l.store, l.node.hash)
    ensures Still(cfg, Open, l, OpenGet(cfg, l, a))
  {
    MissingIsMangled(cfg, l.store, l.node.hash.value);
  }

  lemma FindStep(cfg: Config, op: Op, l: Local, a: Answer)
    requires LocalOK(cfg, op, l) && l.pc == Opening(FindObject)
    ensures Moves(cfg, op, l, Step(cfg, l, a))
  {
    FindPc(cfg, l, a);
    Quiet(cfg, op, l, OpenGet(cfg, l, a));
  }

  lemma ObjectPc(cfg: Config, l: Local, a: Answer)
    requires l.node.hash.Some? && HashOK(cfg, l.store, l.node.hash) && StoreOK(cfg, l.store)
    ensures Still(cfg, Open, l, OpenRead(cfg, l, a))
  {
    MissingIsMangled(cfg, l.store, l.node.hash.value);
    ObjectDigest(cfg, l.store, l.node.hash.value);
  }

  lemma ObjectIs(cfg: Config, l: Local, a: Answer)
    requires l.pc == Opening(OpenObject)
    ensures Step(cfg, l, a) == OpenRead(cfg, l, a)
  {
  }

  lemma ObjectStep(cfg: Config, op: Op, l: Local, a: Answer)
    requires LocalOK(cfg, op, l) && l.pc == Opening(OpenObject)
    ensures Moves(cfg, op, l, Step(cfg, l, a))
  {
    ObjectIs(cfg, l, a);
    ObjectPc(cfg, l, a);
    Quiet(cfg, op, l, OpenRead(cfg, l, a));
  }

  lemma OpeningStep(cfg: Config, op: Op, l: Local, a: Answer)
    requires WfConfig(cfg) && LocalOK(cfg, op, l) && l.pc.Opening?
    ensures Moves(cfg, op, l, Step(cfg, l, a))
  {
    match l.pc.op
    case OpenRemote => SourceStep(cfg, op, l, a);
    case CreateTemp => TempStep(cfg, op, l, a);
    case Fetch(temp) => FetchStep(cfg, op, l, a, temp);
    case CheckKey(temp, key) => CheckStep(cfg, op, l, a, temp, key);
    case MakeBucket(temp, key) => BucketStep(cfg, op, l, a, temp, key);
    case RenameTemp(temp, key) => RenameStep(cfg, op, l, a, temp, key);
    case RemoveTemp(temp, put) => RemoveStep(cfg, op, l, a, temp, put);
    case PutHash(key) => PutHashStep(cfg, op, l, a, key);
    case FindObject => FindStep(cfg, op, l, a);
    case OpenObject => ObjectStep(cfg, op, l, a);
  }

  // ----- ReadDirAll -----

  lemma ListPc(cfg: Config, l: Local, a: Answer)
    requires WfAnswer(a) && l.pc.Listing? && (l.pc.rd.OpenDir? || l.pc.rd.ReadEntries?)
    requires l.node.entries.Some? ==> l.node.inode in l.table && l.table[l.node.inode].dirEntries.Some?
    ensures Still(cfg, ReadDirAll, l, ReaddirStep(l, a, l.pc.rd))
  {
  }

  lemma ListStep(cfg: Config, op: Op, l: Local, a: Answer)
    requires WfAnswer(a) && LocalOK(cfg, op, l) && l.pc.Listing? && (l.pc.rd.OpenDir? || l.pc.rd.ReadEntries?)
    ensures Moves(cfg, op, l, Step(cfg, l, a))
  {
    ListPc(cfg, l, a);
    Quiet(cfg, op, l, ReaddirStep(l, a, l.pc.rd));
  }

  lemma OneMore(t: Table, node: Node, todo: seq<Listed>, done: seq<Entry>, inode: nat)
    requires todo != [] && Doable(t, node, todo, done)
    requires inode in t && t[inode].path == Join(node.path, todo[0].name)
    ensures Doable(t, node, todo[1..], done + [Entry(todo[0].name, inode, SqlTypeName(todo[0].modeType))])
  {
  }

  lemma SelectEntryIs(cfg: Config, l: Local, a: Answer, todo: seq<Listed>, done: seq<Entry>)
    requires todo != [] && l.pc == Listing(SelectEntry(todo, done))
    ensures Step(cfg, l, a) == ReaddirSelect(l, a, todo, done)
  {
  }

  lemma SelectEntryPc(cfg: Config, l: Local, a: Answer, todo: seq<Listed>, done: seq<Entry>)
    requires Doable(l.table, l.node, todo, done) && todo != [] && l.pc == Listing(SelectEntry(todo, done))
    ensures Still(cfg, ReadDirAll, l, ReaddirSelect(l, a, todo, done))
  {
    var path := Join(l.node.path, todo[0].name);
    if HasPath(l.table, path) {
      OneMore(l.table, l.node, todo, done, IdOf(l.table, path));
    }
  }

  lemma SelectEntryStep(cfg: Config, op: Op, l: Local, a: Answer, todo: seq<Listed>, done: seq<Entry>)
    requires LocalOK(cfg, op, l) && l.pc == Listing(SelectEntry(todo, done))
    ensures Moves(cfg, op, l, Step(cfg, l, a))
  {
    SelectEntryIs(cfg, l, a, todo, done);
    SelectEntryPc(cfg, l, a, todo, done);
    Quiet(cfg, op, l, ReaddirSelect(l, a, todo, done));
  }

  /** The table, the node and the listing in progress after a row has been inserted for the next entry. */
  lemma InsertEntryPc(cfg: Config, l: Local, a: Answer, todo: seq<Listed>, done: seq<Entry>)
    requires TableOK(cfg, l.table, l.store) && NodeOK(cfg, l.table, l.store, l.node) && todo != []
    requires Doable(l.table, l.node, todo, done) && !a.fault && CanInsert(l.table, Join(l.node.path, todo[0].name), a.rowId)
    ensures var l' := ReaddirInsert(l, a, todo, done);
            TableOK(cfg, l'.table, l.store) && Grows(cfg, l.table, l'.table) && NodeOK(cfg, l'.table, l.store, l'.node) &&
            WellFormed(l'.pc) && PcOK(cfg, l'.table, l.store, ReadDirAll, l'.node, l'.pc)
  {
    var path := Join(l.node.path, todo[0].name);
    var t' := InsertRow(l.table, path, SqlTypeName(todo[0].modeType), a.rowId);
    JoinCanonical(l.node.path, todo[0].name);
    InsertOK(cfg, l.table, l.store, path, SqlTypeName(todo[0].modeType), a.rowId);
    NodeStable(cfg, l.table, l.store, t', l.store, None, l.node);
    DoableStable(cfg, l.table, t', l.node, todo, done);
    OneMore(t', l.node, todo, done, a.rowId);
  }

  lemma InsertEntryMoves(cfg: Config, op: Op, l: Local, a: Answer, todo: seq<Listed>, done: seq<Entry>)
    requires LocalOK(cfg, op, l) && l.pc == Listing(InsertEntry(todo, done))
    requires !a.fault && CanInsert(l.table, Join(l.node.path, todo[0].name), a.rowId)
    ensures Moves(cfg, op, l, ReaddirInsert(l, a, todo, done))
  {
    InsertEntryPc(cfg, l, a, todo, done);
    TableMove(cfg, op, l, ReaddirInsert(l, a, todo, done));
  }

  lemma InsertEntryIs(cfg: Config, l: Local, a: Answer, todo: seq<Listed>, done: seq<Entry>)
    requires todo != [] && l.pc == Listing(InsertEntry(todo, done))
    ensures Step(cfg, l, a) == ReaddirInsert(l, a, todo, done)
  {
  }

  lemma InsertEntryStep(cfg: Config, op: Op, l: Local, a: Answer, todo: seq<Listed>, done: seq<Entry>)
    requires LocalOK(cfg, op, l) && l.pc == Listing(InsertEntry(todo, done))
    ensures Moves(cfg, op, l, Step(cfg, l, a))
  {
    InsertEntryIs(cfg, l, a, todo, done);
    if a.fault || !CanInsert(l.table, Join(l.node.path, todo[0].name), a.rowId) {
      Quiet(cfg, op, l, l.(pc := Done(Error)));
    } else {
      InsertEntryMoves(cfg, op, l, a, todo, done);
    }
  }

  lemma PutEntriesPc(cfg: Config, op: Op, l: Local, a: Answer, done: seq<Entry>)
    requires TableOK(cfg, l.table, l.store) && NodeOK(cfg, l.table, l.store, l.node) && !op.Mount? && !a.fault
    requires Doable(l.table, l.node, [], done)
    ensures var l' := ReaddirPut(l, a, done);
            TableOK(cfg, l'.table, l.store) && Grows(cfg, l.table, l'.table) &&
            HolderOK(cfg, l'.table, l.store, op, l'.node) && ReaddirOK(l'.table, l'.node, SelectEntries)
  {
    UpdateEntriesOK(cfg, l.table, l.store, l.node, done);
    HolderStable(cfg, l.table, l.store, ReaddirPut(l, a, done).table, l.store, None, op, l.node);
  }

  lemma PutEntriesMoves(cfg: Config, op: Op, l: Local, a: Answer, done: seq<Entry>)
    requires LocalOK(cfg, op, l) && l.pc == Listing(PutEntries(done)) && !a.fault
    ensures Moves(cfg, op, l, ReaddirPut(l, a, done))
  {
    PutEntriesPc(cfg, op, l, a, done);
    TableMove(cfg, op, l, ReaddirPut(l, a, done));
  }

  lemma PutEntriesStep(cfg: Config, op: Op, l: Local, a: Answer, done: seq<Entry>)
    requires LocalOK(cfg, op, l) && l.pc == Listing(PutEntries(done))
    ensures Moves(cfg, op, l, Step(cfg, l, a))
  {
    if a.fault {
      Quiet(cfg, op, l, l.(pc := Done(Error)));
    } else {
      PutEntriesMoves(cfg, op, l, a, done);
    }
  }

  lemma DirentsOfEntries(t: Table, path: string, m: EntryMap)
    requires EntriesOK(t, path, m)
    ensures DirentsOK(t, path, Dirents(m))
  {
  }

  lemma GetEntriesIs(cfg: Config, l: Local, a: Answer)
    requires l.pc == Listing(SelectEntries)
    ensures Step(cfg, l, a) == ReaddirGet(l, a)
  {
  }

  lemma GetEntriesStep(cfg: Config, op: Op, l: Local, a: Answer)
    requires LocalOK(cfg, op, l) && l.pc == Listing(SelectEntries)
    ensures Moves(cfg, op, l, Step(cfg, l, a))
  {
    GetEntriesIs(cfg, l, a);
    var l' := ReaddirGet(l, a);
    if a.fault {
      Quiet(cfg, op, l, l');
    } else {
      var id := l.node.inode;
      assert RowOK(cfg, l.table, l.store, id, l.table[id]);
      assert EntriesOK(l.table, l.node.path, l'.node.entries.value);
      DirentsOfEntries(l.table, l.node.path, l'.node.entries.value);
      FilledNode(cfg, l.table, l.store, l.node, l'.node);
      TableMove(cfg, op, l, l');
    }
  }

  lemma ListingStep(cfg: Config, op: Op, l: Local, a: Answer)
    requires WfAnswer(a) && LocalOK(cfg, op, l) && l.pc.Listing?
    ensures Moves(cfg, op, l, Step(cfg, l, a))
  {
    match l.pc.rd
    case OpenDir => ListStep(cfg, op, l, a);
    case ReadEntries => ListStep(cfg, op, l, a);
    case SelectEntry(todo, done) => SelectEntryStep(cfg, op, l, a, todo, done);
    case InsertEntry(todo, done) => InsertEntryStep(cfg, op, l, a, todo, done);
    case PutEntries(done) => PutEntriesStep(cfg, op, l, a, done);
    case SelectEntries => GetEntriesStep(cfg, op, l, a);
  }

  /** Every action of every handler keeps the invariants and what others remember. */
  lemma StepOK(cfg: Config, op: Op, l: Local, a: Answer)
    requires WfConfig(cfg) && WfAnswer(a) && LocalOK(cfg, op, l) && (op.Lookup? ==> ProperName(op.name))
    ensures Moves(cfg, op, l, Step(cfg, l, a))
  {
    match l.pc
    case Looking(_) => LookingStep(cfg, op, l, a);
    case Stating(_) => StatingStep(cfg, op, l, a);
    case Linking(_) => LinkingStep(cfg, op, l, a);
    case Opening(_) => OpeningStep(cfg, op, l, a);
    case Listing(_) => ListingStep(cfg, op, l, a);
    case Done(_) =>
  }
}
