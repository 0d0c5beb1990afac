/**
 What has been answered once is on disk: after any crash it is served again without the
 remote tree, and on an immutable tree it is the same answer.
 */
module Archive {
  import opened Wrappers
  import opened DirEntries
  import opened Metadata
  import opened Content
  import opened Handlers
  import opened Paths
  import opened Structure
  import opened Runs
  import opened Safety
  import opened Guarantees
  import opened Persistence
  import opened Offline
  import opened Ancestry
  import opened Remote
  import opened Transparency
  import Accounting
  import Agreement

  // ----- every answer has its column -----

  /** The type of the path's row cannot change any more, as far as the operation depends on it. */
  predicate Settled(cfg: Config, path: string, op: Op) {
    Pinned(cfg, path) || op.Attr? || (op.ReadDirAll? && Components(path) == [])
  }

  /** A successful answer of one of the four operations that read columns. */
  predicate GivesValue(o: Observation) {
    o.Observed? && o.op in {Attr, Readlink, ReadDirAll, Open} && (Answers(o.reply) || o.reply.HandleReply?)
  }

  /** The node has the value that the operation answers with. */
  predicate Knows(node: Node, op: Op) {
    KnownReply(node, op).Some? || (op.Open? && node.hash.Some?)
  }

  lemma KnownIsStored(cfg: Config, t: Table, st: Store, node: Node, op: Op)
    requires TableOK(cfg, t, st) && NodeOK(cfg, t, st, node) && Applicable(op, node) && Knows(node, op)
    requires op.Attr? || t[node.inode].typeName == node.typeName
    requires op.Open? ==> !Mangled(cfg, st)
    ensures SelectFull(t, node.path).Found? && StoredReply(cfg, t, st, node.path, op).Some?
  {
    SelectsRow(t, node.inode);
    SelectOK(cfg, t, st, node.path);
    if op.Open? {
      FaithfulHash(cfg, st, SelectFull(t, node.path).row.hash);
    }
  }

  lemma SettledType(cfg: Config, t: Table, st: Store, node: Node, op: Op)
    requires TableOK(cfg, t, st) && TableRooted(cfg, t) && NodeOK(cfg, t, st, node) && Applicable(op, node)
    requires Settled(cfg, node.path, op)
    ensures op.Attr? || t[node.inode].typeName == node.typeName
  {
    if !Pinned(cfg, node.path) {
      assert RowRooted(cfg, t, t[node.inode]);
    }
  }

  /** Everything proved about reachable states that is needed here. */
  lemma Reached(cfg: Config, evs: seq<Event>)
    requires WfConfig(cfg) && WfEvents(evs)
    ensures var s := Exec(cfg, INITIAL, evs);
            Inv(cfg, s) && Remembered(s) && TableRooted(cfg, s.table) && Reachable(cfg, s)
  {
    ReachableOK(cfg, evs);
    ExecRemembered(cfg, INITIAL, evs);
    ReachableRooted(cfg, evs);
  }

  /** What the reply and the record say about an observation. */
  lemma ObservedKnows(cfg: Config, s: State, o: Observation)
    requires Recorded(s, o) && ObservationOK(cfg, s.table, s.store, o) && GivesValue(o)
    ensures NodeOK(cfg, s.table, s.store, o.node) && Applicable(o.op, o.node) && Knows(o.node, o.op)
  {
  }

  lemma ObservedIsStored(cfg: Config, s: State, o: Observation)
    requires TableOK(cfg, s.table, s.store) && TableRooted(cfg, s.table)
    requires Recorded(s, o) && ObservationOK(cfg, s.table, s.store, o) && GivesValue(o)
    requires Settled(cfg, o.node.path, o.op) && (o.op.Open? ==> !Mangled(cfg, s.store))
    ensures StoredReply(cfg, s.table, s.store, o.node.path, o.op).Some?
  {
    ObservedKnows(cfg, s, o);
    SettledType(cfg, s.table, s.store, o.node, o.op);
    KnownIsStored(cfg, s.table, s.store, o.node, o.op);
  }

  lemma AtIndex(cfg: Config, s: State, i: nat)
    requires LogOK(cfg, s.table, s.store, s.log) && History(s) && i < |s.log|
    ensures Recorded(s, s.log[i]) && ObservationOK(cfg, s.table, s.store, s.log[i])
  {
  }

  lemma InOneRun(cfg: Config, evs: seq<Event>, more: seq<Event>)
    requires WfConfig(cfg) && WfEvents(evs) && WfEvents(more)
    ensures WfEvents(evs + more)
    ensures Exec(cfg, INITIAL, evs + more) == Exec(cfg, Exec(cfg, INITIAL, evs), more)
    ensures Exec(cfg, INITIAL, evs).log <= Exec(cfg, INITIAL, evs + more).log
  {
    ExecConcat(cfg, INITIAL, evs, more);
    ReachableOK(cfg, evs);
    ExecOK(cfg, Exec(cfg, INITIAL, evs), more);
  }

  /**
   In every run, after a successful Attr, Readlink, ReadDirAll or Open on a child of a cached
   directory (or Attr or ReadDirAll on the root), the column the answer comes from is stored
   in every later state, whatever happens in between.
   */
  lemma AnswersAreStored(cfg: Config, evs: seq<Event>, more: seq<Event>, i: nat)
    requires WfConfig(cfg) && WfEvents(evs) && WfEvents(more) && i < |Exec(cfg, INITIAL, evs).log|
    requires var o := Exec(cfg, INITIAL, evs).log[i]; GivesValue(o) && Settled(cfg, o.node.path, o.op)
    ensures var s := Exec(cfg, Exec(cfg, INITIAL, evs), more);
            var o := Exec(cfg, INITIAL, evs).log[i];
            (o.op.Open? ==> !Mangled(cfg, s.store)) ==>
              StoredReply(cfg, s.table, s.store, o.node.path, o.op).Some?
  {
    InOneRun(cfg, evs, more);
    Reached(cfg, evs + more);
    var s := Exec(cfg, INITIAL, evs + more);
    assert s.log[i] == Exec(cfg, INITIAL, evs).log[i];
    AtIndex(cfg, s, i);
    if s.log[i].op.Open? ==> !Mangled(cfg, s.store) {
      ObservedIsStored(cfg, s, s.log[i]);
    }
  }

  // ----- every answer can be had again offline -----

  lemma ObservedIsKnown(cfg: Config, s: State, o: Observation, cs: seq<string>)
    requires TableOK(cfg, s.table, s.store) && TableRooted(cfg, s.table) && ObservationOK(cfg, s.table, s.store, o)
    requires GivesValue(o) && o.node.path == PathOf(cs) && Sheltered(cfg, cs) && !cfg.direct(PathOf(cs))
    requires cs == [] ==> o.op in {Attr, ReadDirAll}
    ensures Known(cfg, s.table, cs) && Settled(cfg, PathOf(cs), o.op)
  {
    PathOfComponents(cs);
    ShelteredIsPinned(cfg, cs);
    SelectsRow(s.table, o.node.inode);
    if cs == [] {
      RootRow(cfg, s.table);
    }
    RowsAreKnown(cfg, s.table, cs);
  }

  /** The path can be walked to and its column is stored. */
  ghost predicate Ready(cfg: Config, s: State, cs: seq<string>, op: Op) {
    Known(cfg, s.table, cs) && StoredReply(cfg, s.table, s.store, PathOf(cs), op).Some?
  }

  lemma ObservedIsReady(cfg: Config, s: State, o: Observation, cs: seq<string>)
    requires TableOK(cfg, s.table, s.store) && TableRooted(cfg, s.table)
    requires Recorded(s, o) && ObservationOK(cfg, s.table, s.store, o) && GivesValue(o)
    requires o.node.path == PathOf(cs) && Sheltered(cfg, cs) && !cfg.direct(PathOf(cs))
    requires (cs == [] ==> o.op in {Attr, ReadDirAll}) && (o.op.Open? ==> !Mangled(cfg, s.store))
    ensures Ready(cfg, s, cs, o.op)
  {
    ObservedIsKnown(cfg, s, o, cs);
    ObservedIsStored(cfg, s, o);
  }

  lemma LoggedIsReady(cfg: Config, s: State, i: nat, cs: seq<string>)
    requires Inv(cfg, s) && History(s) && TableRooted(cfg, s.table) && i < |s.log| && GivesValue(s.log[i])
    requires s.log[i].node.path == PathOf(cs) && Sheltered(cfg, cs) && !cfg.direct(PathOf(cs))
    requires (cs == [] ==> s.log[i].op in {Attr, ReadDirAll}) && (s.log[i].op.Open? ==> !Mangled(cfg, s.store))
    ensures Ready(cfg, s, cs, s.log[i].op)
  {
    AtIndex(cfg, s, i);
    ObservedIsReady(cfg, s, s.log[i], cs);
  }

  /**
   In every run, once an operation has been answered on a path that is cached with everything
   above it, then after a crash at any later moment and with the remote tree unreachable,
   mounting again and walking down serves the operation from its stored column, without a
   remote call.
   */
  lemma AnsweredOffline(cfg: Config, evs: seq<Event>, i: nat, cs: seq<string>) returns (again: seq<Event>)
    requires WfConfig(cfg) && WfEvents(evs) && i < |Exec(cfg, INITIAL, evs).log|
    requires var s := Exec(cfg, INITIAL, evs);
             GivesValue(s.log[i]) && s.log[i].node.path == PathOf(cs) &&
             (cs == [] ==> s.log[i].op in {Attr, ReadDirAll}) && (s.log[i].op.Open? ==> !Mangled(cfg, s.store))
    requires Sheltered(cfg, cs) && !cfg.direct(PathOf(cs))
    ensures var s := Exec(cfg, INITIAL, evs);
            var stored := StoredReply(cfg, s.table, s.store, PathOf(cs), s.log[i].op);
            stored.Some? && Serves(cfg, s, again, PathOf(cs), s.log[i].op, stored)
  {
    Reached(cfg, evs);
    var s := Exec(cfg, INITIAL, evs);
    LoggedIsReady(cfg, s, i, cs);
    again := OfflineAfterRemount(cfg, s, cs, s.log[i].op);
  }

  // ----- on an immutable tree it is the same answer -----

  lemma {:induction false} OfflineIsTruthful(cfg: Config, r: Tree, s: State, evs: seq<Event>)
    requires NoRemote(evs)
    ensures TruthfulRun(cfg, r, s, evs)
    decreases |evs|
  {
    if evs != [] {
      UnreachableIsTruthful(r, s, evs[0]);
      OfflineIsTruthful(cfg, r, Next(cfg, s, evs[0]), evs[1..]);
    }
  }

  lemma UnreachableIsTruthful(r: Tree, s: State, ev: Event)
    requires ev.Act? ==> ev.answer == UNREACHABLE
    ensures WfEvent(ev) && TruthfulEvent(r, s, ev)
  {
  }

  lemma {:induction false} TruthfulConcat(cfg: Config, r: Tree, s: State, a: seq<Event>, b: seq<Event>)
    requires TruthfulRun(cfg, r, s, a) && TruthfulRun(cfg, r, Exec(cfg, s, a), b)
    ensures TruthfulRun(cfg, r, s, a + b)
    decreases |a|
  {
    if a == [] {
      assert a + b == b;
    } else {
      assert (a + b)[1..] == a[1..] + b;
      TruthfulConcat(cfg, r, Next(cfg, s, a[0]), a[1..], b);
    }
  }

  lemma OfflineReaches(cfg: Config, r: Tree, evs: seq<Event>, more: seq<Event>)
    requires TruthfulRun(cfg, r, INITIAL, evs) && NoRemote(more)
    ensures Agreement.ReachedOn(cfg, r, Exec(cfg, Exec(cfg, INITIAL, evs), more))
  {
    OfflineIsTruthful(cfg, r, Exec(cfg, INITIAL, evs), more);
    TruthfulConcat(cfg, r, INITIAL, evs, more);
    ExecConcat(cfg, INITIAL, evs, more);
  }

  lemma NeverMangled(cfg: Config, r: Tree, evs: seq<Event>)
    requires Ideal(cfg, r) && TruthfulRun(cfg, r, INITIAL, evs)
    ensures WfEvents(evs) && !Mangled(cfg, Exec(cfg, INITIAL, evs).store)
  {
    TruthfulRunWf(cfg, r, INITIAL, evs);
    Agreement.ReachedTruth(cfg, r, Exec(cfg, INITIAL, evs));
    NotMangled(cfg, r, Exec(cfg, INITIAL, evs).store);
  }

  lemma ServesSame(cfg: Config, r: Tree, s: State, again: seq<Event>, i: nat, stored: Reply)
    requires Ideal(cfg, r) && Agreement.ReachedOn(cfg, r, Exec(cfg, s, [Crash] + again)) && !stored.Error?
    requires i < |s.log| && GivesValue(s.log[i]) && Serves(cfg, s, again, s.log[i].node.path, s.log[i].op, Some(stored))
    ensures Serves(cfg, s, again, s.log[i].node.path, s.log[i].op, Some(s.log[i].reply))
  {
    var s' := Exec(cfg, s, [Crash] + again);
    assert s'.log[i] == s.log[i];
    Agreement.SameAnswers(cfg, r, s', i, |s'.log| - 1);
  }

  /**
   Main theorem. On an immutable tree every answer can be had again without it: after a crash
   at any later moment, mounting again and walking down to the path gives the same
   answer once more, without a remote call.
   */
  lemma SameAnswerOffline(cfg: Config, r: Tree, evs: seq<Event>, i: nat, cs: seq<string>) returns (again: seq<Event>)
    requires Ideal(cfg, r) && TruthfulRun(cfg, r, INITIAL, evs) && i < |Exec(cfg, INITIAL, evs).log|
    requires var s := Exec(cfg, INITIAL, evs);
             GivesValue(s.log[i]) && s.log[i].node.path == PathOf(cs) && (cs == [] ==> s.log[i].op in {Attr, ReadDirAll})
    requires Sheltered(cfg, cs) && !cfg.direct(PathOf(cs))
    ensures var s := Exec(cfg, INITIAL, evs);
            Serves(cfg, s, again, PathOf(cs), s.log[i].op, Some(s.log[i].reply))
  {
    var s := Exec(cfg, INITIAL, evs);
    NeverMangled(cfg, r, evs);
    again := AnsweredOffline(cfg, evs, i, cs);
    OfflineReaches(cfg, r, evs, [Crash] + again);
    ServesSame(cfg, r, s, again, i, StoredReply(cfg, s.table, s.store, PathOf(cs), s.log[i].op).value);
  }

  // ----- what is stored is what has been answered -----

  /** The handler's node is the one of the given row. */
  ghost predicate OnRow(l: Local, path: string) {
    UniquePaths(l.table) && l.node.inode in l.table && l.table[l.node.inode].path == path &&
    RowEntry(l.node.inode, l.table[l.node.inode]).Found?
  }

  /** The attributes answered by Attr are the ones that will be served after a remount. */
  lemma AttrStored(cfg: Config, l: Local, a: Answer, info: FileInfo, path: string)
    requires OnRow(l, path) && l.pc == Stating(PutInfo(info)) && !a.fault
    ensures var l' := Step(cfg, l, a);
            l'.pc == Done(AttrReply(l.node.inode, info)) && SelectFull(l'.table, path).Found? &&
            StoredReply(cfg, l'.table, l'.store, path, Attr) == Some(AttrReply(l.node.inode, info))
  {
    SelectsRow(Step(cfg, l, a).table, l.node.inode);
  }

  /** The listing answered by ReadDirAll is the one that will be served after a remount. */
  lemma ListingStored(cfg: Config, l: Local, a: Answer, path: string)
    requires OnRow(l, path) && l.table[l.node.inode].typeName == Directory
    requires l.pc == Listing(SelectEntries) && !a.fault && l.table[l.node.inode].dirEntries.Some?
    ensures var l' := Step(cfg, l, a);
            l'.pc.Done? && l'.pc.reply.EntriesReply? && SelectFull(l'.table, path).Found? &&
            StoredReply(cfg, l'.table, l'.store, path, ReadDirAll) == Some(l'.pc.reply)
  {
    SelectsRow(Step(cfg, l, a).table, l.node.inode);
  }

  /** A recorded key leads to its object after a remount exactly when the text column gives it back unchanged. */
  lemma KeyStored(cfg: Config, l: Local, a: Answer, key: string, path: string)
    requires OnRow(l, path) && l.table[l.node.inode].typeName == File
    requires StoreOK(cfg, l.store) && HasObject(cfg.cacheRoot, l.store, key)
    requires l.pc == Opening(PutHash(key)) && !a.fault
    ensures var l' := Step(cfg, l, a);
            l'.node.hash == Some(key) && SelectFull(l'.table, path).Found? &&
            (StoredReply(cfg, l'.table, l'.store, path, Open) ==
             Some(HandleReply(l.store.files[PathForKey(cfg.cacheRoot, key)]))
             <==> cfg.affinity(key) == key)
  {
    SelectsRow(Step(cfg, l, a).table, l.node.inode);
    var stored := cfg.affinity(key);
    if HasObject(cfg.cacheRoot, l.store, stored) {
      assert KeyFor(cfg, l.store.files[PathForKey(cfg.cacheRoot, stored)]) == stored;
    }
  }

  /**
   A link target survives a remount exactly when the text column gives it back unchanged:
   what is served afterwards is the column's version of the target.
   */
  lemma TargetAfterPut(cfg: Config, l: Local, a: Answer, target: string, path: string)
    requires OnRow(l, path) && l.table[l.node.inode].typeName == Symlink
    requires l.pc == Linking(PutTarget(target)) && !a.fault
    ensures var l' := Step(cfg, l, a);
            l'.pc == Done(TargetReply(target)) && SelectFull(l'.table, path).Found? &&
            (StoredReply(cfg, l'.table, l'.store, path, Readlink) == Some(TargetReply(target))
             <==> cfg.affinity(target) == target)
  {
    var l' := Step(cfg, l, a);
    SelectsRow(l'.table, l.node.inode);
  }

  /** The handler has just stored its value and answered, and the value is what the column will say. */
  ghost predicate Stores(cfg: Config, p: Proc, l: Local) {
    var stored := StoredReply(cfg, l.table, l.store, p.node.path, p.op);
    match p.pc
    case Stating(at) => at.PutInfo? ==> l.pc == Done(AttrReply(p.node.inode, at.info)) && stored == Some(l.pc.reply)
    case Listing(rd) => rd.SelectEntries? ==> l.pc.Done? && l.pc.reply.EntriesReply? && stored == Some(l.pc.reply)
    case Linking(rl) =>
      rl.PutTarget? ==>
        l.pc == Done(TargetReply(rl.target)) && (stored == Some(l.pc.reply) <==> cfg.affinity(rl.target) == rl.target)
    case Opening(o) =>
      o.PutHash? ==>
        l.node.hash == Some(o.key) && HasObject(cfg.cacheRoot, l.store, o.key) &&
        (stored == Some(HandleReply(l.store.files[PathForKey(cfg.cacheRoot, o.key)])) <==> cfg.affinity(o.key) == o.key)
    case _ => true
  }

  lemma OnItsRow(cfg: Config, s: State, pid: nat)
    requires Inv(cfg, s) && Remembered(s) && TableRooted(cfg, s.table)
    requires pid in s.procs && s.procs[pid].nid.Some? && Settled(cfg, s.procs[pid].node.path, s.procs[pid].op)
    ensures var p := s.procs[pid];
            OnRow(LocalOf(s, p), p.node.path) && Applicable(p.op, p.node) && PcOK(cfg, s.table, s.store, p.op, p.node, p.pc) &&
            (p.op.Attr? || s.table[p.node.inode].typeName == p.node.typeName)
  {
    var p := s.procs[pid];
    assert ProcOK(cfg, s.table, s.store, p) && Held(s, p);
    SettledType(cfg, s.table, s.store, p.node, p.op);
    assert RowOK(cfg, s.table, s.store, p.node.inode, s.table[p.node.inode]);
  }

  lemma StepStores(cfg: Config, l: Local, a: Answer, p: Proc)
    requires OnRow(l, p.node.path) && l.node == p.node && l.pc == p.pc && !a.fault && StoreOK(cfg, l.store)
    requires Applicable(p.op, p.node) && PcOK(cfg, l.table, l.store, p.op, p.node, p.pc) && WellFormed(l.pc)
    requires p.op.Attr? || l.table[p.node.inode].typeName == p.node.typeName
    ensures Stores(cfg, p, Step(cfg, l, a))
  {
    match p.pc
    case Stating(at) => if at.PutInfo? { AttrStored(cfg, l, a, at.info, p.node.path); }
    case Listing(rd) => if rd.SelectEntries? { ListingStored(cfg, l, a, p.node.path); }
    case Linking(rl) => if rl.PutTarget? { TargetAfterPut(cfg, l, a, rl.target, p.node.path); }
    case Opening(o) => if o.PutHash? { KeyStored(cfg, l, a, o.key, p.node.path); }
    case _ =>
  }

  lemma ActStores(cfg: Config, s: State, pid: nat, a: Answer)
    requires Inv(cfg, s) && Remembered(s) && TableRooted(cfg, s.table) && Runnable(s, pid) && !a.fault
    requires s.procs[pid].nid.Some? && Settled(cfg, s.procs[pid].node.path, s.procs[pid].op)
    ensures Stores(cfg, s.procs[pid], Step(cfg, LocalOf(s, s.procs[pid]), a))
  {
    OnItsRow(cfg, s, pid);
    StepStores(cfg, LocalOf(s, s.procs[pid]), a, s.procs[pid]);
  }

  /** The state has the handler's table and store, and its reply is in the log. */
  ghost predicate Follows(s: State, s': State, l: Local) {
    s'.table == l.table && s'.store == l.store &&
    (l.pc.Done? ==> |s'.log| == |s.log| + 1 && s'.log[|s.log|].Observed? && s'.log[|s.log|].reply == l.pc.reply)
  }

  lemma ActFollows(cfg: Config, s: State, pid: nat, a: Answer)
    requires Runnable(s, pid)
    ensures Follows(s, Next(cfg, s, Act(pid, a)), Step(cfg, LocalOf(s, s.procs[pid]), a))
  {
    var p := s.procs[pid];
    var l := Step(cfg, LocalOf(s, p), a);
    Accounting.SettledLog(s, pid, p.nid, p.op, l, Plus(s.total, p.acct, l.acct));
    ActTable(cfg, s, pid, a);
  }

  lemma AllRunnable(cfg: Config, s: State, pid: nat)
    requires Inv(cfg, s) && pid in s.procs
    ensures Runnable(s, pid)
  {
    assert ProcOK(cfg, s.table, s.store, s.procs[pid]);
  }

  /**
   In every run, when Attr, ReadDirAll, Readlink or Open has fetched a value, stores it and goes
   on to answer with it, a remount at that moment would serve the same value; for a
   link target or a hash exactly if the text column gives it back unchanged.
   */
  lemma StoredWhenAnswered(cfg: Config, evs: seq<Event>, pid: nat, a: Answer)
    requires WfConfig(cfg) && WfEvents(evs) && !a.fault
    requires var s := Exec(cfg, INITIAL, evs);
             pid in s.procs && s.procs[pid].nid.Some? && Settled(cfg, s.procs[pid].node.path, s.procs[pid].op)
    ensures var s := Exec(cfg, INITIAL, evs);
            Runnable(s, pid) &&
            var l := Step(cfg, LocalOf(s, s.procs[pid]), a);
            Follows(s, Next(cfg, s, Act(pid, a)), l) && Stores(cfg, s.procs[pid], l)
  {
    Reached(cfg, evs);
    var s := Exec(cfg, INITIAL, evs);
    AllRunnable(cfg, s, pid);
    ActStores(cfg, s, pid, a);
    ActFollows(cfg, s, pid, a);
  }
}
