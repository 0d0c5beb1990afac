/**
 Transparency over whole runs: when the remote tree does not change, every
 successful reply of every operation is what the tree itself says, for any mix of
 cached and direct paths, any interleaving, any failures, crashes and remounts.
 */
module Transparency {
  import opened Wrappers
  import opened DirEntries
  import opened Metadata
  import opened Content
  import opened Handlers
  import opened Paths
  import opened Structure
  import opened StructureSteps
  import opened Runs
  import opened Safety
  import opened Remote
  import opened TruthSteps

  // ----- the invariant -----

  ghost predicate NodesTrue(cfg: Config, r: Tree, nodes: map<nat, Node>) {
    forall nid :: nid in nodes ==> NodeTrue(cfg, r, nodes[nid])
  }

  ghost predicate ProcTrue(cfg: Config, r: Tree, st: Store, p: Proc) {
    HolderTrue(cfg, r, p.op, p.node) && PcTrue(cfg, r, st, p.op, p.node, p.pc)
  }

  ghost predicate ProcsTrue(cfg: Config, r: Tree, st: Store, procs: map<nat, Proc>) {
    forall pid :: pid in procs ==> ProcTrue(cfg, r, st, procs[pid])
  }

  ghost predicate HandlesTrue(r: Tree, handles: map<nat, Handle>) {
    forall hid :: hid in handles ==> ContentTrue(r, handles[hid].node.below, handles[hid].data)
  }

  ghost predicate ObservationTrue(cfg: Config, r: Tree, o: Observation) {
    match o
    case Observed(_, op, node, reply, _) => HolderTrue(cfg, r, op, node) && ReplyTrue(cfg, r, op, node, reply)
    case ReadObserved(node, offset, size, data) =>
      node.below in r && r[node.below].RemoteFile? && data == Slice(r[node.below].content, offset, size)
  }

  ghost predicate LogTrue(cfg: Config, r: Tree, log: seq<Observation>) {
    forall i :: 0 <= i < |log| ==> ObservationTrue(cfg, r, log[i])
  }

  ghost predicate Truth(cfg: Config, r: Tree, s: State) {
    TableTrue(cfg, r, s.table) && StoreTrue(cfg, r, s.store) &&
    NodesTrue(cfg, r, s.nodes) && ProcsTrue(cfg, r, s.store, s.procs) &&
    HandlesTrue(r, s.handles) && LogTrue(cfg, r, s.log)
  }

  // ----- runs on an immutable tree -----

  /** Answers that come from the tree are true; any call may fail instead. */
  ghost predicate TruthfulEvent(r: Tree, s: State, ev: Event) {
    ev.Act? && ev.pid in s.procs ==> Truthful(r, LocalOf(s, s.procs[ev.pid]), ev.answer)
  }

  ghost predicate TruthfulRun(cfg: Config, r: Tree, s: State, evs: seq<Event>)
    decreases |evs|
  {
    evs == [] ||
    (WfEvent(evs[0]) && TruthfulEvent(r, s, evs[0]) && TruthfulRun(cfg, r, Next(cfg, s, evs[0]), evs[1..]))
  }

  lemma {:induction false} TruthfulRunWf(cfg: Config, r: Tree, s: State, evs: seq<Event>)
    requires TruthfulRun(cfg, r, s, evs)
    ensures WfEvents(evs)
    decreases |evs|
  {
    if evs != [] {
      TruthfulRunWf(cfg, r, Next(cfg, s, evs[0]), evs[1..]);
      forall i | 0 <= i < |evs|
        ensures WfEvent(evs[i])
      {
        if i > 0 {
          assert evs[i] == evs[1..][i - 1];
        }
      }
    }
  }

  // ----- preservation -----

  /** Other handlers' temporary files are not touched, so what is true of them stays true. */
  lemma OthersTrue(cfg: Config, r: Tree, s: State, pid: nat, nid: Option<nat>, op: Op, l: Local, own: Option<string>)
    requires Inv(cfg, s) && ProcsTrue(cfg, r, s.store, s.procs) && Fits(cfg, s, pid, nid, op, l, own)
    ensures ProcsTrue(cfg, r, l.store, s.procs - {pid})
  {
    forall q | q in s.procs - {pid}
      ensures ProcTrue(cfg, r, l.store, s.procs[q])
    {
      var p := s.procs[q];
      assert ProcOK(cfg, s.table, s.store, p);
      if TempOf(p.pc).Some? {
        TempUsed(cfg, s.table, s.store, p);
      }
      FileKept(cfg, r, s.store, l.store, own, p);
    }
  }

  lemma FileKept(cfg: Config, r: Tree, st: Store, st': Store, own: Option<string>, p: Proc)
    requires StoreGrows(cfg, st, st', own) && (own.Some? ==> TempOf(p.pc) != own)
    requires TempOf(p.pc).Some? ==> TempOf(p.pc).value in st.used
    requires ProcTrue(cfg, r, st, p)
    ensures ProcTrue(cfg, r, st', p)
  {
  }

  lemma RunsOnTrue(cfg: Config, r: Tree, s: State, pid: nat, nid: Option<nat>, op: Op, l: Local, total: Acct,
                   own: Option<string>)
    requires Inv(cfg, s) && Truth(cfg, r, s) && Fits(cfg, s, pid, nid, op, l, own) && LocalTrue(cfg, r, op, l)
    requires !l.pc.Done?
    ensures Truth(cfg, r, Settle(s, pid, nid, op, l, total))
  {
    OthersTrue(cfg, r, s, pid, nid, op, l, own);
    var procs' := s.procs[pid := Proc(nid, op, l.node, l.pc, l.acct)];
    forall q | q in procs'
      ensures ProcTrue(cfg, r, l.store, procs'[q])
    {
      if q != pid {
        assert q in s.procs - {pid};
      }
    }
  }

  lemma FinishesTrue(cfg: Config, r: Tree, s: State, pid: nat, nid: Option<nat>, op: Op, l: Local, total: Acct,
                     own: Option<string>)
    requires Inv(cfg, s) && Truth(cfg, r, s) && Fits(cfg, s, pid, nid, op, l, own) && LocalTrue(cfg, r, op, l)
    requires l.pc.Done?
    ensures Truth(cfg, r, Settle(s, pid, nid, op, l, total))
  {
    OthersTrue(cfg, r, s, pid, nid, op, l, own);
    FinishedTrue(cfg, r, s, pid, nid, op, l, total);
  }

  lemma FinishedTrue(cfg: Config, r: Tree, s: State, pid: nat, nid: Option<nat>, op: Op, l: Local, total: Acct)
    requires Truth(cfg, r, s) && LocalTrue(cfg, r, op, l) && l.pc.Done? && (nid == None <==> op.Mount?)
    requires ProcsTrue(cfg, r, l.store, s.procs - {pid})
    ensures Truth(cfg, r, Settle(s, pid, nid, op, l, total))
  {
    Finished(s, pid, nid, op, l, total);
    assert ObservationTrue(cfg, r, Observed(nid, op, l.node, l.pc.reply, l.acct));
    assert nid.Some? ==> NodeTrue(cfg, r, l.node);
  }

  lemma SettleTrue(cfg: Config, r: Tree, s: State, pid: nat, nid: Option<nat>, op: Op, l: Local, total: Acct,
                   own: Option<string>)
    requires Inv(cfg, s) && Truth(cfg, r, s) && Fits(cfg, s, pid, nid, op, l, own) && LocalTrue(cfg, r, op, l)
    ensures Truth(cfg, r, Settle(s, pid, nid, op, l, total))
  {
    if l.pc.Done? {
      FinishesTrue(cfg, r, s, pid, nid, op, l, total, own);
    } else {
      RunsOnTrue(cfg, r, s, pid, nid, op, l, total, own);
    }
  }

  lemma BeginTrue(cfg: Config, r: Tree, op: Op, node: Node, t: Table, st: Store)
    requires WfConfig(cfg) && NodeOK(cfg, t, st, node) && Applicable(op, node)
    requires TableTrue(cfg, r, t) && StoreTrue(cfg, r, st) && NodeTrue(cfg, r, node)
    ensures LocalTrue(cfg, r, op, Begin(cfg, op, node, t, st, ZERO))
  {
    match op
    case Lookup(name) =>
      ChildSlot(cfg, node, name);
      if name in node.rows {
        NodeForTrue(cfg, r, op, node, name, node.rows[name]);
      }
    case ReadDirAll =>
      if node.entries.Some? {
        DirentsOfTrue(r, node.below, node.entries.value);
      }
    case _ =>
  }

  lemma StartTrue(cfg: Config, r: Tree, s: State, pid: nat, nid: nat, op: Op, total: Acct)
    requires WfConfig(cfg) && Inv(cfg, s) && Truth(cfg, r, s) && nid in s.nodes && Applicable(op, s.nodes[nid])
    ensures var l := Begin(cfg, op, s.nodes[nid], s.table, s.store, ZERO);
            Truth(cfg, r, Settle(s, pid, Some(nid), op, l, total))
  {
    BeginTrue(cfg, r, op, s.nodes[nid], s.table, s.store);
    StartFits(cfg, s, pid, nid, op);
    SettleTrue(cfg, r, s, pid, Some(nid), op, Begin(cfg, op, s.nodes[nid], s.table, s.store, ZERO), total, None);
  }

  lemma MountTrue(cfg: Config, r: Tree, s: State, pid: nat)
    requires WfConfig(cfg) && Inv(cfg, s) && Truth(cfg, r, s)
    ensures var l := Begin(cfg, Mount, MountParent(cfg), s.table, s.store, ZERO);
            Truth(cfg, r, Settle(s, pid, None, Mount, l, s.total))
  {
    var l := Begin(cfg, Mount, MountParent(cfg), s.table, s.store, ZERO);
    assert Fits(cfg, s, pid, None, Mount, l, None);
    SettleTrue(cfg, r, s, pid, None, Mount, l, s.total, None);
  }

  lemma ActTrue(cfg: Config, r: Tree, s: State, pid: nat, a: Answer, total: Acct)
    requires Ideal(cfg, r) && Inv(cfg, s) && Truth(cfg, r, s) && WfAnswer(a)
    requires pid in s.procs && WellFormed(s.procs[pid].pc) && Truthful(r, LocalOf(s, s.procs[pid]), a)
    ensures var p := s.procs[pid];
            Truth(cfg, r, Settle(s, pid, p.nid, p.op, Step(cfg, LocalOf(s, p), a), total))
  {
    var p := s.procs[pid];
    assert ProcOK(cfg, s.table, s.store, p) && ProcTrue(cfg, r, s.store, p);
    StepOK(cfg, p.op, LocalOf(s, p), a);
    StepTrue(cfg, r, p.op, LocalOf(s, p), a);
    assert Fits(cfg, s, pid, p.nid, p.op, Step(cfg, LocalOf(s, p), a), TempOf(p.pc));
    SettleTrue(cfg, r, s, pid, p.nid, p.op, Step(cfg, LocalOf(s, p), a), total, TempOf(p.pc));
  }

  lemma StaysTrue(cfg: Config, r: Tree, s: State, ev: Event)
    requires Truth(cfg, r, s) && (ev.ReadAt? || ev.Crash?)
    ensures Truth(cfg, r, Next(cfg, s, ev))
  {
    if ev.ReadAt? {
      ReadAtTrue(cfg, r, s, ev);
    }
  }

  lemma ReadAtTrue(cfg: Config, r: Tree, s: State, ev: Event)
    requires Truth(cfg, r, s) && ev.ReadAt?
    ensures Truth(cfg, r, Next(cfg, s, ev))
  {
    if Next(cfg, s, ev).log != s.log {
      var h := s.handles[ev.hid];
      assert ContentTrue(r, h.node.below, h.data);
      assert ObservationTrue(cfg, r, ReadObserved(h.node, ev.offset, ev.size, Slice(h.data, ev.offset, ev.size)));
    }
  }

  lemma ProgressTrue(cfg: Config, r: Tree, s: State, pid: nat, data: Bytes)
    requires WfConfig(cfg) && Inv(cfg, s) && Truth(cfg, r, s) && pid in s.procs && Fetching(s.procs[pid].pc)
    ensures Truth(cfg, r, s.(store := s.store.Write(s.procs[pid].pc.op.temp, data)))
  {
    var temp := s.procs[pid].pc.op.temp;
    var st := s.store.Write(temp, data);
    assert ProcOK(cfg, s.table, s.store, s.procs[pid]);
    FileTrue(cfg, r, s.store, st, temp);
    WriteOK(cfg, s.store, temp, data);
    forall q | q in s.procs
      ensures ProcTrue(cfg, r, st, s.procs[q])
    {
      assert ProcOK(cfg, s.table, s.store, s.procs[q]) && ProcTrue(cfg, r, s.store, s.procs[q]);
      if q != pid {
        if TempOf(s.procs[q].pc).Some? {
          TempUsed(cfg, s.table, s.store, s.procs[q]);
        }
        FileKept(cfg, r, s.store, st, Some(temp), s.procs[q]);
      }
    }
  }

  lemma NextTrue(cfg: Config, r: Tree, s: State, ev: Event)
    requires Ideal(cfg, r) && Inv(cfg, s) && Truth(cfg, r, s) && WfEvent(ev) && TruthfulEvent(r, s, ev)
    ensures Truth(cfg, r, Next(cfg, s, ev))
  {
    if Next(cfg, s, ev) != s {
      match ev
      case Start(pid, nid, op) =>
        StartTrue(cfg, r, s, pid, nid, op,
                  Plus(s.total, ZERO, Begin(cfg, op, s.nodes[nid], s.table, s.store, ZERO).acct));
      case StartMount(pid) => MountTrue(cfg, r, s, pid);
      case Act(pid, a) =>
        ActTrue(cfg, r, s, pid, a, Plus(s.total, s.procs[pid].acct, Step(cfg, LocalOf(s, s.procs[pid]), a).acct));
      case Progress(pid, data) => ProgressTrue(cfg, r, s, pid, data);
      case ReadAt(_, _, _, _) => StaysTrue(cfg, r, s, ev);
      case Crash => StaysTrue(cfg, r, s, ev);
    }
  }

  lemma {:induction false} ExecTrue(cfg: Config, r: Tree, s: State, evs: seq<Event>)
    requires Ideal(cfg, r) && Inv(cfg, s) && Truth(cfg, r, s) && TruthfulRun(cfg, r, s, evs)
    ensures Inv(cfg, Exec(cfg, s, evs)) && Truth(cfg, r, Exec(cfg, s, evs))
    decreases |evs|
  {
    if evs != [] {
      NextOK(cfg, s, evs[0]);
      NextTrue(cfg, r, s, evs[0]);
      ExecTrue(cfg, r, Next(cfg, s, evs[0]), evs[1..]);
    }
  }

  // ----- what a user sees -----

  /** The type column's value for an object of the tree. */
  predicate KindIs(o: Object, typeName: TypeName) {
    match o
    case RemoteFile(_, _) => typeName == File
    case RemoteDir(_) => typeName == Directory
    case RemoteLink(_, _) => typeName == Symlink
  }

  /** The reply is what the remote tree itself says about the path; errors claim nothing. */
  ghost predicate Honest(r: Tree, op: Op, node: Node, reply: Reply) {
    match reply
    case Error => true
    case NoEnt => op.Lookup? ==> Join(node.below, op.name) !in r
    case NoKey => false
    case Panic => false
    case NodeReply(n) =>
      (op.Lookup? ==> n.below == Join(node.below, op.name)) &&
      n.below in r && KindIs(r[n.below], n.typeName)
    case AttrReply(inode, info) => inode == node.inode && node.below in r && info == r[node.below].info
    case EntriesReply(ds) => DirentsTrue(r, node.below, ds)
    case TargetReply(target) => TargetTrue(r, node.below, target)
    case HandleReply(data) => ContentTrue(r, node.below, data)
  }

  ghost predicate HonestObservation(r: Tree, o: Observation) {
    match o
    case Observed(_, op, node, reply, _) => Honest(r, op, node, reply)
    case ReadObserved(node, offset, size, data) =>
      node.below in r && r[node.below].RemoteFile? && IsPart(data, r[node.below].content, offset, size)
  }

  /** No key of an object is mangled when the tree's own keys are stored faithfully. */
  lemma NotMangled(cfg: Config, r: Tree, st: Store)
    requires Ideal(cfg, r) && StoreOK(cfg, st) && StoreTrue(cfg, r, st)
    ensures !Mangled(cfg, st)
  {
    forall k | HasObject(cfg.cacheRoot, st, k)
      ensures cfg.affinity(k) == k
    {
      var data := st.files[PathForKey(cfg.cacheRoot, k)];
      assert data in Contents(r);
      var p :| p in r && r[p].RemoteFile? && r[p].content == data;
    }
  }

  lemma TrueIsHonest(cfg: Config, r: Tree, t: Table, st: Store, o: Observation)
    requires Ideal(cfg, r) && StoreOK(cfg, st) && StoreTrue(cfg, r, st)
    requires ObservationOK(cfg, t, st, o) && ObservationTrue(cfg, r, o)
    ensures HonestObservation(r, o)
  {
    NotMangled(cfg, r, st);
    if o.Observed? {
      assert o.op.Lookup? ==> Seeks(o.op, o.op.name);
    }
  }

  /**
   Main theorem. In every run on an immutable tree, every reply ever given, by any
   operation, before or after any crash, is what the tree says.
   */
  lemma TransparentRuns(cfg: Config, r: Tree, evs: seq<Event>, i: nat)
    requires Ideal(cfg, r) && TruthfulRun(cfg, r, INITIAL, evs)
    requires i < |Exec(cfg, INITIAL, evs).log|
    ensures HonestObservation(r, Exec(cfg, INITIAL, evs).log[i])
  {
    var s := Exec(cfg, INITIAL, evs);
    InitialOK(cfg);
    ExecTrue(cfg, r, INITIAL, evs);
    TrueIsHonest(cfg, r, s.table, s.store, s.log[i]);
  }
}
