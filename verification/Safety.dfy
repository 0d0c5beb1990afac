/**
 Safety over whole runs under an arbitrary remote tree: the invariants of
 Structure hold in every reachable state, through interleavings, failures,
 crashes and remounts.
 */
module Safety {
  import opened Wrappers
  import opened DirEntries
  import opened Metadata
  import opened Content
  import opened Handlers
  import opened Paths
  import opened Structure
  import opened StructureSteps
  import opened Runs

  predicate WfEvent(ev: Event) {
    ev.Act? ==> WfAnswer(ev.answer)
  }

  predicate WfEvents(evs: seq<Event>) {
    forall i :: 0 <= i < |evs| ==> WfEvent(evs[i])
  }

  ghost predicate NodesOK(cfg: Config, t: Table, st: Store, nodes: map<nat, Node>) {
    forall nid :: nid in nodes ==> NodeOK(cfg, t, st, nodes[nid])
  }

  ghost predicate ProcOK(cfg: Config, t: Table, st: Store, p: Proc) {
    !p.pc.Done? && WellFormed(p.pc) && (p.op.Lookup? ==> ProperName(p.op.name)) && (p.nid == None <==> p.op.Mount?) &&
    HolderOK(cfg, t, st, p.op, p.node) && PcOK(cfg, t, st, p.op, p.node, p.pc)
  }

  ghost predicate ProcsOK(cfg: Config, t: Table, st: Store, procs: map<nat, Proc>) {
    forall pid :: pid in procs ==> ProcOK(cfg, t, st, procs[pid])
  }

  /** No two handlers share a temporary file. */
  predicate TempsApart(procs: map<nat, Proc>) {
    forall p, q :: p in procs && q in procs && p != q && TempOf(procs[p].pc).Some? ==>
      TempOf(procs[p].pc) != TempOf(procs[q].pc)
  }

  ghost predicate ObservationOK(cfg: Config, t: Table, st: Store, o: Observation) {
    o.Observed? ==>
      HolderOK(cfg, t, st, o.op, o.node) && (o.op.Lookup? ==> ProperName(o.op.name)) && (o.nid == None <==> o.op.Mount?) &&
      ReplyOK(cfg, t, st, o.op, o.node, o.reply)
  }

  ghost predicate LogOK(cfg: Config, t: Table, st: Store, log: seq<Observation>) {
    forall i :: 0 <= i < |log| ==> ObservationOK(cfg, t, st, log[i])
  }

  ghost predicate Inv(cfg: Config, s: State) {
    TableOK(cfg, s.table, s.store) && StoreOK(cfg, s.store) &&
    NodesOK(cfg, s.table, s.store, s.nodes) && ProcsOK(cfg, s.table, s.store, s.procs) && TempsApart(s.procs) &&
    LogOK(cfg, s.table, s.store, s.log)
  }

  lemma InitialOK(cfg: Config)
    ensures Inv(cfg, INITIAL)
  {
  }

  // ----- the parts of the state a handler does not touch -----

  lemma NodesStable(cfg: Config, t: Table, st: Store, t': Table, st': Store, own: Option<string>, nodes: map<nat, Node>)
    requires Grows(cfg, t, t') && StoreGrows(cfg, st, st', own) && NodesOK(cfg, t, st, nodes)
    ensures NodesOK(cfg, t', st', nodes)
  {
    forall nid | nid in nodes
      ensures NodeOK(cfg, t', st', nodes[nid])
    {
      NodeStable(cfg, t, st, t', st', own, nodes[nid]);
    }
  }

  lemma ProcsStable(cfg: Config, t: Table, st: Store, t': Table, st': Store, own: Option<string>, procs: map<nat, Proc>)
    requires Grows(cfg, t, t') && StoreGrows(cfg, st, st', own) && ProcsOK(cfg, t, st, procs)
    requires own.Some? ==> forall pid :: pid in procs ==> TempOf(procs[pid].pc) != own
    ensures ProcsOK(cfg, t', st', procs)
  {
    forall pid | pid in procs
      ensures ProcOK(cfg, t', st', procs[pid])
    {
      var p := procs[pid];
      HolderStable(cfg, t, st, t', st', own, p.op, p.node);
      PcStable(cfg, t, st, t', st', own, p.op, p.node, p.pc);
    }
  }

  lemma LogStable(cfg: Config, t: Table, st: Store, t': Table, st': Store, own: Option<string>, log: seq<Observation>)
    requires Grows(cfg, t, t') && StoreGrows(cfg, st, st', own) && LogOK(cfg, t, st, log)
    ensures LogOK(cfg, t', st', log)
  {
    forall i | 0 <= i < |log|
      ensures ObservationOK(cfg, t', st', log[i])
    {
      var o := log[i];
      if o.Observed? {
        HolderStable(cfg, t, st, t', st', own, o.op, o.node);
        ReplyStable(cfg, t, st, t', st', own, o.op, o.node, o.reply);
      }
    }
  }

  /** Temporary files of running handlers have been handed out. */
  lemma TempUsed(cfg: Config, t: Table, st: Store, p: Proc)
    requires ProcOK(cfg, t, st, p) && TempOf(p.pc).Some?
    ensures TempOf(p.pc).value in st.used
  {
  }

  // ----- one event -----

  /** The invariant holds again, the table and the objects only grew, and the log went on. */
  ghost predicate Advances(cfg: Config, s: State, s': State) {
    Inv(cfg, s') && Grows(cfg, s.table, s'.table) && ObjectsStay(cfg, s.store, s'.store) && s.log <= s'.log
  }

  ghost predicate ObjectsStay(cfg: Config, st: Store, st': Store) {
    forall k :: HasObject(cfg.cacheRoot, st, k) ==> HasObject(cfg.cacheRoot, st', k)
  }

  /** What a handler's action owes to the rest of the state. */
  ghost predicate Fits(cfg: Config, s: State, pid: nat, nid: Option<nat>, op: Op, l: Local, own: Option<string>) {
    LocalOK(cfg, op, l) &&
    (op.Lookup? ==> ProperName(op.name)) && (nid == None <==> op.Mount?) &&
    Grows(cfg, s.table, l.table) && StoreGrows(cfg, s.store, l.store, own) &&
    (own.Some? ==> forall q :: q in s.procs && q != pid ==> TempOf(s.procs[q].pc) != own) &&
    (TempOf(l.pc).Some? ==> TempOf(l.pc) == own || TempOf(l.pc).value !in s.store.used)
  }

  lemma OthersStable(cfg: Config, s: State, pid: nat, nid: Option<nat>, op: Op, l: Local, own: Option<string>)
    requires Inv(cfg, s) && Fits(cfg, s, pid, nid, op, l, own)
    ensures NodesOK(cfg, l.table, l.store, s.nodes)
    ensures ProcsOK(cfg, l.table, l.store, s.procs - {pid}) && TempsApart(s.procs - {pid})
    ensures LogOK(cfg, l.table, l.store, s.log)
  {
    NodesStable(cfg, s.table, s.store, l.table, l.store, own, s.nodes);
    ProcsStable(cfg, s.table, s.store, l.table, l.store, own, s.procs - {pid});
    LogStable(cfg, s.table, s.store, l.table, l.store, own, s.log);
  }

  lemma RunsOn(cfg: Config, s: State, pid: nat, nid: Option<nat>, op: Op, l: Local, total: Acct, own: Option<string>)
    requires Inv(cfg, s) && Fits(cfg, s, pid, nid, op, l, own) && !l.pc.Done?
    ensures Advances(cfg, s, Settle(s, pid, nid, op, l, total))
  {
    OthersStable(cfg, s, pid, nid, op, l, own);
    var others := s.procs - {pid};
    forall q | q in others && TempOf(l.pc).Some?
      ensures TempOf(s.procs[q].pc) != TempOf(l.pc)
    {
      if TempOf(s.procs[q].pc).Some? {
        TempUsed(cfg, s.table, s.store, s.procs[q]);
      }
    }
    SettleProcs(cfg, l.table, l.store, s.procs, pid, Proc(nid, op, l.node, l.pc, l.acct));
  }

  lemma AddNode(cfg: Config, t: Table, st: Store, nodes: map<nat, Node>, nid: nat, node: Node)
    requires NodesOK(cfg, t, st, nodes) && NodeOK(cfg, t, st, node)
    ensures NodesOK(cfg, t, st, nodes[nid := node])
  {
  }

  lemma FinishedNodes(cfg: Config, l: Local, op: Op, nodes: map<nat, Node>, nid: Option<nat>, next: nat)
    requires LocalOK(cfg, op, l) && l.pc.Done? && (nid == None <==> op.Mount?)
    requires NodesOK(cfg, l.table, l.store, nodes)
    ensures var nodes' := if nid.Some? then nodes[nid.value := l.node] else nodes;
            NodesOK(cfg, l.table, l.store, nodes') &&
            (l.pc.reply.NodeReply? ==> NodesOK(cfg, l.table, l.store, nodes'[next := l.pc.reply.node]))
  {
    var nodes' := if nid.Some? then nodes[nid.value := l.node] else nodes;
    if nid.Some? {
      AddNode(cfg, l.table, l.store, nodes, nid.value, l.node);
    }
    if l.pc.reply.NodeReply? {
      AddNode(cfg, l.table, l.store, nodes', next, l.pc.reply.node);
    }
  }

  lemma AddObservation(cfg: Config, t: Table, st: Store, log: seq<Observation>, o: Observation)
    requires LogOK(cfg, t, st, log) && ObservationOK(cfg, t, st, o)
    ensures LogOK(cfg, t, st, log + [o])
  {
  }

  /** The state after a reply, part by part. */
  lemma Finished(s: State, pid: nat, nid: Option<nat>, op: Op, l: Local, total: Acct)
    requires l.pc.Done?
    ensures var s' := Settle(s, pid, nid, op, l, total);
            var nodes' := if nid.Some? then s.nodes[nid.value := l.node] else s.nodes;
            s'.table == l.table && s'.store == l.store && s'.procs == s.procs - {pid} &&
            s'.next == (if l.pc.reply.NodeReply? || l.pc.reply.HandleReply? then s.next + 1 else s.next) &&
            s'.log == s.log + [Observed(nid, op, l.node, l.pc.reply, l.acct)] &&
            s'.nodes == if l.pc.reply.NodeReply? then nodes'[s.next := l.pc.reply.node] else nodes'
  {
  }

  lemma Finishes(cfg: Config, s: State, pid: nat, nid: Option<nat>, op: Op, l: Local, total: Acct, own: Option<string>)
    requires Inv(cfg, s) && Fits(cfg, s, pid, nid, op, l, own) && l.pc.Done?
    ensures Advances(cfg, s, Settle(s, pid, nid, op, l, total))
  {
    OthersStable(cfg, s, pid, nid, op, l, own);
    AddObservation(cfg, l.table, l.store, s.log, Observed(nid, op, l.node, l.pc.reply, l.acct));
    FinishedNodes(cfg, l, op, s.nodes, nid, s.next);
    Finished(s, pid, nid, op, l, total);
  }

  lemma SettleOK(cfg: Config, s: State, pid: nat, nid: Option<nat>, op: Op, l: Local, total: Acct, own: Option<string>)
    requires Inv(cfg, s) && Fits(cfg, s, pid, nid, op, l, own)
    ensures Advances(cfg, s, Settle(s, pid, nid, op, l, total))
  {
    if l.pc.Done? {
      Finishes(cfg, s, pid, nid, op, l, total, own);
    } else {
      RunsOn(cfg, s, pid, nid, op, l, total, own);
    }
  }

  lemma SettleProcs(cfg: Config, t: Table, st: Store, procs: map<nat, Proc>, pid: nat, p: Proc)
    requires ProcsOK(cfg, t, st, procs - {pid}) && TempsApart(procs) && ProcOK(cfg, t, st, p)
    requires TempOf(p.pc).Some? ==> forall q :: q in procs - {pid} ==> TempOf(procs[q].pc) != TempOf(p.pc)
    ensures ProcsOK(cfg, t, st, procs[pid := p]) && TempsApart(procs[pid := p])
  {
    var procs' := procs[pid := p];
    forall q | q in procs'
      ensures ProcOK(cfg, t, st, procs'[q])
    {
      if q != pid {
        assert q in procs - {pid};
      }
    }
    forall q | q in procs && q != pid
      ensures TempOf(p.pc).Some? ==> TempOf(procs[q].pc) != TempOf(p.pc)
    {
      assert q in procs - {pid};
    }
  }

  lemma BeginOK(cfg: Config, op: Op, node: Node, t: Table, st: Store)
    requires WfConfig(cfg) && TableOK(cfg, t, st) && StoreOK(cfg, st) && NodeOK(cfg, t, st, node) && Applicable(op, node)
    ensures var l := Begin(cfg, op, node, t, st, ZERO);
            LocalOK(cfg, op, l) && l.table == t && l.store == st && TempOf(l.pc) == None
  {
    match op
    case Lookup(name) =>
      ChildSlot(cfg, node, name);
      if !node.direct && name in node.rows {
        NodeForOK(cfg, t, st, op, node, name, node.rows[name]);
      }
    case ReadDirAll =>
      if node.entries.Some? {
        DirentsOfEntries(t, node.path, node.entries.value);
      }
    case _ =>
  }

  lemma StartFits(cfg: Config, s: State, pid: nat, nid: nat, op: Op)
    requires WfConfig(cfg) && Inv(cfg, s) && nid in s.nodes && Applicable(op, s.nodes[nid])
    ensures Fits(cfg, s, pid, Some(nid), op, Begin(cfg, op, s.nodes[nid], s.table, s.store, ZERO), None)
  {
    BeginOK(cfg, op, s.nodes[nid], s.table, s.store);
    FitsAtOnce(cfg, s, pid, Some(nid), op, Begin(cfg, op, s.nodes[nid], s.table, s.store, ZERO));
  }

  /** A handler that has not acted yet. */
  lemma FitsAtOnce(cfg: Config, s: State, pid: nat, nid: Option<nat>, op: Op, l: Local)
    requires LocalOK(cfg, op, l) && l.table == s.table && l.store == s.store && TempOf(l.pc) == None
    requires (op.Lookup? ==> ProperName(op.name)) && (nid == None <==> op.Mount?)
    ensures Fits(cfg, s, pid, nid, op, l, None)
  {
  }

  lemma StartOK(cfg: Config, s: State, pid: nat, nid: nat, op: Op, total: Acct)
    requires WfConfig(cfg) && Inv(cfg, s) && nid in s.nodes && Applicable(op, s.nodes[nid])
    ensures var l := Begin(cfg, op, s.nodes[nid], s.table, s.store, ZERO);
            Advances(cfg, s, Settle(s, pid, Some(nid), op, l, total))
  {
    StartFits(cfg, s, pid, nid, op);
    SettleOK(cfg, s, pid, Some(nid), op, Begin(cfg, op, s.nodes[nid], s.table, s.store, ZERO), total, None);
  }

  lemma MountOK(cfg: Config, s: State, pid: nat)
    requires WfConfig(cfg) && Inv(cfg, s)
    ensures var l := Begin(cfg, Mount, MountParent(cfg), s.table, s.store, ZERO);
            Advances(cfg, s, Settle(s, pid, None, Mount, l, s.total))
  {
    var l := Begin(cfg, Mount, MountParent(cfg), s.table, s.store, ZERO);
    assert Fits(cfg, s, pid, None, Mount, l, None);
    SettleOK(cfg, s, pid, None, Mount, l, s.total, None);
  }

  lemma ActOK(cfg: Config, s: State, pid: nat, a: Answer, total: Acct)
    requires WfConfig(cfg) && Inv(cfg, s) && WfAnswer(a) && pid in s.procs && WellFormed(s.procs[pid].pc)
    ensures var p := s.procs[pid];
            Advances(cfg, s, Settle(s, pid, p.nid, p.op, Step(cfg, LocalOf(s, p), a), total))
  {
    var p := s.procs[pid];
    assert ProcOK(cfg, s.table, s.store, p);
    StepOK(cfg, p.op, LocalOf(s, p), a);
    assert Fits(cfg, s, pid, p.nid, p.op, Step(cfg, LocalOf(s, p), a), TempOf(p.pc));
    SettleOK(cfg, s, pid, p.nid, p.op, Step(cfg, LocalOf(s, p), a), total, TempOf(p.pc));
  }

  lemma StaysOK(cfg: Config, s: State, s': State)
    requires Inv(cfg, s) && s'.table == s.table && s'.store == s.store
    requires s'.nodes == s.nodes || s'.nodes == map[]
    requires s'.procs == s.procs || s'.procs == map[]
    requires s'.log == s.log || (|s'.log| == |s.log| + 1 && s.log <= s'.log && s'.log[|s.log|].ReadObserved?)
    ensures Advances(cfg, s, s')
  {
  }

  lemma ProgressOK(cfg: Config, s: State, pid: nat, data: Bytes)
    requires WfConfig(cfg) && Inv(cfg, s) && pid in s.procs && Fetching(s.procs[pid].pc)
    ensures Advances(cfg, s, s.(store := s.store.Write(s.procs[pid].pc.op.temp, data)))
  {
    var p := s.procs[pid];
    var temp := p.pc.op.temp;
    var st := s.store.Write(temp, data);
    assert ProcOK(cfg, s.table, s.store, p);
    WriteOK(cfg, s.store, temp, data);
    TableStable(cfg, s.table, s.store, st, Some(temp));
    NodesStable(cfg, s.table, s.store, s.table, st, Some(temp), s.nodes);
    LogStable(cfg, s.table, s.store, s.table, st, Some(temp), s.log);
    forall q | q in s.procs
      ensures ProcOK(cfg, s.table, st, s.procs[q])
    {
      HolderStable(cfg, s.table, s.store, s.table, st, Some(temp), s.procs[q].op, s.procs[q].node);
      if q != pid {
        PcStable(cfg, s.table, s.store, s.table, st, Some(temp), s.procs[q].op, s.procs[q].node, s.procs[q].pc);
      }
    }
  }

  lemma NextStart(cfg: Config, s: State, ev: Event)
    requires WfConfig(cfg) && Inv(cfg, s) && ev.Start?
    ensures Advances(cfg, s, Next(cfg, s, ev))
  {
    var Start(pid, nid, op) := ev;
    if pid in s.procs || nid !in s.nodes || !Applicable(op, s.nodes[nid]) || !Unlocked(s, nid) {
      StaysOK(cfg, s, s);
    } else {
      StartOK(cfg, s, pid, nid, op, Plus(s.total, ZERO, Begin(cfg, op, s.nodes[nid], s.table, s.store, ZERO).acct));
    }
  }

  lemma NextAct(cfg: Config, s: State, ev: Event)
    requires WfConfig(cfg) && Inv(cfg, s) && ev.Act? && WfEvent(ev)
    ensures Advances(cfg, s, Next(cfg, s, ev))
  {
    var Act(pid, a) := ev;
    if !Runnable(s, pid) {
      StaysOK(cfg, s, s);
    } else {
      ActOK(cfg, s, pid, a, Plus(s.total, s.procs[pid].acct, Step(cfg, LocalOf(s, s.procs[pid]), a).acct));
    }
  }

  lemma NextOther(cfg: Config, s: State, ev: Event)
    requires WfConfig(cfg) && Inv(cfg, s) && !ev.Start? && !ev.Act?
    ensures Advances(cfg, s, Next(cfg, s, ev))
  {
    match ev
    case StartMount(pid) =>
      if pid in s.procs {
        StaysOK(cfg, s, s);
      } else {
        MountOK(cfg, s, pid);
      }
    case Progress(pid, data) =>
      if pid !in s.procs || !Fetching(s.procs[pid].pc) {
        StaysOK(cfg, s, s);
      } else {
        ProgressOK(cfg, s, pid, data);
      }
    case _ => NextQuiet(cfg, s, ev);
  }

  lemma NextQuiet(cfg: Config, s: State, ev: Event)
    requires Inv(cfg, s) && (ev.ReadAt? || ev.Crash?)
    ensures Advances(cfg, s, Next(cfg, s, ev))
  {
    QuietNext(cfg, s, ev);
    StaysOK(cfg, s, Next(cfg, s, ev));
  }

  lemma QuietNext(cfg: Config, s: State, ev: Event)
    requires ev.ReadAt? || ev.Crash?
    ensures var s' := Next(cfg, s, ev);
            s'.table == s.table && s'.store == s.store && (s'.nodes == s.nodes || s'.nodes == map[]) &&
            (s'.procs == s.procs || s'.procs == map[]) &&
            (s'.log == s.log || (|s'.log| == |s.log| + 1 && s.log <= s'.log && s'.log[|s.log|].ReadObserved?))
  {
  }

  /** One event keeps the invariant; the table and the objects only grow. */
  lemma NextOK(cfg: Config, s: State, ev: Event)
    requires WfConfig(cfg) && Inv(cfg, s) && WfEvent(ev)
    ensures Advances(cfg, s, Next(cfg, s, ev))
  {
    if ev.Start? {
      NextStart(cfg, s, ev);
    } else if ev.Act? {
      NextAct(cfg, s, ev);
    } else {
      NextOther(cfg, s, ev);
    }
  }

  lemma AdvancesTransitive(cfg: Config, s: State, s': State, s'': State)
    requires Advances(cfg, s, s') && Advances(cfg, s', s'')
    ensures Advances(cfg, s, s'')
  {
    GrowsTransitive(cfg, s.table, s'.table, s''.table);
  }

  /** Whole runs. */
  lemma {:induction false} ExecOK(cfg: Config, s: State, evs: seq<Event>)
    requires WfConfig(cfg) && Inv(cfg, s) && WfEvents(evs)
    ensures Advances(cfg, s, Exec(cfg, s, evs))
    decreases |evs|
  {
    if evs != [] {
      assert WfEvent(evs[0]);
      NextOK(cfg, s, evs[0]);
      ExecOK(cfg, Next(cfg, s, evs[0]), evs[1..]);
      AdvancesTransitive(cfg, s, Next(cfg, s, evs[0]), Exec(cfg, s, evs));
    }
  }

  lemma ReachableOK(cfg: Config, evs: seq<Event>)
    requires WfConfig(cfg) && WfEvents(evs)
    ensures Inv(cfg, Exec(cfg, INITIAL, evs))
  {
    InitialOK(cfg);
    ExecOK(cfg, INITIAL, evs);
  }
}
