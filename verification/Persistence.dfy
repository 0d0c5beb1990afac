/**
 What one cached node remembers during a mount: its answers are fixed by the
 first success.
 */
module Persistence {
  import opened Wrappers
  import opened DirEntries
  import opened Metadata
  import opened Content
  import opened Handlers
  import opened Runs
  import opened Accounting
  import Paths
  import Safety

  /** The node keeps its identity, and a cached node also everything it knows. */
  predicate Later(n: Node, n': Node) {
    n'.path == n.path && n'.below == n.below && n'.inode == n.inode && n'.direct == n.direct && n'.typeName == n.typeName &&
    (!n.direct ==>
      (n.info.Some? ==> n'.info == n.info) && (n.entries.Some? ==> n'.entries == n.entries) &&
      (n.hash.Some? ==> n'.hash == n.hash) && (n.target.Some? ==> n'.target == n.target) &&
      forall name :: name in n.rows ==> name in n'.rows && n'.rows[name] == n.rows[name])
  }

  /** A handler of a cached node is past its first action only if the node did not know the answer. */
  predicate Needed(node: Node, pc: Pc) {
    node.direct ||
    match pc
    case Looking(lk) => lk.EnsureRow? || lk.name !in node.rows
    case Stating(_) => node.info == None
    case Linking(_) => node.target == None
    case Opening(o) => o.FindObject? || o.OpenObject? || node.hash == None
    case Listing(_) => node.entries == None
    case Done(_) => true
  }

  predicate Mounting(pc: Pc) {
    pc.Looking? && pc.lk.EnsureRow?
  }

  lemma BeginNeeded(cfg: Config, op: Op, node: Node, t: Table, st: Store)
    ensures var l := Begin(cfg, op, node, t, st, ZERO);
            l.node == node && Needed(node, l.pc)
  {
  }

  lemma ResolveLater(cfg: Config, l: Local, name: string, row: CachedRow)
    requires l.node.direct || name !in l.node.rows
    ensures Later(l.node, Resolve(cfg, l, name, row).node)
  {
  }

  /** Asking and storing leave the node alone and go on with the same name. */
  lemma LookupKeepsNode(cfg: Config, l: Local, a: Answer)
    requires l.pc.Looking? && !l.pc.lk.Query? && !l.pc.lk.Reload? && !l.pc.lk.EnsureRow?
    ensures var l' := LookupStep(cfg, l, a, l.pc.lk);
            l'.node == l.node &&
            (l'.pc.Done? || (l'.pc.Looking? && !l'.pc.lk.EnsureRow? && l'.pc.lk.name == l.pc.lk.name))
  {
  }

  lemma LookupStepLater(cfg: Config, l: Local, a: Answer)
    requires l.pc.Looking? && Needed(l.node, l.pc)
    ensures var l' := LookupStep(cfg, l, a, l.pc.lk);
            Later(l.node, l'.node) && (l.pc.lk.EnsureRow? || Needed(l'.node, l'.pc)) && !Mounting(l'.pc)
  {
    match l.pc.lk
    case Query(name) =>
      if SelectFull(l.table, Paths.Join(l.node.path, name)).Found? {
        ResolveLater(cfg, CountHit(l), name, SelectFull(l.table, Paths.Join(l.node.path, name)).row);
      }
    case Reload(name) =>
      if SelectFull(l.table, Paths.Join(l.node.path, name)).Found? {
        ResolveLater(cfg, l, name, SelectFull(l.table, Paths.Join(l.node.path, name)).row);
      }
    case EnsureRow(_, _) =>
    case _ => LookupKeepsNode(cfg, l, a);
  }

  lemma SimpleStepsLater(cfg: Config, l: Local, a: Answer)
    requires (l.pc.Stating? || l.pc.Linking?) && Needed(l.node, l.pc)
    ensures var l' := Step(cfg, l, a);
            Later(l.node, l'.node) && Needed(l'.node, l'.pc) && !Mounting(l'.pc)
  {
  }

  lemma OpenStepLater(cfg: Config, l: Local, a: Answer)
    requires l.pc.Opening? && WellFormed(l.pc) && Needed(l.node, l.pc)
    ensures var l' := OpenStep(cfg, l, a, l.pc.op);
            Later(l.node, l'.node) && Needed(l'.node, l'.pc) && !Mounting(l'.pc)
  {
    if l.pc.op.OpenRemote? || l.pc.op.PutHash? || l.pc.op.FindObject? || l.pc.op.OpenObject? {
      OpenEndsLater(cfg, l, a);
    } else {
      PutStepLater(cfg, l, a);
    }
  }

  lemma OpenEndsLater(cfg: Config, l: Local, a: Answer)
    requires l.pc.Opening? && (l.pc.op.OpenRemote? || l.pc.op.PutHash? || l.pc.op.FindObject? || l.pc.op.OpenObject?)
    requires Needed(l.node, l.pc)
    ensures var l' := OpenStep(cfg, l, a, l.pc.op);
            Later(l.node, l'.node) && Needed(l'.node, l'.pc) && !Mounting(l'.pc)
  {
  }

  lemma PutStepLater(cfg: Config, l: Local, a: Answer)
    requires l.pc.Opening? && !l.pc.op.OpenRemote? && !l.pc.op.PutHash? && !l.pc.op.FindObject? && !l.pc.op.OpenObject?
    requires WellFormed(l.pc) && Needed(l.node, l.pc)
    ensures var l' := OpenStep(cfg, l, a, l.pc.op);
            l'.node == l.node && Needed(l'.node, l'.pc) && !Mounting(l'.pc)
  {
  }

  lemma ReaddirStepLater(l: Local, a: Answer)
    requires l.pc.Listing? && WellFormed(l.pc) && Needed(l.node, l.pc)
    ensures var l' := ReaddirStep(l, a, l.pc.rd);
            Later(l.node, l'.node) && Needed(l'.node, l'.pc) && !Mounting(l'.pc)
  {
  }

  lemma StepLater(cfg: Config, l: Local, a: Answer)
    requires WellFormed(l.pc) && Needed(l.node, l.pc)
    ensures var l' := Step(cfg, l, a);
            Later(l.node, l'.node) && (Mounting(l.pc) || (Needed(l'.node, l'.pc) && !Mounting(l'.pc)))
  {
    match l.pc
    case Looking(_) => LookupStepLater(cfg, l, a);
    case Stating(_) => SimpleStepsLater(cfg, l, a);
    case Linking(_) => SimpleStepsLater(cfg, l, a);
    case Opening(_) => OpenStepLater(cfg, l, a);
    case Listing(_) => ReaddirStepLater(l, a);
    case Done(_) =>
  }

  // ----- runs -----

  ghost predicate Held(s: State, p: Proc) {
    p.nid.Some? ==>
      p.nid.value in s.nodes && Later(s.nodes[p.nid.value], p.node) && Needed(p.node, p.pc) && !Mounting(p.pc) &&
      Applicable(p.op, p.node)
  }

  /** One handler per node, each working on a later version of its node. */
  ghost predicate Locks(s: State) {
    (forall nid :: nid in s.nodes ==> nid < s.next) &&
    (forall pid :: pid in s.procs ==> Held(s, s.procs[pid])) &&
    (forall p, q :: p in s.procs && q in s.procs && p != q && s.procs[p].nid.Some? ==> s.procs[p].nid != s.procs[q].nid)
  }

  /** Nodes that are still there are later versions of themselves. */
  ghost predicate NodesLater(s: State, s': State) {
    s.next <= s'.next && forall nid :: nid in s.nodes && nid in s'.nodes ==> Later(s.nodes[nid], s'.nodes[nid])
  }

  /** Node numbers are never used again, so a node that is gone stays gone. */
  ghost predicate NoneReturn(s: State, s': State) {
    forall nid :: nid < s.next && nid in s'.nodes ==> nid in s.nodes
  }

  ghost predicate Succeeded(s: State, s': State) {
    Locks(s') && NodesLater(s, s') && NoneReturn(s, s')
  }

  lemma SettleLocks(s: State, pid: nat, nid: Option<nat>, op: Op, l: Local, total: Acct)
    requires Locks(s)
    requires nid.Some? ==> nid.value in s.nodes && Later(s.nodes[nid.value], l.node) && Needed(l.node, l.pc)
                           && !Mounting(l.pc) && Applicable(op, l.node)
    requires nid.Some? ==> forall q :: q in s.procs && q != pid ==> s.procs[q].nid != nid
    ensures Succeeded(s, Settle(s, pid, nid, op, l, total))
  {
    var s' := Settle(s, pid, nid, op, l, total);
    SettledNodes(s, pid, nid, op, l, total);
    forall q | q in s'.procs
      ensures Held(s', s'.procs[q])
    {
      if q != pid {
        assert s'.procs[q] == s.procs[q] && Held(s, s.procs[q]);
      }
    }
  }

  /** Only the handler's own node changes, and a new one may be added. */
  lemma SettledNodes(s: State, pid: nat, nid: Option<nat>, op: Op, l: Local, total: Acct)
    requires (forall n :: n in s.nodes ==> n < s.next) && (nid.Some? ==> nid.value in s.nodes)
    ensures var s' := Settle(s, pid, nid, op, l, total);
            s.next <= s'.next && (forall n :: n in s'.nodes ==> n < s'.next) &&
            (forall n :: n in s.nodes ==>
              n in s'.nodes && s'.nodes[n] == if l.pc.Done? && nid == Some(n) then l.node else s.nodes[n]) &&
            (forall n :: n in s'.nodes && n < s.next ==> n in s.nodes) &&
            s'.procs == if l.pc.Done? then s.procs - {pid} else s.procs[pid := Proc(nid, op, l.node, l.pc, l.acct)]
  {
    if l.pc.Done? {
      Safety.Finished(s, pid, nid, op, l, total);
    }
  }

  lemma StartLocks(cfg: Config, s: State, pid: nat, nid: nat, op: Op, total: Acct)
    requires Locks(s) && nid in s.nodes && Unlocked(s, nid) && Applicable(op, s.nodes[nid])
    ensures Succeeded(s, Settle(s, pid, Some(nid), op, Begin(cfg, op, s.nodes[nid], s.table, s.store, ZERO), total))
  {
    BeginNeeded(cfg, op, s.nodes[nid], s.table, s.store);
    SettleLocks(s, pid, Some(nid), op, Begin(cfg, op, s.nodes[nid], s.table, s.store, ZERO), total);
  }

  lemma ActLocks(cfg: Config, s: State, pid: nat, a: Answer, total: Acct)
    requires Locks(s) && Runnable(s, pid)
    ensures var p := s.procs[pid];
            Succeeded(s, Settle(s, pid, p.nid, p.op, Step(cfg, LocalOf(s, p), a), total))
  {
    var p := s.procs[pid];
    if p.nid.Some? {
      assert Held(s, p);
      StepLater(cfg, LocalOf(s, p), a);
      LaterTwice(s.nodes[p.nid.value], p.node, Step(cfg, LocalOf(s, p), a).node);
    }
    SettleLocks(s, pid, p.nid, p.op, Step(cfg, LocalOf(s, p), a), total);
  }

  lemma LaterTwice(n: Node, n': Node, n'': Node)
    requires Later(n, n') && Later(n', n'')
    ensures Later(n, n'')
  {
  }

  lemma OtherLocks(cfg: Config, s: State, ev: Event)
    requires Locks(s) && (ev.Progress? || ev.ReadAt? || ev.Crash?)
    ensures Succeeded(s, Next(cfg, s, ev))
  {
    if ev.Crash? {
      DropsAll(s, Next(cfg, s, ev));
    } else {
      KeepsAll(s, Next(cfg, s, ev));
    }
  }

  lemma KeepsAll(s: State, s': State)
    requires Locks(s) && s'.nodes == s.nodes && s'.procs == s.procs && s'.next == s.next
    ensures Succeeded(s, s')
  {
    forall pid | pid in s'.procs
      ensures Held(s', s'.procs[pid])
    {
      assert Held(s, s.procs[pid]);
    }
  }

  lemma DropsAll(s: State, s': State)
    requires Locks(s) && s'.nodes == map[] && s'.procs == map[] && s'.next == s.next
    ensures Succeeded(s, s')
  {
  }

  lemma StaysSucceeded(s: State)
    requires Locks(s)
    ensures Succeeded(s, s)
  {
  }

  lemma NextLocks(cfg: Config, s: State, ev: Event)
    requires Locks(s)
    ensures Succeeded(s, Next(cfg, s, ev))
  {
    if Next(cfg, s, ev) == s {
      StaysSucceeded(s);
    } else {
      match ev
      case Start(pid, nid, op) =>
        StartLocks(cfg, s, pid, nid, op,
                   Plus(s.total, ZERO, Begin(cfg, op, s.nodes[nid], s.table, s.store, ZERO).acct));
      case StartMount(pid) =>
        SettleLocks(s, pid, None, Mount, Begin(cfg, Mount, MountParent(cfg), s.table, s.store, ZERO), s.total);
      case Act(pid, a) =>
        ActLocks(cfg, s, pid, a, Plus(s.total, s.procs[pid].acct, Step(cfg, LocalOf(s, s.procs[pid]), a).acct));
      case Progress(_, _) => OtherLocks(cfg, s, ev);
      case ReadAt(_, _, _, _) => OtherLocks(cfg, s, ev);
      case Crash => OtherLocks(cfg, s, ev);
    }
  }

  lemma {:induction false} ExecLocks(cfg: Config, s: State, evs: seq<Event>)
    requires Locks(s)
    ensures Succeeded(s, Exec(cfg, s, evs))
    decreases |evs|
  {
    if evs != [] {
      var s1 := Next(cfg, s, evs[0]);
      NextLocks(cfg, s, evs[0]);
      ExecLocks(cfg, s1, evs[1..]);
      var s' := Exec(cfg, s, evs);
      forall nid | nid in s.nodes && nid in s'.nodes
        ensures Later(s.nodes[nid], s'.nodes[nid])
      {
        assert nid in s1.nodes;
        assert Later(s.nodes[nid], s1.nodes[nid]) && Later(s1.nodes[nid], s'.nodes[nid]);
      }
    }
  }

  lemma ReachableLocks(cfg: Config, evs: seq<Event>)
    ensures Locks(Exec(cfg, INITIAL, evs))
  {
    ExecLocks(cfg, INITIAL, evs);
  }

  // ----- the first answer of a node is its last word -----

  /** The answer a node knows, if it knows one. */
  function KnownReply(node: Node, op: Op): Option<Reply> {
    match op
    case Attr => if node.info.Some? then Some(AttrReply(node.inode, node.info.value)) else None
    case Readlink => if node.target.Some? then Some(TargetReply(node.target.value)) else None
    case ReadDirAll => if node.entries.Some? then Some(EntriesReply(Dirents(node.entries.value))) else None
    case _ => None
  }

  predicate Queries(op: Op) {
    op.Attr? || op.Readlink? || op.ReadDirAll?
  }

  predicate Answers(reply: Reply) {
    reply.AttrReply? || reply.TargetReply? || reply.EntriesReply?
  }

  lemma KnownStays(n: Node, n': Node, op: Op)
    requires Later(n, n') && !n.direct && KnownReply(n, op).Some?
    ensures KnownReply(n', op) == KnownReply(n, op)
  {
  }

  /** An answer given by an action is remembered by the node, which did not know one before. */
  lemma StepRemembers(cfg: Config, op: Op, l: Local, a: Answer)
    requires WellFormed(l.pc) && !l.pc.Done? && Counted(op, l.node, l.pc, l.acct) && Needed(l.node, l.pc) && Queries(op)
    ensures !l.node.direct ==> KnownReply(l.node, op) == None
    ensures var l' := Step(cfg, l, a);
            l'.pc.Done? && Answers(l'.pc.reply) ==> KnownReply(l'.node, op) == Some(l'.pc.reply)
  {
    assert Dirents(map[]) == {};
  }

  lemma BeginAnswers(cfg: Config, op: Op, node: Node, t: Table, st: Store)
    requires Queries(op)
    ensures var l := Begin(cfg, op, node, t, st, ZERO);
            if !node.direct && KnownReply(node, op).Some?
            then l.pc == Done(KnownReply(node, op).value) && l.acct == Acct(1, 0, 0, 0)
            else !l.pc.Done?
  {
  }

  /** The two observations are of the same cached node and operation, and the first one has an answer. */
  predicate Repeats(o: Observation, o': Observation) {
    o.Observed? && o'.Observed? && o.nid.Some? && o'.nid == o.nid && o'.op == o.op && Queries(o.op) &&
    !o.node.direct && Answers(o.reply)
  }

  predicate SameHit(o: Observation, o': Observation)
    requires o.Observed? && o'.Observed?
  {
    o'.reply == o.reply && o'.acct == Acct(1, 0, 0, 0)
  }

  ghost predicate Recorded(s: State, o: Observation) {
    o.Observed? && o.nid.Some? ==>
      o.nid.value < s.next && Applicable(o.op, o.node) &&
      (o.nid.value in s.nodes ==> Later(o.node, s.nodes[o.nid.value])) &&
      (Queries(o.op) && Answers(o.reply) ==> KnownReply(o.node, o.op) == Some(o.reply))
  }

  ghost predicate History(s: State) {
    (forall i :: 0 <= i < |s.log| ==> Recorded(s, s.log[i])) &&
    (forall i, j :: 0 <= i < j < |s.log| && Repeats(s.log[i], s.log[j]) ==> SameHit(s.log[i], s.log[j]))
  }

  lemma RecordedLater(s: State, s': State, o: Observation)
    requires Recorded(s, o) && NodesLater(s, s') && NoneReturn(s, s')
    ensures Recorded(s', o)
  {
    if o.Observed? && o.nid.Some? && o.nid.value in s'.nodes {
      var n := o.nid.value;
      assert n in s.nodes;
      assert Later(o.node, s.nodes[n]) && Later(s.nodes[n], s'.nodes[n]);
    }
  }

  /** A new observation that is recorded and does not contradict the old ones. */
  lemma HistoryGoesOn(s: State, s': State, o: Observation)
    requires History(s) && NodesLater(s, s') && NoneReturn(s, s') && Recorded(s', o)
    requires s'.log == s.log + [o]
    requires forall i :: 0 <= i < |s.log| && Repeats(s.log[i], o) ==> SameHit(s.log[i], o)
    ensures History(s')
  {
    forall i | 0 <= i < |s'.log|
      ensures Recorded(s', s'.log[i])
    {
      if i < |s.log| {
        RecordedLater(s, s', s.log[i]);
      }
    }
  }

  lemma HistoryKeeps(s: State, s': State)
    requires History(s) && NodesLater(s, s') && NoneReturn(s, s') && s'.log == s.log
    ensures History(s')
  {
    forall i | 0 <= i < |s.log|
      ensures Recorded(s', s.log[i])
    {
      RecordedLater(s, s', s.log[i]);
    }
  }

  /** Earlier answers of the node are still what it knows. */
  lemma EarlierAnswer(s: State, i: nat, o: Observation)
    requires History(s) && i < |s.log| && Repeats(s.log[i], o) && o.nid.value in s.nodes
    ensures KnownReply(s.nodes[o.nid.value], o.op) == Some(s.log[i].reply)
  {
    assert Recorded(s, s.log[i]);
    KnownStays(s.log[i].node, s.nodes[o.nid.value], o.op);
  }

  lemma StartHistory(cfg: Config, s: State, pid: nat, nid: nat, op: Op, s': State)
    requires Locks(s) && History(s) && nid in s.nodes && s' == Next(cfg, s, Start(pid, nid, op)) && s' != s
    requires Succeeded(s, s')
    ensures History(s')
  {
    var node := s.nodes[nid];
    var l := Begin(cfg, op, node, s.table, s.store, ZERO);
    BeginNeeded(cfg, op, node, s.table, s.store);
    SettledLog(s, pid, Some(nid), op, l, Plus(s.total, ZERO, l.acct));
    if l.pc.Done? {
      var o := Observed(Some(nid), op, node, l.pc.reply, l.acct);
      if Queries(op) {
        BeginAnswers(cfg, op, node, s.table, s.store);
      }
      forall i | 0 <= i < |s.log| && Repeats(s.log[i], o)
        ensures SameHit(s.log[i], o)
      {
        EarlierAnswer(s, i, o);
      }
      HistoryGoesOn(s, s', o);
    } else {
      HistoryKeeps(s, s');
    }
  }

  lemma ActHistory(cfg: Config, s: State, pid: nat, a: Answer, s': State)
    requires Locks(s) && History(s) && Books(s) && Runnable(s, pid) && s' == Next(cfg, s, Act(pid, a))
    requires Succeeded(s, s') && !s.procs[pid].pc.Done?
    ensures History(s')
  {
    var p := s.procs[pid];
    var l := Step(cfg, LocalOf(s, p), a);
    SettledLog(s, pid, p.nid, p.op, l, Plus(s.total, p.acct, l.acct));
    if l.pc.Done? {
      var o := Observed(p.nid, p.op, l.node, l.pc.reply, l.acct);
      assert Held(s, p);
      assert Counted(p.op, p.node, p.pc, p.acct);
      if p.nid.Some? && Queries(p.op) {
        StepLater(cfg, LocalOf(s, p), a);
        StepRemembers(cfg, p.op, LocalOf(s, p), a);
      }
      forall i | 0 <= i < |s.log|
        ensures !Repeats(s.log[i], o)
      {
        if Repeats(s.log[i], o) {
          EarlierAnswer(s, i, o);
          KnownStays(s.nodes[p.nid.value], p.node, p.op);
          assert false;
        }
      }
      HistoryGoesOn(s, s', o);
    } else {
      HistoryKeeps(s, s');
    }
  }

  ghost predicate Remembered(s: State) {
    Locks(s) && Books(s) && History(s) && NoneDone(s)
  }

  lemma MountHistory(cfg: Config, s: State, pid: nat, s': State)
    requires History(s) && s' == Next(cfg, s, StartMount(pid)) && Succeeded(s, s')
    ensures History(s')
  {
    HistoryKeeps(s, s');
  }

  lemma ReadHistory(cfg: Config, s: State, ev: Event, s': State)
    requires History(s) && ev.ReadAt? && s' == Next(cfg, s, ev) && Succeeded(s, s')
    ensures History(s')
  {
    if s'.log == s.log {
      HistoryKeeps(s, s');
    } else {
      HistoryGoesOn(s, s', s'.log[|s.log|]);
    }
  }

  lemma NextHistory(cfg: Config, s: State, ev: Event, s': State)
    requires Remembered(s) && s' == Next(cfg, s, ev) && Succeeded(s, s')
    ensures History(s')
  {
    if s' != s {
      match ev
      case Start(pid, nid, op) => StartHistory(cfg, s, pid, nid, op, s');
      case StartMount(pid) => MountHistory(cfg, s, pid, s');
      case Act(pid, a) => ActHistory(cfg, s, pid, a, s');
      case Progress(_, _) => HistoryKeeps(s, s');
      case ReadAt(_, _, _, _) => ReadHistory(cfg, s, ev, s');
      case Crash => HistoryKeeps(s, s');
    }
  }

  lemma NextRemembered(cfg: Config, s: State, ev: Event)
    requires Remembered(s)
    ensures Remembered(Next(cfg, s, ev))
  {
    NextLocks(cfg, s, ev);
    NextBooks(cfg, s, ev);
    NextNoneDone(cfg, s, ev);
    NextHistory(cfg, s, ev, Next(cfg, s, ev));
  }

  lemma {:induction false} ExecRemembered(cfg: Config, s: State, evs: seq<Event>)
    requires Remembered(s)
    ensures Remembered(Exec(cfg, s, evs))
    decreases |evs|
  {
    if evs != [] {
      NextRemembered(cfg, s, evs[0]);
      ExecRemembered(cfg, Next(cfg, s, evs[0]), evs[1..]);
    }
  }

  /**
   After the first answer of a cached node to Attr, Readlink or ReadDirAll, every later call
   on that node gives the same answer, as a hit and without a remote call, whatever the
   remote tree does meanwhile.
   */
  lemma FirstAnswerStays(cfg: Config, evs: seq<Event>, i: nat, j: nat)
    requires i < j < |Exec(cfg, INITIAL, evs).log|
    requires Repeats(Exec(cfg, INITIAL, evs).log[i], Exec(cfg, INITIAL, evs).log[j])
    ensures var log := Exec(cfg, INITIAL, evs).log;
            log[j].reply == log[i].reply && log[j].acct == Acct(1, 0, 0, 0)
  {
    ExecRemembered(cfg, INITIAL, evs);
    assert SameHit(Exec(cfg, INITIAL, evs).log[i], Exec(cfg, INITIAL, evs).log[j]);
  }
}
