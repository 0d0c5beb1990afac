/**
 What a direct node falls back on when the remote tree cannot be reached: the last
 value the node obtained, over whole runs.
 */
module Fallback {
  import opened Wrappers
  import opened DirEntries
  import opened Metadata
  import opened Content
  import opened Handlers
  import opened Runs
  import opened Accounting
  import opened Persistence

  /** The observation is of this operation on this node, and leaves it with a value. */
  predicate Tells(o: Observation, nid: nat, op: Op) {
    o.Observed? && o.nid == Some(nid) && o.op == op && (op.Open? || Answers(o.reply))
  }

  /** The latest such observation. */
  function Last(log: seq<Observation>, nid: nat, op: Op): (r: Option<Observation>)
    ensures r.Some? ==> r.value in log && Tells(r.value, nid, op)
  {
    if log == [] then None
    else if Tells(log[|log| - 1], nid, op) then Some(log[|log| - 1])
    else Last(log[..|log| - 1], nid, op)
  }

  /** The two nodes remember the same for the operation. */
  predicate Agree(op: Op, n: Node, n': Node) {
    match op
    case Attr => n'.info == n.info
    case Readlink => n'.target == n.target
    case Open => n'.hash == n.hash
    case _ => true
  }

  predicate HasHash(pc: Pc) {
    pc.Opening? && (pc.op.FindObject? || pc.op.OpenObject?)
  }

  /** A running handler has its node as it found it, except for a hash that it has stored. */
  predicate Undecided(n: Node, p: Node, pc: Pc) {
    p == n || (HasHash(pc) && p == n.(hash := p.hash))
  }

  /** Only the operation itself changes what the node remembers for it, Attr and Readlink only with an answer. */
  predicate Decided(op: Op, reply: Reply, n: Node, p: Node) {
    (p.info == n.info || (op.Attr? && reply.AttrReply?)) &&
    (p.target == n.target || (op.Readlink? && reply.TargetReply?)) &&
    (p.hash == n.hash || op.Open?)
  }

  predicate MemoryOK(op: Op, n: Node, l: Local) {
    if l.pc.Done? then Decided(op, l.pc.reply, n, l.node) else Undecided(n, l.node, l.pc)
  }

  lemma LookupMemory(cfg: Config, op: Op, l: Local, a: Answer, n: Node)
    requires l.pc.Looking? && Counted(op, l.node, l.pc, l.acct) && Undecided(n, l.node, l.pc)
    ensures MemoryOK(op, n, LookupStep(cfg, l, a, l.pc.lk))
  {
  }

  lemma SimpleMemory(cfg: Config, op: Op, l: Local, a: Answer, n: Node)
    requires (l.pc.Stating? || l.pc.Linking?) && Counted(op, l.node, l.pc, l.acct) && Undecided(n, l.node, l.pc)
    ensures MemoryOK(op, n, Step(cfg, l, a))
  {
  }

  lemma OpenMemory(cfg: Config, op: Op, l: Local, a: Answer, n: Node)
    requires l.pc.Opening? && WellFormed(l.pc) && Counted(op, l.node, l.pc, l.acct) && Undecided(n, l.node, l.pc)
    ensures MemoryOK(op, n, OpenStep(cfg, l, a, l.pc.op))
  {
  }

  lemma ReaddirMemory(op: Op, l: Local, a: Answer, n: Node)
    requires l.pc.Listing? && WellFormed(l.pc) && Counted(op, l.node, l.pc, l.acct) && Undecided(n, l.node, l.pc)
    ensures MemoryOK(op, n, ReaddirStep(l, a, l.pc.rd))
  {
  }

  lemma StepMemory(cfg: Config, op: Op, l: Local, a: Answer, n: Node)
    requires WellFormed(l.pc) && !l.pc.Done? && Counted(op, l.node, l.pc, l.acct) && Undecided(n, l.node, l.pc)
    ensures MemoryOK(op, n, Step(cfg, l, a))
  {
    match l.pc
    case Looking(_) => LookupMemory(cfg, op, l, a, n);
    case Stating(_) => SimpleMemory(cfg, op, l, a, n);
    case Linking(_) => SimpleMemory(cfg, op, l, a, n);
    case Opening(_) => OpenMemory(cfg, op, l, a, n);
    case Listing(_) => ReaddirMemory(op, l, a, n);
  }

  ghost predicate LastHolds(s: State, nid: nat, op: Op) {
    var o := Last(s.log, nid, op);
    o.Some? ==> nid < s.next && (nid in s.nodes ==> Agree(op, o.value.node, s.nodes[nid]))
  }

  ghost predicate LastWords(s: State) {
    (forall nid: nat, op: Op :: LastHolds(s, nid, op)) &&
    (forall pid :: pid in s.procs && s.procs[pid].nid.Some? && s.procs[pid].nid.value in s.nodes ==>
      var p := s.procs[pid]; Undecided(s.nodes[p.nid.value], p.node, p.pc))
  }

  lemma LastOfMore(log: seq<Observation>, o: Observation, nid: nat, op: Op)
    ensures Last(log + [o], nid, op) == if Tells(o, nid, op) then Some(o) else Last(log, nid, op)
  {
    assert (log + [o])[..|log|] == log;
  }

  // ----- runs -----

  /** The state after a handler's action. */
  lemma SettleWords(s: State, pid: nat, nid: Option<nat>, op: Op, l: Local, total: Acct)
    requires Locks(s) && LastWords(s)
    requires nid.Some? ==>
               nid.value in s.nodes &&
               (if l.pc.Done? then Decided(op, l.pc.reply, s.nodes[nid.value], l.node)
                else Undecided(s.nodes[nid.value], l.node, l.pc))
    requires nid.Some? ==> forall q :: q in s.procs && q != pid ==> s.procs[q].nid != nid
    ensures LastWords(Settle(s, pid, nid, op, l, total))
  {
    var s' := Settle(s, pid, nid, op, l, total);
    SettledNodes(s, pid, nid, op, l, total);
    SettledLog(s, pid, nid, op, l, total);
    forall k: nat, op': Op
      ensures LastHolds(s', k, op')
    {
      assert LastHolds(s, k, op');
      if l.pc.Done? {
        LastOfMore(s.log, Observed(nid, op, l.node, l.pc.reply, l.acct), k, op');
      }
    }
    forall q | q in s'.procs && s'.procs[q].nid.Some? && s'.procs[q].nid.value in s'.nodes
      ensures Undecided(s'.nodes[s'.procs[q].nid.value], s'.procs[q].node, s'.procs[q].pc)
    {
      if q != pid {
        assert s'.procs[q] == s.procs[q] && Held(s, s.procs[q]);
      }
    }
  }

  lemma KeptWords(s: State, s': State)
    requires LastWords(s) && s'.next == s.next && s'.log == s.log
    requires (s'.nodes == s.nodes && s'.procs == s.procs) || (s'.nodes == map[] && s'.procs == map[])
    ensures LastWords(s')
  {
    forall k: nat, op: Op
      ensures LastHolds(s', k, op)
    {
      assert LastHolds(s, k, op);
    }
  }

  lemma ReadWords(s: State, s': State, o: Observation)
    requires LastWords(s) && s'.next == s.next && s'.log == s.log + [o] && o.ReadObserved?
    requires s'.nodes == s.nodes && s'.procs == s.procs
    ensures LastWords(s')
  {
    forall k: nat, op: Op
      ensures LastHolds(s', k, op)
    {
      assert LastHolds(s, k, op);
      LastOfMore(s.log, o, k, op);
    }
  }

  lemma NextWords(cfg: Config, s: State, ev: Event)
    requires Remembered(s) && LastWords(s)
    ensures LastWords(Next(cfg, s, ev))
  {
    var s' := Next(cfg, s, ev);
    if s' != s {
      match ev
      case Start(pid, nid, op) =>
        var l := Begin(cfg, op, s.nodes[nid], s.table, s.store, ZERO);
        SettleWords(s, pid, Some(nid), op, l, Plus(s.total, ZERO, l.acct));
      case StartMount(pid) =>
        SettleWords(s, pid, None, Mount, Begin(cfg, Mount, MountParent(cfg), s.table, s.store, ZERO), s.total);
      case Act(pid, a) =>
        var p := s.procs[pid];
        var l := Step(cfg, LocalOf(s, p), a);
        assert Held(s, p);
        if p.nid.Some? {
          StepMemory(cfg, p.op, LocalOf(s, p), a, s.nodes[p.nid.value]);
        }
        SettleWords(s, pid, p.nid, p.op, l, Plus(s.total, p.acct, l.acct));
      case Progress(_, _) => KeptWords(s, s');
      case ReadAt(_, _, _, _) =>
        if s'.log == s.log {
          KeptWords(s, s');
        } else {
          ReadWords(s, s', s'.log[|s.log|]);
        }
      case Crash => KeptWords(s, s');
    }
  }

  lemma {:induction false} ExecWords(cfg: Config, s: State, evs: seq<Event>)
    requires Remembered(s) && LastWords(s)
    ensures Remembered(Exec(cfg, s, evs)) && LastWords(Exec(cfg, s, evs))
    decreases |evs|
  {
    if evs != [] {
      NextRemembered(cfg, s, evs[0]);
      NextWords(cfg, s, evs[0]);
      ExecWords(cfg, Next(cfg, s, evs[0]), evs[1..]);
    }
  }

  // ----- the value a failed remote call is answered with -----

  /** The remote tree does not give the handler what it asks for. */
  predicate RemoteFails(pc: Pc, a: Answer) {
    match pc
    case Stating(at) => at.CallLstat? && !a.stat.StatOk?
    case Linking(rl) => rl.CallReadlink? && a.target == None
    case Opening(o) => (o.OpenRemote? && !a.openOk) || (o.CreateTemp? && a.fault) || (o.RemoveTemp? && o.put == None)
    case _ => false
  }

  /** A failed call is answered from what the node knows. */
  lemma FailedStep(cfg: Config, op: Op, l: Local, a: Answer, n: Node)
    requires WellFormed(l.pc) && Counted(op, l.node, l.pc, l.acct) && l.node.direct && RemoteFails(l.pc, a)
    requires Agree(op, n, l.node) && n.inode == l.node.inode
    ensures var l' := Step(cfg, l, a);
            (op in {Attr, Readlink} && KnownReply(n, op).Some? ==> l'.pc == Done(KnownReply(n, op).value)) &&
            (op == Open && l.node.hash.Some? ==> l'.pc == Opening(FindObject) && l'.node == l.node)
  {
  }

  /** What the failed action does to a state whose log ends in the node's last answer. */
  ghost predicate FallsBack(s: State, pid: nat, s': State)
    requires pid in s.procs && s.procs[pid].nid.Some?
  {
    var p := s.procs[pid];
    var last := Last(s.log, p.nid.value, p.op);
    (p.op in {Attr, Readlink} && last.Some? ==>
      |s'.log| == |s.log| + 1 && s'.log[|s.log|].Observed? && s'.log[|s.log|].reply == last.value.reply) &&
    (p.op == Open ==>
      (last.Some? ==> p.node.hash == last.value.node.hash) &&
      (p.node.hash.Some? ==> pid in s'.procs && s'.procs[pid] == p.(pc := Opening(FindObject), acct := s'.procs[pid].acct)))
  }

  lemma FailedAct(cfg: Config, s: State, pid: nat, a: Answer, l: Local)
    requires Remembered(s) && LastWords(s) && Runnable(s, pid)
    requires s.procs[pid].nid.Some? && s.procs[pid].node.direct && RemoteFails(s.procs[pid].pc, a)
    requires l == Step(cfg, LocalOf(s, s.procs[pid]), a)
    ensures var p := s.procs[pid];
            FallsBack(s, pid, Settle(s, pid, p.nid, p.op, l, Plus(s.total, p.acct, l.acct)))
  {
    var p := s.procs[pid];
    var last := Last(s.log, p.nid.value, p.op);
    SettledLog(s, pid, p.nid, p.op, l, Plus(s.total, p.acct, l.acct));
    assert Held(s, p) && LastHolds(s, p.nid.value, p.op) && Counted(p.op, p.node, p.pc, p.acct);
    if last.Some? {
      assert Recorded(s, last.value);
      FailedStep(cfg, p.op, LocalOf(s, p), a, last.value.node);
    } else {
      FailedStep(cfg, p.op, LocalOf(s, p), a, p.node);
    }
  }

  /**
   In every run, a direct node whose remote call fails replies to Attr and Readlink with the
   last answer it gave, and goes on with Open from the hash its last Open left it with,
   however many failures there were in between.
   */
  lemma DirectFallsBack(cfg: Config, evs: seq<Event>, pid: nat, a: Answer)
    requires var s := Exec(cfg, INITIAL, evs);
             Runnable(s, pid) && s.procs[pid].nid.Some? && s.procs[pid].node.direct && RemoteFails(s.procs[pid].pc, a)
    ensures FallsBack(Exec(cfg, INITIAL, evs), pid, Next(cfg, Exec(cfg, INITIAL, evs), Act(pid, a)))
  {
    ExecWords(cfg, INITIAL, evs);
    var s := Exec(cfg, INITIAL, evs);
    FailedAct(cfg, s, pid, a, Step(cfg, LocalOf(s, s.procs[pid]), a));
  }
}
