/**
 The statistics over whole runs: which operations count as a hit, a miss or
 direct, and how that relates to the calls made on the remote tree.
 */
module Accounting {
  import opened Wrappers
  import opened DirEntries
  import opened Metadata
  import opened Content
  import opened Handlers
  import opened Runs
  import Paths

  /** Counted once, as direct or as a miss according to the node, with at least one remote call. */
  predicate Asked(node: Node, acct: Acct) {
    acct.hit == 0 && acct.remote >= 1 &&
    (if node.direct then acct.direct == 1 && acct.miss == 0 else acct.miss == 1 && acct.direct == 0)
  }

  /** Counted once as a hit, which only a cached node can have. */
  predicate HitOnce(node: Node, acct: Acct) {
    !node.direct && acct == Acct(1, 0, 0, 0)
  }

  predicate LookupCounted(op: Op, node: Node, lk: LookupPc, acct: Acct) {
    match lk
    case Query(name) => op == Lookup(name) && acct == ZERO
    case AskDirect(_, _) => op.Lookup? && acct == ZERO
    case AskMiss(_) => op.Lookup? && acct == ZERO
    case EnsureRow(_, _) => op.Mount? && acct == ZERO
    case _ => if op.Mount? then acct == ZERO else op.Lookup? && Asked(node, acct)
  }

  /** What a finished operation has counted. */
  predicate ReplyCounted(op: Op, node: Node, reply: Reply, acct: Acct) {
    match op
    case Mount => acct == ZERO
    case Lookup(name) =>
      HitOnce(node, acct) || Asked(node, acct) ||
      (acct == ZERO && (reply.Error? || reply.Panic? || (!node.direct && name in node.rows)))
    case _ => HitOnce(node, acct) || Asked(node, acct)
  }

  predicate Counted(op: Op, node: Node, pc: Pc, acct: Acct) {
    match pc
    case Looking(lk) => LookupCounted(op, node, lk, acct)
    case Stating(at) => op.Attr? && (if at.CallLstat? then acct == ZERO else Asked(node, acct))
    case Linking(rl) => op.Readlink? && (if rl.CallReadlink? then acct == ZERO else Asked(node, acct))
    case Opening(o) =>
      op.Open? &&
      (if o.OpenRemote? then acct == ZERO
       else if o.FindObject? || o.OpenObject? then HitOnce(node, acct) || Asked(node, acct)
       else Asked(node, acct))
    case Listing(rd) => op.ReadDirAll? && (if rd.OpenDir? then acct == ZERO else Asked(node, acct))
    case Done(reply) => ReplyCounted(op, node, reply, acct)
  }

  /** Counting an operation as direct or as a miss comes with a remote call. */
  predicate Covers(before: Acct, after: Acct) {
    after.miss + after.direct - before.miss - before.direct <= after.remote - before.remote
  }

  lemma BeginCounted(cfg: Config, op: Op, node: Node, t: Table, st: Store)
    ensures var l := Begin(cfg, op, node, t, st, ZERO);
            l.node == node && Counted(op, node, l.pc, l.acct) && Covers(ZERO, l.acct)
    ensures var l := Begin(cfg, op, node, t, st, ZERO);
            op.Lookup? && !node.direct && op.name in node.rows ==> l.pc.Done? && l.acct == ZERO
  {
  }

  lemma AskCounted(cfg: Config, op: Op, l: Local, a: Answer)
    requires l.pc.Looking? && (l.pc.lk.AskDirect? || l.pc.lk.AskMiss?) && Counted(op, l.node, l.pc, l.acct)
    ensures var l' := LookupStep(cfg, l, a, l.pc.lk);
            Counted(op, l'.node, l'.pc, l'.acct) && Covers(l.acct, l'.acct)
  {
  }

  lemma QueryCounted(cfg: Config, op: Op, l: Local, a: Answer)
    requires l.pc.Looking? && (l.pc.lk.Query? || l.pc.lk.EnsureRow? || l.pc.lk.Reload?)
    requires Counted(op, l.node, l.pc, l.acct)
    ensures var l' := LookupStep(cfg, l, a, l.pc.lk);
            Counted(op, l'.node, l'.pc, l'.acct) && Covers(l.acct, l'.acct)
  {
  }

  lemma LookupStepCounted(cfg: Config, op: Op, l: Local, a: Answer)
    requires l.pc.Looking? && Counted(op, l.node, l.pc, l.acct)
    ensures var l' := LookupStep(cfg, l, a, l.pc.lk);
            Counted(op, l'.node, l'.pc, l'.acct) && Covers(l.acct, l'.acct)
  {
    if l.pc.lk.AskDirect? || l.pc.lk.AskMiss? {
      AskCounted(cfg, op, l, a);
    } else if l.pc.lk.Query? || l.pc.lk.EnsureRow? || l.pc.lk.Reload? {
      QueryCounted(cfg, op, l, a);
    }
  }

  lemma SimpleStepsCounted(cfg: Config, op: Op, l: Local, a: Answer)
    requires (l.pc.Stating? || l.pc.Linking?) && Counted(op, l.node, l.pc, l.acct)
    ensures var l' := Step(cfg, l, a);
            Counted(op, l'.node, l'.pc, l'.acct) && Covers(l.acct, l'.acct)
  {
  }

  lemma OpenStepCounted(cfg: Config, op: Op, l: Local, a: Answer)
    requires l.pc.Opening? && WellFormed(l.pc) && Counted(op, l.node, l.pc, l.acct)
    ensures var l' := OpenStep(cfg, l, a, l.pc.op);
            Counted(op, l'.node, l'.pc, l'.acct) && Covers(l.acct, l'.acct)
  {
    if l.pc.op.OpenRemote? || l.pc.op.FindObject? || l.pc.op.OpenObject? {
      OpenEndsCounted(cfg, op, l, a);
    } else {
      PutStepCounted(cfg, op, l, a);
    }
  }

  lemma OpenEndsCounted(cfg: Config, op: Op, l: Local, a: Answer)
    requires l.pc.Opening? && (l.pc.op.OpenRemote? || l.pc.op.FindObject? || l.pc.op.OpenObject?)
    requires Counted(op, l.node, l.pc, l.acct)
    ensures var l' := OpenStep(cfg, l, a, l.pc.op);
            Counted(op, l'.node, l'.pc, l'.acct) && Covers(l.acct, l'.acct)
  {
  }

  lemma PutStepCounted(cfg: Config, op: Op, l: Local, a: Answer)
    requires l.pc.Opening? && !l.pc.op.OpenRemote? && !l.pc.op.FindObject? && !l.pc.op.OpenObject?
    requires WellFormed(l.pc) && Counted(op, l.node, l.pc, l.acct)
    ensures var l' := OpenStep(cfg, l, a, l.pc.op);
            Counted(op, l'.node, l'.pc, l'.acct) && Covers(l.acct, l'.acct)
  {
  }

  lemma ReaddirStepCounted(op: Op, l: Local, a: Answer)
    requires l.pc.Listing? && WellFormed(l.pc) && Counted(op, l.node, l.pc, l.acct)
    ensures var l' := ReaddirStep(l, a, l.pc.rd);
            Counted(op, l'.node, l'.pc, l'.acct) && Covers(l.acct, l'.acct)
  {
  }

  lemma StepCounted(cfg: Config, op: Op, l: Local, a: Answer)
    requires WellFormed(l.pc) && Counted(op, l.node, l.pc, l.acct)
    ensures var l' := Step(cfg, l, a);
            Counted(op, l'.node, l'.pc, l'.acct) && Covers(l.acct, l'.acct)
  {
    match l.pc
    case Looking(_) => LookupStepCounted(cfg, op, l, a);
    case Stating(_) => SimpleStepsCounted(cfg, op, l, a);
    case Linking(_) => SimpleStepsCounted(cfg, op, l, a);
    case Opening(_) => OpenStepCounted(cfg, op, l, a);
    case Listing(_) => ReaddirStepCounted(op, l, a);
    case Done(_) =>
  }

  // ----- runs -----

  ghost predicate Books(s: State) {
    (forall pid :: pid in s.procs ==> var p := s.procs[pid]; Counted(p.op, p.node, p.pc, p.acct)) &&
    (forall i :: 0 <= i < |s.log| && s.log[i].Observed? ==>
      var o := s.log[i]; ReplyCounted(o.op, o.node, o.reply, o.acct)) &&
    s.total.miss + s.total.direct <= s.total.remote
  }

  lemma SettleBooks(s: State, pid: nat, nid: Option<nat>, op: Op, l: Local, total: Acct)
    requires Books(s) && Counted(op, l.node, l.pc, l.acct) && total.miss + total.direct <= total.remote
    ensures Books(Settle(s, pid, nid, op, l, total))
  {
    var s' := Settle(s, pid, nid, op, l, total);
    if l.pc.Done? {
      assert s'.log == s.log + [Observed(nid, op, l.node, l.pc.reply, l.acct)];
    }
  }

  lemma NextBooks(cfg: Config, s: State, ev: Event)
    requires Books(s)
    ensures Books(Next(cfg, s, ev))
  {
    match ev
    case Start(pid, nid, op) =>
      if nid in s.nodes {
        var l := Begin(cfg, op, s.nodes[nid], s.table, s.store, ZERO);
        BeginCounted(cfg, op, s.nodes[nid], s.table, s.store);
        SettleBooks(s, pid, Some(nid), op, l, Plus(s.total, ZERO, l.acct));
      }
    case StartMount(pid) =>
      BeginCounted(cfg, Mount, MountParent(cfg), s.table, s.store);
      SettleBooks(s, pid, None, Mount, Begin(cfg, Mount, MountParent(cfg), s.table, s.store, ZERO), s.total);
    case Act(pid, a) =>
      if Runnable(s, pid) {
        var p := s.procs[pid];
        var l := Step(cfg, LocalOf(s, p), a);
        StepCounted(cfg, p.op, LocalOf(s, p), a);
        SettleBooks(s, pid, p.nid, p.op, l, Plus(s.total, p.acct, l.acct));
      }
    case Progress(_, _) =>
    case ReadAt(_, _, _, _) =>
    case Crash =>
  }

  /** No handler that has replied is still around. */
  ghost predicate NoneDone(s: State) {
    forall pid :: pid in s.procs ==> !s.procs[pid].pc.Done?
  }

  lemma NextNoneDone(cfg: Config, s: State, ev: Event)
    requires NoneDone(s)
    ensures NoneDone(Next(cfg, s, ev))
  {
  }

  lemma {:induction false} ExecNoneDone(cfg: Config, s: State, evs: seq<Event>)
    requires NoneDone(s)
    ensures NoneDone(Exec(cfg, s, evs))
    decreases |evs|
  {
    if evs != [] {
      NextNoneDone(cfg, s, evs[0]);
      ExecNoneDone(cfg, Next(cfg, s, evs[0]), evs[1..]);
    }
  }

  lemma {:induction false} ExecBooks(cfg: Config, s: State, evs: seq<Event>)
    requires Books(s)
    ensures Books(Exec(cfg, s, evs))
    decreases |evs|
  {
    if evs != [] {
      NextBooks(cfg, s, evs[0]);
      ExecBooks(cfg, Next(cfg, s, evs[0]), evs[1..]);
    }
  }

  /**
   In every run, each finished Attr, Open, Readlink and ReadDirAll counted exactly one of hit,
   miss and direct, a Lookup at most one; what a direct node counted is direct, so that it has
   asked the remote tree; an operation called the remote tree exactly if it counted a
   miss or direct; and in total there were at least as many remote calls.
   */
  lemma SoundBooks(cfg: Config, evs: seq<Event>)
    ensures var s := Exec(cfg, INITIAL, evs);
            s.total.miss + s.total.direct <= s.total.remote &&
            forall i :: 0 <= i < |s.log| && s.log[i].Observed? ==>
              var o := s.log[i];
              var n := o.acct.hit + o.acct.miss + o.acct.direct;
              n <= 1 && (o.op in {Attr, Open, Readlink, ReadDirAll} ==> n == 1) &&
              (o.acct.remote > 0 <==> o.acct.miss + o.acct.direct == 1) &&
              (o.acct.direct == 1 ==> o.node.direct) && (o.acct.miss == 1 || o.acct.hit == 1 ==> !o.node.direct) &&
              (o.node.direct && o.op in {Attr, Open, Readlink, ReadDirAll} ==>
                o.acct.direct == 1 && o.acct.hit == 0 && o.acct.remote >= 1) &&
              (o.op.Lookup? && n == 0 ==> o.reply.Error? || o.reply.Panic? || (!o.node.direct && o.op.name in o.node.rows))
  {
    ExecBooks(cfg, INITIAL, evs);
    var s := Exec(cfg, INITIAL, evs);
    forall i | 0 <= i < |s.log| && s.log[i].Observed?
      ensures ReplyCounted(s.log[i].op, s.log[i].node, s.log[i].reply, s.log[i].acct)
    {
    }
  }

  // ----- which lookups are not counted -----

  /** The query that Lookup starts with does not come back with a row or with the news that there is none. */
  ghost predicate QueryFails(t: Table, path: string, a: Answer) {
    a.fault || SelectFull(t, path).Fatal? || SelectFull(t, path).Corrupt?
  }

  /** The event answers a Lookup from the rows the directory remembers, or its first query fails. */
  ghost predicate Uncounted(s: State, ev: Event, name: string) {
    match ev
    case Start(_, nid, _) => nid in s.nodes && !s.nodes[nid].direct && name in s.nodes[nid].rows
    case Act(pid, a) =>
      pid in s.procs && s.procs[pid].pc == Looking(Query(name)) &&
      QueryFails(s.table, Paths.Join(s.procs[pid].node.path, name), a)
    case _ => false
  }

  predicate NothingCounted(acct: Acct) {
    acct.hit + acct.miss + acct.direct == 0
  }

  lemma QueryEnds(cfg: Config, l: Local, a: Answer, name: string)
    requires l.pc == Looking(Query(name)) && NothingCounted(l.acct)
    ensures EndsRight(l, a, Step(cfg, l, a))
  {
  }

  lemma AskEnds(cfg: Config, l: Local, a: Answer)
    requires l.pc.Looking? && Asking(l.pc.lk)
    ensures EndsRight(l, a, Step(cfg, l, a))
  {
  }

  lemma LaterEnds(l: Local, a: Answer, l': Local)
    requires l.pc.Looking? && !l.pc.lk.Query? && !NothingCounted(l.acct) && Counts(l.acct, l'.acct)
    ensures EndsRight(l, a, l')
  {
  }

  /** An action that ends a Lookup leaves it uncounted exactly if it is the first query and fails. */
  ghost predicate EndsRight(l: Local, a: Answer, l': Local)
    requires l.pc.Looking?
  {
    l'.pc.Done? ==>
      (NothingCounted(l'.acct) <==>
        l.pc.lk.Query? && QueryFails(l.table, Paths.Join(l.node.path, l.pc.lk.name), a))
  }

  predicate Asking(lk: LookupPc) {
    lk.AskDirect? || lk.AskMiss?
  }

  /** Where a Lookup is tells what it has counted so far. */
  lemma CountedSoFar(op: Op, node: Node, lk: LookupPc, acct: Acct)
    requires LookupCounted(op, node, lk, acct) && op.Lookup?
    ensures if lk.Query? then op == Lookup(lk.name) && NothingCounted(acct) else Asking(lk) || !NothingCounted(acct)
  {
  }

  lemma EndCounted(cfg: Config, l: Local, a: Answer)
    requires l.pc.Looking?
    requires if l.pc.lk.Query? then NothingCounted(l.acct) else Asking(l.pc.lk) || !NothingCounted(l.acct)
    ensures EndsRight(l, a, Step(cfg, l, a))
  {
    if l.pc.lk.Query? {
      QueryEnds(cfg, l, a, l.pc.lk.name);
    } else if Asking(l.pc.lk) {
      AskEnds(cfg, l, a);
    } else {
      LaterEnds(l, a, Step(cfg, l, a));
    }
  }

  /** What the log gains when a handler gets as far as l. */
  lemma SettledLog(s: State, pid: nat, nid: Option<nat>, op: Op, l: Local, total: Acct)
    ensures var s' := Settle(s, pid, nid, op, l, total);
            if l.pc.Done? then s'.log == s.log + [Observed(nid, op, l.node, l.pc.reply, l.acct)] &&
                               (nid.Some? && nid.value < s.next ==> nid.value in s'.nodes && s'.nodes[nid.value] == l.node)
            else s'.log == s.log
  {
  }

  ghost predicate CountedRight(s: State, ev: Event, s': State) {
    |s'.log| > |s.log| && s'.log[|s.log|].Observed? && s'.log[|s.log|].op.Lookup? ==>
      var o := s'.log[|s.log|];
      NothingCounted(o.acct) <==> Uncounted(s, ev, o.op.name)
  }

  /** The same in terms of the state before and after the action. */
  lemma LoggedRight(s: State, pid: nat, a: Answer, l: Local, total: Acct)
    requires pid in s.procs && s.procs[pid].pc.Looking? && EndsRight(LocalOf(s, s.procs[pid]), a, l)
    requires s.procs[pid].pc.lk.Query? ==> s.procs[pid].op == Lookup(s.procs[pid].pc.lk.name)
    ensures var p := s.procs[pid];
            CountedRight(s, Act(pid, a), Settle(s, pid, p.nid, p.op, l, total))
  {
    var p := s.procs[pid];
    SettledLog(s, pid, p.nid, p.op, l, total);
  }

  lemma ActCountedRight(cfg: Config, s: State, pid: nat, a: Answer)
    requires Runnable(s, pid) && s.procs[pid].op.Lookup? && s.procs[pid].pc.Looking?
    requires Counted(s.procs[pid].op, s.procs[pid].node, s.procs[pid].pc, s.procs[pid].acct)
    ensures var p := s.procs[pid];
            var l := Step(cfg, LocalOf(s, p), a);
            CountedRight(s, Act(pid, a), Settle(s, pid, p.nid, p.op, l, Plus(s.total, p.acct, l.acct)))
  {
    var p := s.procs[pid];
    CountedSoFar(p.op, p.node, p.pc.lk, p.acct);
    EndCounted(cfg, LocalOf(s, p), a);
    var l := Step(cfg, LocalOf(s, p), a);
    LoggedRight(s, pid, a, l, Plus(s.total, p.acct, l.acct));
  }

  lemma OtherOps(s: State, pid: nat, a: Answer, l: Local, total: Acct)
    requires pid in s.procs && !s.procs[pid].op.Lookup?
    ensures var p := s.procs[pid];
            CountedRight(s, Act(pid, a), Settle(s, pid, p.nid, p.op, l, total))
  {
    var p := s.procs[pid];
    SettledLog(s, pid, p.nid, p.op, l, total);
  }

  lemma StartCountedRight(cfg: Config, s: State, pid: nat, nid: nat, op: Op)
    ensures CountedRight(s, Start(pid, nid, op), Next(cfg, s, Start(pid, nid, op)))
  {
    if nid in s.nodes {
      var l := Begin(cfg, op, s.nodes[nid], s.table, s.store, ZERO);
      SettledLog(s, pid, Some(nid), op, l, Plus(s.total, ZERO, l.acct));
    }
  }

  /**
   In every run, a Lookup that ends counted nothing if and only if it was served from
   the remembered rows or its first query failed; any other Lookup counted exactly one.
   */
  lemma UncountedLookups(cfg: Config, evs: seq<Event>, ev: Event)
    ensures var s := Exec(cfg, INITIAL, evs);
            CountedRight(s, ev, Next(cfg, s, ev))
  {
    var s := Exec(cfg, INITIAL, evs);
    ExecBooks(cfg, INITIAL, evs);
    ExecNoneDone(cfg, INITIAL, evs);
    match ev
    case Start(pid, nid, op) => StartCountedRight(cfg, s, pid, nid, op);
    case Act(pid, a) =>
      if Runnable(s, pid) {
        var p := s.procs[pid];
        assert Counted(p.op, p.node, p.pc, p.acct);
        if p.op.Lookup? {
          ActCountedRight(cfg, s, pid, a);
        } else {
          var l := Step(cfg, LocalOf(s, p), a);
          OtherOps(s, pid, a, l, Plus(s.total, p.acct, l.acct));
        }
      }
    case _ =>
  }
}
