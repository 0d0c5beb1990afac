/**
 Answers over runs: in every reachable state a call that nobody disturbs does what it
 means, a new cache directory can be mounted, and an action ends in an error only for
 a cause that lies outside the caches.
 */
module Progress {
  import opened Wrappers
  import opened DirEntries
  import opened Metadata
  import opened Content
  import opened Handlers
  import opened Solo
  import opened Outcomes
  import opened Meaning
  import opened Structure
  import opened Runs
  import opened Safety
  import opened Accounting
  import opened Persistence
  import opened Fallback
  import opened Races
  import opened Ancestry
  import Archive
  import Guarantees
  import OpenOutcomes
  import Paths

  // ----- a handler that nobody disturbs -----

  /** The handler takes these answers one after the other. */
  function Acts(pid: nat, taken: seq<Answer>): seq<Event> {
    if taken == [] then [] else [Act(pid, taken[0])] + Acts(pid, taken[1..])
  }

  lemma {:induction false} IdleActs(cfg: Config, s: State, pid: nat, taken: seq<Answer>)
    requires pid !in s.procs
    ensures Exec(cfg, s, Acts(pid, taken)) == s
    decreases |taken|
  {
    if taken != [] {
      assert Acts(pid, taken)[1..] == Acts(pid, taken[1..]);
      assert Next(cfg, s, Act(pid, taken[0])) == s;
      IdleActs(cfg, s, pid, taken[1..]);
    }
  }

  /** The handler has replied, having left table, store and node like this; what it opened or found is there. */
  ghost predicate Replied(s: State, s': State, nid: Option<nat>, op: Op, l: Local) {
    l.pc.Done? && s'.table == l.table && s'.store == l.store &&
    s'.log == s.log + [Observed(nid, op, l.node, l.pc.reply, l.acct)] &&
    (nid.Some? && nid.value in s.nodes ==> nid.value in s'.nodes && s'.nodes[nid.value] == l.node) &&
    (l.pc.reply.NodeReply? ==> exists n :: n in s'.nodes && n !in s.nodes && s'.nodes[n] == l.pc.reply.node) &&
    (l.pc.reply.HandleReply? ==> exists h :: h in s'.handles && s'.handles[h] == Handle(l.node, l.pc.reply.data))
  }

  lemma SettleReplies(s: State, pid: nat, nid: Option<nat>, op: Op, l: Local, total: Acct)
    requires Locks(s) && l.pc.Done? && (nid.Some? ==> nid.value in s.nodes)
    ensures var s' := Settle(s, pid, nid, op, l, total); Replied(s, s', nid, op, l) && pid !in s'.procs
  {
    var s' := Settle(s, pid, nid, op, l, total);
    Finished(s, pid, nid, op, l, total);
    if l.pc.reply.NodeReply? {
      assert s.next in s'.nodes && s.next !in s.nodes;
    } else if l.pc.reply.HandleReply? {
      assert s'.handles[s.next] == Handle(l.node, l.pc.reply.data);
    }
  }

  lemma SettleRuns(s: State, pid: nat, nid: Option<nat>, op: Op, l: Local, total: Acct)
    requires !l.pc.Done?
    ensures var s' := Settle(s, pid, nid, op, l, total);
            pid in s'.procs && s'.procs[pid] == Proc(nid, op, l.node, l.pc, l.acct) &&
            s'.table == l.table && s'.store == l.store && s'.log == s.log && s'.nodes == s.nodes
  {
  }

  lemma RepliedLater(s: State, s1: State, s': State, nid: Option<nat>, op: Op, l: Local)
    requires Replied(s1, s', nid, op, l) && s1.log == s.log && s1.nodes == s.nodes
    ensures Replied(s, s', nid, op, l)
  {
  }

  lemma ActSettles(cfg: Config, s: State, pid: nat, a: Answer)
    requires Runnable(s, pid)
    ensures var p := s.procs[pid];
            var l := Step(cfg, LocalOf(s, p), a);
            Next(cfg, s, Act(pid, a)) == Settle(s, pid, p.nid, p.op, l, Plus(s.total, p.acct, l.acct))
  {
  }

  /** In a run, a handler that acts alone does what it does on its own. */
  lemma {:induction false} AloneInRun(cfg: Config, s: State, pid: nat, p: Proc, taken: seq<Answer>)
    requires Locks(s) && pid in s.procs && p == s.procs[pid] && WellFormed(p.pc) && !p.pc.Done?
    requires After(cfg, LocalOf(s, p), taken).pc.Done?
    ensures var s' := Exec(cfg, s, Acts(pid, taken));
            Replied(s, s', p.nid, p.op, After(cfg, LocalOf(s, p), taken))
    decreases |taken|
  {
    Once(cfg, LocalOf(s, p), taken);
    assert Acts(pid, taken)[1..] == Acts(pid, taken[1..]) && Acts(pid, taken)[0] == Act(pid, taken[0]);
    var s1, l := Next(cfg, s, Act(pid, taken[0])), Step(cfg, LocalOf(s, p), taken[0]);
    ActSettles(cfg, s, pid, taken[0]);
    NextLocks(cfg, s, Act(pid, taken[0]));
    if l.pc.Done? {
      Rests(cfg, l, taken[1..]);
      assert Held(s, p);
      SettleReplies(s, pid, p.nid, p.op, l, Plus(s.total, p.acct, l.acct));
      IdleActs(cfg, s1, pid, taken[1..]);
    } else {
      SettleRuns(s, pid, p.nid, p.op, l, Plus(s.total, p.acct, l.acct));
      AloneInRun(cfg, s1, pid, s1.procs[pid], taken[1..]);
      RepliedLater(s, s1, Exec(cfg, s1, Acts(pid, taken[1..])), p.nid, p.op, After(cfg, l, taken[1..]));
    }
  }

  lemma TableReadable(cfg: Config, t: Table, st: Store)
    requires TableOK(cfg, t, st)
    ensures Readable(t)
  {
    forall id | id in t
      ensures 0 < id < ROWID_LIMIT && RowEntry(id, t[id]).Found?
    {
      assert RowOK(cfg, t, st, id, t[id]);
    }
  }

  /** Enough answers for the operation, if remote listings have at most n names. */
  predicate Enough(l: Local, taken: seq<Answer>, n: nat) {
    |taken| >= Rank(l.pc, n) && forall a :: a in taken ==> ListsAtMost(a, n)
  }

  /**
   In every reachable state, a call that nobody disturbs ends, in the state its outcome says,
   and is logged with the reply its outcome says.
   */
  lemma CallAnswers(cfg: Config, evs: seq<Event>, pid: nat, nid: nat, op: Op, taken: seq<Answer>, n: nat) returns (l: Local)
    requires WfConfig(cfg) && WfEvents(evs)
    requires var s := Exec(cfg, INITIAL, evs);
             pid !in s.procs && nid in s.nodes && Applicable(op, s.nodes[nid]) && Unlocked(s, nid) &&
             Enough(Begin(cfg, op, s.nodes[nid], s.table, s.store, ZERO), taken, n)
    ensures var s := Exec(cfg, INITIAL, evs);
            Replied(s, Exec(cfg, s, [Start(pid, nid, op)] + Acts(pid, taken)), Some(nid), op, l) &&
            Readable(s.table) && s.nodes[nid].inode in s.table &&
            Means(cfg, Call(op, s.nodes[nid], s.table, s.store, ZERO), taken, l)
  {
    var s := Exec(cfg, INITIAL, evs);
    Archive.Reached(cfg, evs);
    TableReadable(cfg, s.table, s.store);
    assert NodeOK(cfg, s.table, s.store, s.nodes[nid]);
    l := BeginsAndEnds(cfg, s, pid, nid, op, taken, n);
  }

  lemma BeginsAndEnds(cfg: Config, s: State, pid: nat, nid: nat, op: Op, taken: seq<Answer>, n: nat) returns (l: Local)
    requires Locks(s) && pid !in s.procs && nid in s.nodes && Applicable(op, s.nodes[nid]) && Unlocked(s, nid)
    requires Enough(Begin(cfg, op, s.nodes[nid], s.table, s.store, ZERO), taken, n)
    ensures Replied(s, Exec(cfg, s, [Start(pid, nid, op)] + Acts(pid, taken)), Some(nid), op, l)
    ensures Means(cfg, Call(op, s.nodes[nid], s.table, s.store, ZERO), taken, l)
  {
    var start := Begin(cfg, op, s.nodes[nid], s.table, s.store, ZERO);
    var c := Call(op, s.nodes[nid], s.table, s.store, ZERO);
    assert Meaning.Start(cfg, c) == start;
    Ends(cfg, start, taken, n);
    CallMeans(cfg, c, taken);
    l := After(cfg, start, taken);
    RunsOut(cfg, s, pid, Runs.Start(pid, nid, op), Some(nid), op, start, taken, Plus(s.total, ZERO, start.acct));
  }

  /** From the event that begins the call to its reply. */
  lemma RunsOut(cfg: Config, s: State, pid: nat, ev: Event, nid: Option<nat>, op: Op, start: Local, taken: seq<Answer>, total: Acct)
    requires Locks(s) && (nid.Some? ==> nid.value in s.nodes) && start.table == s.table && start.store == s.store
    requires WellFormed(start.pc) && After(cfg, start, taken).pc.Done?
    requires Next(cfg, s, ev) == Settle(s, pid, nid, op, start, total)
    ensures Replied(s, Exec(cfg, s, [ev] + Acts(pid, taken)), nid, op, After(cfg, start, taken))
  {
    var s1 := Next(cfg, s, ev);
    assert ([ev] + Acts(pid, taken))[1..] == Acts(pid, taken);
    NextLocks(cfg, s, ev);
    if start.pc.Done? {
      Rests(cfg, start, taken);
      SettleReplies(s, pid, nid, op, start, total);
      IdleActs(cfg, s1, pid, taken);
    } else {
      SettleRuns(s, pid, nid, op, start, total);
      assert LocalOf(s1, s1.procs[pid]) == start;
      AloneInRun(cfg, s1, pid, s1.procs[pid], taken);
      RepliedLater(s, s1, Exec(cfg, s1, Acts(pid, taken)), nid, op, After(cfg, start, taken));
    }
  }

  // ----- mounting -----

  lemma RootIsDirectory(cfg: Config, t: Table)
    requires TableRooted(cfg, t) && HasPath(t, "/")
    ensures t[IdOf(t, "/")].typeName == Directory
  {
    Paths.RootComponents();
    assert RowRooted(cfg, t, t[IdOf(t, "/")]);
  }

  /**
   In every reachable state, the empty one of a new cache directory included, mounting
   succeeds if nothing fails on this side: there is a root node afterwards, of type
   directory, with the inode of the one row of "/".
   */
  lemma MountSucceeds(cfg: Config, evs: seq<Event>, pid: nat, taken: seq<Answer>)
    requires WfConfig(cfg) && WfEvents(evs) && pid !in Exec(cfg, INITIAL, evs).procs
    requires |taken| >= 4 && Smooth(Exec(cfg, INITIAL, evs).table, taken)
    ensures var s := Exec(cfg, INITIAL, evs);
            var s' := Exec(cfg, s, [StartMount(pid)] + Acts(pid, taken));
            HasPath(s'.table, "/") && s'.table[IdOf(s'.table, "/")].typeName == Directory &&
            (s'.table == s.table || StoresType(s.table, "/", Directory, s'.table)) &&
            |s'.log| == |s.log| + 1 && s'.log[|s.log|].Observed? && s'.log[|s.log|].reply.NodeReply? &&
            var n := s'.log[|s.log|].reply.node;
            n.path == "/" && n.below == Paths.Join(cfg.remoteDir, "/") && n.typeName == Directory &&
            n.direct == cfg.direct("/") && n.inode == IdOf(s'.table, "/") &&
            exists nid :: nid in s'.nodes && s'.nodes[nid] == n
  {
    var s := Exec(cfg, INITIAL, evs);
    Archive.Reached(cfg, evs);
    TableReadable(cfg, s.table, s.store);
    if HasPath(s.table, "/") {
      RootIsDirectory(cfg, s.table);
    }
    var l := MountsOut(cfg, s, pid, taken);
  }

  lemma MountsOut(cfg: Config, s: State, pid: nat, taken: seq<Answer>) returns (l: Local)
    requires Locks(s) && pid !in s.procs && |taken| >= 4 && Readable(s.table) && Smooth(s.table, taken)
    requires HasPath(s.table, "/") ==> s.table[IdOf(s.table, "/")].typeName == Directory
    ensures Replied(s, Exec(cfg, s, [StartMount(pid)] + Acts(pid, taken)), None, Mount, l)
    ensures MountMeans(cfg, s.table, l)
  {
    var start := Begin(cfg, Mount, MountParent(cfg), s.table, s.store, ZERO);
    var n := LongestListing(taken);
    Ends(cfg, start, taken, n);
    MountAnswers(cfg, s.table, s.store, ZERO, taken);
    l := After(cfg, start, taken);
    RunsOut(cfg, s, pid, StartMount(pid), None, Mount, start, taken, s.total);
  }

  lemma {:induction false} LongestListing(taken: seq<Answer>) returns (n: nat)
    ensures forall a :: a in taken ==> ListsAtMost(a, n)
    decreases |taken|
  {
    n := 0;
    if taken != [] {
      n := LongestListing(taken[1..]);
      if taken[0].listing.Some? && |taken[0].listing.value| > n {
        n := |taken[0].listing.value|;
      }
      forall a | a in taken
        ensures ListsAtMost(a, n)
      {
        assert a == taken[0] || a in taken[1..];
      }
    }
  }

  // ----- why an action ends in an error -----

  predicate UsableId(t: Table, id: nat) {
    id !in t && 0 < id < ROWID_LIMIT
  }

  /** A failed statement, a lost race for a row, or a remote tree that fails with nothing to fall back on. */
  predicate Cause(l: Local, a: Answer) {
    match l.pc
    case Looking(lk) =>
      (match lk
       case AskDirect(_, cached) => a.stat.StatErr? && !cached
       case AskMiss(_) => a.stat.StatErr?
       case Insert(name, _) => a.fault || HasPath(l.table, Paths.Join(l.node.path, name)) || !UsableId(l.table, a.rowId)
       case _ => a.fault)
    case Stating(at) => if at.CallLstat? then !a.stat.StatOk? && !(l.node.direct && l.node.info.Some?) else a.fault
    case Linking(rl) => if rl.CallReadlink? then a.target == None && !(l.node.direct && l.node.target.Some?) else a.fault
    case Opening(o) =>
      (match o
       case OpenRemote => !a.openOk && !(l.node.direct && l.node.hash.Some?)
       case RemoveTemp(_, put) => put == None && !(l.node.direct && l.node.hash.Some?)
       case PutHash(_) => a.fault
       case FindObject => a.fault
       case OpenObject => a.fault
       case _ => false)
    case Listing(rd) =>
      (match rd
       case OpenDir => !a.openOk && !(l.node.direct && l.node.entries.Some?)
       case ReadEntries => a.listing == None
       case InsertEntry(todo, _) =>
         todo != [] && (a.fault || HasPath(l.table, Paths.Join(l.node.path, todo[0].name)) || !UsableId(l.table, a.rowId))
       case _ => a.fault)
    case Done(_) => false
  }

  /** CreateTemp is the one action whose failure depends on the cache directory. */
  predicate NoTemp(cfg: Config, l: Local, a: Answer) {
    l.pc == Opening(CreateTemp) && (a.fault || !OpenOutcomes.FreshTemp(cfg, l.store, a.suffix)) &&
    !(l.node.direct && l.node.hash.Some?)
  }

  predicate EndsInError(l: Local) {
    l.pc == Done(Error)
  }

  /** The rows an action may read can be read, and a hash is long enough to have a path. */
  ghost predicate Legible(l: Local) {
    Readable(l.table) && l.node.inode in l.table && (l.pc.Opening? && HasHash(l.pc) ==> l.node.hash.Some? && |l.node.hash.value| >= 2)
  }

  lemma LookupError(cfg: Config, l: Local, a: Answer)
    requires l.pc.Looking? && Readable(l.table)
    ensures EndsInError(LookupStep(cfg, l, a, l.pc.lk)) <==> Cause(l, a)
  {
    var path := Paths.Join(l.node.path, l.pc.lk.name);
    RowsAffected(l.table, path);
    if HasPath(l.table, path) {
      ReadsRow(l.table, path);
    }
  }

  lemma OpenError(cfg: Config, l: Local, a: Answer)
    requires l.pc.Opening? && WellFormed(l.pc) && Legible(l)
    ensures EndsInError(OpenStep(cfg, l, a, l.pc.op)) <==> Cause(l, a) || NoTemp(cfg, l, a)
  {
  }

  lemma ReaddirError(l: Local, a: Answer)
    requires l.pc.Listing? && WellFormed(l.pc) && Legible(l)
    ensures EndsInError(ReaddirStep(l, a, l.pc.rd)) <==> Cause(l, a)
  {
    assert RowEntry(l.node.inode, l.table[l.node.inode]).Found?;
  }

  lemma StepError(cfg: Config, l: Local, a: Answer)
    requires WellFormed(l.pc) && !l.pc.Done? && (if l.pc.Looking? then Readable(l.table) else Legible(l))
    ensures EndsInError(Step(cfg, l, a)) <==> Cause(l, a) || NoTemp(cfg, l, a)
  {
    match l.pc
    case Looking(_) => LookupError(cfg, l, a);
    case Opening(_) => OpenError(cfg, l, a);
    case Listing(_) => ReaddirError(l, a);
    case _ =>
  }

  /** An action that ends in an error has changed nothing, except that a temporary file may be gone. */
  predicate NothingLost(l: Local, l': Local) {
    l'.table == l.table && l'.node == l.node && (l'.store == l.store || (l.pc.Opening? && l.pc.op.RemoveTemp?))
  }

  lemma ErrorLosesNothing(cfg: Config, l: Local, a: Answer)
    requires WellFormed(l.pc) && !l.pc.Done? && EndsInError(Step(cfg, l, a))
    ensures NothingLost(l, Step(cfg, l, a))
  {
    match l.pc
    case Looking(_) => LookupErrorLosesNothing(cfg, l, a);
    case Opening(_) => OpenErrorLosesNothing(cfg, l, a);
    case Listing(_) => ReaddirErrorLosesNothing(l, a);
    case _ =>
  }

  lemma LookupErrorLosesNothing(cfg: Config, l: Local, a: Answer)
    requires l.pc.Looking? && EndsInError(LookupStep(cfg, l, a, l.pc.lk))
    ensures NothingLost(l, LookupStep(cfg, l, a, l.pc.lk))
  {
  }

  lemma ReaddirErrorLosesNothing(l: Local, a: Answer)
    requires l.pc.Listing? && WellFormed(l.pc) && EndsInError(ReaddirStep(l, a, l.pc.rd))
    ensures NothingLost(l, ReaddirStep(l, a, l.pc.rd))
  {
  }

  lemma OpenErrorLosesNothing(cfg: Config, l: Local, a: Answer)
    requires l.pc.Opening? && WellFormed(l.pc) && EndsInError(OpenStep(cfg, l, a, l.pc.op))
    ensures NothingLost(l, OpenStep(cfg, l, a, l.pc.op))
  {
  }

  /** The event has made the handler reply with an error. */
  ghost predicate GivesError(s: State, s': State) {
    |s'.log| == |s.log| + 1 && s'.log[|s.log|].Observed? && s'.log[|s.log|].reply == Error
  }

  lemma LegibleHandler(cfg: Config, s: State, pid: nat)
    requires Inv(cfg, s) && pid in s.procs && (HasHash(s.procs[pid].pc) ==> !Mangled(cfg, s.store))
    ensures var l := LocalOf(s, s.procs[pid]);
            Runnable(s, pid) && !l.pc.Done? && (if l.pc.Looking? then Readable(l.table) else Legible(l))
  {
    var p := s.procs[pid];
    assert ProcOK(cfg, s.table, s.store, p);
    TableReadable(cfg, s.table, s.store);
    if HasHash(p.pc) {
      Guarantees.FaithfulNode(cfg, s.table, s.store, p.node);
    }
  }

  lemma ActGivesError(cfg: Config, s: State, pid: nat, a: Answer, l: Local)
    requires Locks(s) && LastWords(s) && Runnable(s, pid) && l == Step(cfg, LocalOf(s, s.procs[pid]), a)
    ensures GivesError(s, Next(cfg, s, Act(pid, a))) <==> EndsInError(l)
    ensures EndsInError(l) && NothingLost(LocalOf(s, s.procs[pid]), l) ==>
              var s' := Next(cfg, s, Act(pid, a));
              s'.table == s.table && s'.store == l.store && s'.procs == s.procs - {pid} &&
              (HasHash(s.procs[pid].pc) || s'.nodes == s.nodes)
  {
    var p := s.procs[pid];
    assert Held(s, p);
    ActSettles(cfg, s, pid, a);
    SettledLog(s, pid, p.nid, p.op, l, Plus(s.total, p.acct, l.acct));
    if EndsInError(l) {
      Finished(s, pid, p.nid, p.op, l, Plus(s.total, p.acct, l.acct));
      if p.nid.Some? && !HasHash(p.pc) && l.node == p.node {
        assert s.nodes[p.nid.value := p.node] == s.nodes;
      }
    }
  }

  /**
   In every run, interleaved in any way, an action makes its handler reply with an error if
   and only if there is a cause: a statement or a call on the cache directory has failed, the
   race for a row is lost, or the remote tree has failed with nothing to fall back on.
   The error leaves the table, the nodes and the objects as they are.
   */
  lemma ErrorsHaveCauses(cfg: Config, evs: seq<Event>, pid: nat, a: Answer)
    requires WfConfig(cfg) && WfEvents(evs)
    requires var s := Exec(cfg, INITIAL, evs);
             pid in s.procs && (HasHash(s.procs[pid].pc) ==> !Mangled(cfg, s.store))
    ensures var s := Exec(cfg, INITIAL, evs);
            var s' := Next(cfg, s, Act(pid, a));
            var l := LocalOf(s, s.procs[pid]);
            (GivesError(s, s') <==> Cause(l, a) || NoTemp(cfg, l, a)) &&
            (GivesError(s, s') ==>
              s'.table == s.table && s'.procs == s.procs - {pid} &&
              (s'.store == s.store || (l.pc.Opening? && l.pc.op.RemoveTemp?)) &&
              (HasHash(l.pc) || s'.nodes == s.nodes))
  {
    var s := Exec(cfg, INITIAL, evs);
    ReachableOK(cfg, evs);
    ExecWords(cfg, INITIAL, evs);
    LegibleHandler(cfg, s, pid);
    var l := LocalOf(s, s.procs[pid]);
    StepError(cfg, l, a);
    if EndsInError(Step(cfg, l, a)) {
      ErrorLosesNothing(cfg, l, a);
    }
    ActGivesError(cfg, s, pid, a, Step(cfg, l, a));
  }

  /** Why a fetch does not get as far as its object. */
  predicate PutCause(l: Local, a: Answer) {
    match l.pc
    case Opening(o) =>
      (match o
       case Fetch(_) => SourceFails(a.turns) || !WritesComplete(a.turns)
       case CheckKey(_, _) => a.fault
       case MakeBucket(_, _) => a.fault
       case RenameTemp(_, _) => a.fault
       case _ => false)
    case _ => false
  }

  predicate DropsPut(pc: Pc) {
    pc.Opening? && pc.op.RemoveTemp? && pc.op.put == None
  }

  lemma PutStepDrops(cfg: Config, l: Local, a: Answer)
    requires l.pc.Opening? && WellFormed(l.pc)
    requires l.pc.op.RenameTemp? ==> l.pc.op.temp in l.store.files && BucketPath(cfg.cacheRoot, l.pc.op.key) in l.store.dirs
    ensures DropsPut(OpenStep(cfg, l, a, l.pc.op).pc) <==> PutCause(l, a)
  {
    if l.pc.op.Fetch? {
      CopyIsTee(a.turns, [], [], 0);
    }
  }

  /** In every run, a fetch is given up exactly if the source fails or a local call does. */
  lemma PutsFailWithCause(cfg: Config, evs: seq<Event>, pid: nat, a: Answer)
    requires WfConfig(cfg) && WfEvents(evs)
    requires var s := Exec(cfg, INITIAL, evs); pid in s.procs && s.procs[pid].pc.Opening?
    ensures var s := Exec(cfg, INITIAL, evs);
            Runnable(s, pid) &&
            (DropsPut(Step(cfg, LocalOf(s, s.procs[pid]), a).pc) <==> PutCause(LocalOf(s, s.procs[pid]), a))
  {
    var s := Exec(cfg, INITIAL, evs);
    ReachableOK(cfg, evs);
    PutReady(cfg, s, pid);
    PutStepDrops(cfg, LocalOf(s, s.procs[pid]), a);
  }

  lemma PutReady(cfg: Config, s: State, pid: nat)
    requires Inv(cfg, s) && pid in s.procs && s.procs[pid].pc.Opening?
    ensures var o := s.procs[pid].pc.op;
            Runnable(s, pid) &&
            (o.RenameTemp? ==> o.temp in s.store.files && BucketPath(cfg.cacheRoot, o.key) in s.store.dirs)
  {
    assert ProcOK(cfg, s.table, s.store, s.procs[pid]);
  }
}
