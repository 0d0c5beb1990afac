/**
 What later calls of Open give back: a cached file keeps to the object of its first
 success, and a direct file whose remote file cannot be fetched answers with the
 object of its last one.
 */
module Reopening {
  import opened Wrappers
  import opened DirEntries
  import opened Metadata
  import opened Content
  import opened Handlers
  import opened Runs
  import opened Structure
  import opened Safety
  import opened Guarantees
  import opened Accounting
  import opened Persistence
  import opened Fallback

  const HIT: Acct := Acct(1, 0, 0, 0)

  // ----- cached files -----

  /** A handler that opens a cached file with a known hash, as a hit. */
  predicate OpensAsHit(n: Node, p: Proc) {
    p.op.Open? && !n.direct && n.hash.Some? ==> HasHash(p.pc) && p.acct == HIT
  }

  ghost predicate HitOpens(s: State) {
    forall pid :: pid in s.procs && s.procs[pid].nid.Some? && s.procs[pid].nid.value in s.nodes ==>
      OpensAsHit(s.nodes[s.procs[pid].nid.value], s.procs[pid])
  }

  /** The first observation leaves the cached file with a hash, and the second is of Open. */
  predicate Reopens(o: Observation, o': Observation) {
    o.Observed? && o'.Observed? && o.nid.Some? && o'.nid == o.nid && o'.op.Open? && !o.node.direct && o.node.hash.Some?
  }

  predicate SameHash(o: Observation, o': Observation)
    requires o.Observed? && o'.Observed?
  {
    o'.node.hash == o.node.hash && o'.acct == HIT
  }

  ghost predicate OpenHistory(log: seq<Observation>) {
    forall i, j :: 0 <= i < j < |log| && Reopens(log[i], log[j]) ==> SameHash(log[i], log[j])
  }

  lemma BeginHit(cfg: Config, nid: Option<nat>, node: Node, op: Op, t: Table, st: Store)
    ensures var l := Begin(cfg, op, node, t, st, ZERO);
            OpensAsHit(node, Proc(nid, op, l.node, l.pc, l.acct)) && (op.Open? ==> !l.pc.Done?)
  {
  }

  /** From its hash on, Open changes neither the node nor the statistics. */
  lemma HashStep(cfg: Config, l: Local, a: Answer)
    requires HasHash(l.pc)
    ensures var l' := Step(cfg, l, a);
            l'.node == l.node && l'.acct == l.acct && (l'.pc.Done? || HasHash(l'.pc)) &&
            (l'.pc.Done? && l'.pc.reply.HandleReply? ==> l'.node.hash.Some?)
  {
  }

  lemma SettleHits(s: State, pid: nat, nid: Option<nat>, op: Op, l: Local, total: Acct)
    requires Locks(s) && HitOpens(s)
    requires nid.Some? ==> nid.value in s.nodes && (l.pc.Done? || OpensAsHit(s.nodes[nid.value], Proc(nid, op, l.node, l.pc, l.acct)))
    requires nid.Some? ==> forall q :: q in s.procs && q != pid ==> s.procs[q].nid != nid
    ensures HitOpens(Settle(s, pid, nid, op, l, total))
  {
    var s' := Settle(s, pid, nid, op, l, total);
    SettledNodes(s, pid, nid, op, l, total);
    forall q | q in s'.procs && s'.procs[q].nid.Some? && s'.procs[q].nid.value in s'.nodes
      ensures OpensAsHit(s'.nodes[s'.procs[q].nid.value], s'.procs[q])
    {
      if q != pid {
        assert s'.procs[q] == s.procs[q] && Held(s, s.procs[q]);
      }
    }
  }

  lemma HistoryPlus(log: seq<Observation>, o: Observation)
    requires OpenHistory(log)
    requires forall i :: 0 <= i < |log| && Reopens(log[i], o) ==> SameHash(log[i], o)
    ensures OpenHistory(log + [o])
  {
  }

  /** A new observation of Open agrees with all that left the node with a hash. */
  lemma AgreesWithAll(s: State, pid: nat, l: Local)
    requires Remembered(s) && HitOpens(s) && pid in s.procs && s.procs[pid].nid.Some? && l.pc.Done?
    requires var p := s.procs[pid]; HasHash(p.pc) ==> l.node == p.node && l.acct == p.acct
    ensures var o := Observed(s.procs[pid].nid, s.procs[pid].op, l.node, l.pc.reply, l.acct);
            forall i :: 0 <= i < |s.log| && Reopens(s.log[i], o) ==> SameHash(s.log[i], o)
  {
    var p := s.procs[pid];
    var o := Observed(p.nid, p.op, l.node, l.pc.reply, l.acct);
    assert Held(s, p);
    forall i | 0 <= i < |s.log| && Reopens(s.log[i], o)
      ensures SameHash(s.log[i], o)
    {
      assert Recorded(s, s.log[i]);
      assert OpensAsHit(s.nodes[p.nid.value], p);
    }
  }

  lemma ActOpens(cfg: Config, s: State, pid: nat, l: Local, a: Answer, total: Acct)
    requires Remembered(s) && HitOpens(s) && OpenHistory(s.log) && Runnable(s, pid)
    requires l == Step(cfg, LocalOf(s, s.procs[pid]), a)
    ensures var p := s.procs[pid];
            var s' := Settle(s, pid, p.nid, p.op, l, total);
            HitOpens(s') && OpenHistory(s'.log)
  {
    var p := s.procs[pid];
    assert Held(s, p);
    if HasHash(p.pc) {
      HashStep(cfg, LocalOf(s, p), a);
    }
    SettleHits(s, pid, p.nid, p.op, l, total);
    SettledLog(s, pid, p.nid, p.op, l, total);
    if l.pc.Done? {
      if p.nid.Some? {
        AgreesWithAll(s, pid, l);
      }
      HistoryPlus(s.log, Observed(p.nid, p.op, l.node, l.pc.reply, l.acct));
    }
  }

  lemma StartOpens(cfg: Config, s: State, pid: nat, nid: Option<nat>, node: Node, op: Op, total: Acct)
    requires Locks(s) && HitOpens(s) && OpenHistory(s.log)
    requires nid.Some? ==> nid.value in s.nodes && node == s.nodes[nid.value] && Unlocked(s, nid.value)
    ensures var s' := Settle(s, pid, nid, op, Begin(cfg, op, node, s.table, s.store, ZERO), total);
            HitOpens(s') && OpenHistory(s'.log)
  {
    var l := Begin(cfg, op, node, s.table, s.store, ZERO);
    BeginHit(cfg, nid, node, op, s.table, s.store);
    SettleHits(s, pid, nid, op, l, total);
    SettledLog(s, pid, nid, op, l, total);
    if l.pc.Done? {
      HistoryPlus(s.log, Observed(nid, op, l.node, l.pc.reply, l.acct));
    }
  }

  lemma QuietOpens(cfg: Config, s: State, ev: Event)
    requires HitOpens(s) && OpenHistory(s.log) && (ev.Progress? || ev.ReadAt? || ev.Crash?)
    ensures HitOpens(Next(cfg, s, ev)) && OpenHistory(Next(cfg, s, ev).log)
  {
    var s' := Next(cfg, s, ev);
    if s'.log != s.log {
      HistoryPlus(s.log, s'.log[|s.log|]);
    }
  }

  lemma NextOpens(cfg: Config, s: State, ev: Event)
    requires Remembered(s) && HitOpens(s) && OpenHistory(s.log)
    ensures HitOpens(Next(cfg, s, ev)) && OpenHistory(Next(cfg, s, ev).log)
  {
    if Next(cfg, s, ev) != s {
      match ev
      case Start(pid, nid, op) =>
        StartOpens(cfg, s, pid, Some(nid), s.nodes[nid], op,
                   Plus(s.total, ZERO, Begin(cfg, op, s.nodes[nid], s.table, s.store, ZERO).acct));
      case StartMount(pid) => StartOpens(cfg, s, pid, None, MountParent(cfg), Mount, s.total);
      case Act(pid, a) =>
        var l := Step(cfg, LocalOf(s, s.procs[pid]), a);
        ActOpens(cfg, s, pid, l, a, Plus(s.total, s.procs[pid].acct, l.acct));
      case _ => QuietOpens(cfg, s, ev);
    }
  }

  lemma {:induction false} ExecOpens(cfg: Config, s: State, evs: seq<Event>)
    requires Remembered(s) && HitOpens(s) && OpenHistory(s.log)
    ensures OpenHistory(Exec(cfg, s, evs).log)
    decreases |evs|
  {
    if evs != [] {
      NextRemembered(cfg, s, evs[0]);
      NextOpens(cfg, s, evs[0]);
      ExecOpens(cfg, Next(cfg, s, evs[0]), evs[1..]);
    }
  }

  /**
   Once a cached file has been opened, every later Open on it is a hit without a remote call
   and keeps to the same hash, and if both give bytes these have the same digest, whatever the
   remote tree does meanwhile.
   */
  lemma FirstOpenStays(cfg: Config, evs: seq<Event>, i: nat, j: nat)
    requires WfConfig(cfg) && WfEvents(evs) && i < j < |Exec(cfg, INITIAL, evs).log|
    requires var log := Exec(cfg, INITIAL, evs).log;
             log[i].Observed? && log[i].op.Open? && log[i].reply.HandleReply? && !log[i].node.direct && log[i].nid.Some? &&
             log[j].Observed? && log[j].op.Open? && log[j].nid == log[i].nid
    ensures var s := Exec(cfg, INITIAL, evs);
            var o, o' := s.log[i], s.log[j];
            o'.acct == Acct(1, 0, 0, 0) && o.node.hash.Some? && o'.node.hash == o.node.hash &&
            (o'.reply.HandleReply? && (IsKey(o.node.hash.value) || !Mangled(cfg, s.store)) ==>
              KeyFor(cfg, o'.reply.data) == KeyFor(cfg, o.reply.data) == o.node.hash.value) &&
            (!Mangled(cfg, s.store) ==> o'.reply.HandleReply? || o'.reply.Error?)
  {
    var s := Exec(cfg, INITIAL, evs);
    ExecOpens(cfg, INITIAL, evs);
    OpensMatchHash(cfg, s, i);
    assert Reopens(s.log[i], s.log[j]);
    if s.log[j].reply.HandleReply? {
      OpensMatchHash(cfg, s, j);
    }
    OpenReplies(cfg, s, j);
  }

  /** Open answers with a handle or an error as long as no key is mangled. */
  lemma OpenReplies(cfg: Config, s: State, j: nat)
    requires WfConfig(cfg) && Reachable(cfg, s) && j < |s.log| && s.log[j].Observed? && s.log[j].op.Open?
    ensures !Mangled(cfg, s.store) ==> s.log[j].reply.HandleReply? || s.log[j].reply.Error?
  {
    ReachableInv(cfg, s);
    assert ObservationOK(cfg, s.table, s.store, s.log[j]);
  }

  // ----- direct files -----

  /** The two local calls from the hash to the open object. */
  lemma HashServes(cfg: Config, l: Local, b: Answer, h: string)
    requires l.node.hash == Some(h) && HasObject(cfg.cacheRoot, l.store, h)
    ensures l.pc == Opening(FindObject) ==>
              Step(cfg, l, b) == l.(pc := if b.fault then Done(Error) else Opening(OpenObject))
    ensures l.pc == Opening(OpenObject) ==>
              Step(cfg, l, b) ==
              l.(pc := Done(if b.fault then Error else HandleReply(l.store.files[PathForKey(cfg.cacheRoot, h)])))
  {
  }

  /** What is left of an Open that has its hash, in a reachable state. */
  ghost predicate AtHash(cfg: Config, s: State, pid: nat, p: Proc, h: string) {
    Inv(cfg, s) && pid in s.procs && s.procs[pid] == p && HasHash(p.pc) && p.node.hash == Some(h) &&
    HasObject(cfg.cacheRoot, s.store, h)
  }

  lemma WaitsAtHash(cfg: Config, s: State, evs: seq<Event>, pid: nat, p: Proc, h: string)
    requires WfConfig(cfg) && WfEvents(evs) && Spares(pid, evs) && AtHash(cfg, s, pid, p, h)
    ensures AtHash(cfg, Exec(cfg, s, evs), pid, p, h)
  {
    ExecOK(cfg, s, evs);
    ExecSpares(cfg, s, evs, pid);
  }

  lemma FindsObject(cfg: Config, s: State, pid: nat, p: Proc, h: string, b: Answer)
    requires WfConfig(cfg) && WfAnswer(b) && AtHash(cfg, s, pid, p, h) && p.pc == Opening(FindObject)
    ensures var s' := Next(cfg, s, Act(pid, b));
            if b.fault then s'.log == s.log + [Observed(p.nid, p.op, p.node, Error, p.acct)]
            else AtHash(cfg, s', pid, p.(pc := Opening(OpenObject)), h)
  {
    NextOK(cfg, s, Act(pid, b));
    HashServes(cfg, LocalOf(s, p), b, h);
    SettledLog(s, pid, p.nid, p.op, Step(cfg, LocalOf(s, p), b), Plus(s.total, p.acct, p.acct));
  }

  lemma OpensObject(cfg: Config, s: State, pid: nat, p: Proc, h: string, c: Answer)
    requires AtHash(cfg, s, pid, p, h) && p.pc == Opening(OpenObject)
    ensures var s' := Next(cfg, s, Act(pid, c));
            |s'.log| == |s.log| + 1 &&
            var o := s'.log[|s.log|];
            o.Observed? && o.nid == p.nid && o.op == p.op && o.node == p.node && o.acct == p.acct &&
            if c.fault then o.reply == Error else o.reply.HandleReply? && KeyFor(cfg, o.reply.data) == h
  {
    HashServes(cfg, LocalOf(s, p), c, h);
    SettledLog(s, pid, p.nid, p.op, Step(cfg, LocalOf(s, p), c), Plus(s.total, p.acct, p.acct));
  }

  /** A direct Open that is about to give up on the remote file, on a node with hash h. */
  ghost predicate FallsTo(cfg: Config, s: State, pid: nat, a: Answer, h: string) {
    Runnable(s, pid) && s.procs[pid].nid.Some? && s.procs[pid].op.Open? && s.procs[pid].node.direct &&
    RemoteFails(s.procs[pid].pc, a) && s.procs[pid].node.hash == Some(h) && HasObject(cfg.cacheRoot, s.store, h)
  }

  lemma LandsAtHash(cfg: Config, s: State, s': State, pid: nat, a: Answer, h: string)
    requires FallsTo(cfg, s, pid, a, h) && FallsBack(s, pid, s') && Advances(cfg, s, s')
    ensures pid in s'.procs && AtHash(cfg, s', pid, s'.procs[pid], h) && s'.procs[pid].pc == Opening(FindObject) &&
            s'.procs[pid].nid == s.procs[pid].nid && s'.procs[pid].op.Open?
  {
  }

  lemma GivesUp(cfg: Config, evs: seq<Event>, pid: nat, a: Answer, h: string) returns (p: Proc)
    requires WfConfig(cfg) && WfEvents(evs) && WfAnswer(a) && FallsTo(cfg, Exec(cfg, INITIAL, evs), pid, a, h)
    ensures var s := Exec(cfg, INITIAL, evs);
            AtHash(cfg, Next(cfg, s, Act(pid, a)), pid, p, h) && p.pc == Opening(FindObject) &&
            p.nid == s.procs[pid].nid && p.op.Open? &&
            var last := Last(s.log, p.nid.value, Open);
            last.Some? ==> last.value.node.hash == Some(h)
  {
    var s := Exec(cfg, INITIAL, evs);
    DirectFallsBack(cfg, evs, pid, a);
    ReachableOK(cfg, evs);
    NextOK(cfg, s, Act(pid, a));
    LandsAtHash(cfg, s, Next(cfg, s, Act(pid, a)), pid, a, h);
    p := Next(cfg, s, Act(pid, a)).procs[pid];
  }

  /**
   In every run, a direct file whose remote file cannot be fetched is opened on the object of
   its hash, which is the one its last Open left it with: whatever other handlers do in between,
   the next two actions end the call with bytes of that digest, or with an error if one of
   these local calls fails.
   */
  lemma DirectOpenAnswers(cfg: Config, evs: seq<Event>, pid: nat, a: Answer, evs1: seq<Event>, b: Answer,
                          evs2: seq<Event>, c: Answer, h: string)
    requires WfConfig(cfg) && WfEvents(evs + [Act(pid, a)] + evs1 + [Act(pid, b)] + evs2)
    requires Spares(pid, evs1) && Spares(pid, evs2) && FallsTo(cfg, Exec(cfg, INITIAL, evs), pid, a, h)
    ensures var s := Exec(cfg, INITIAL, evs);
            var s1 := Exec(cfg, Next(cfg, s, Act(pid, a)), evs1);
            var s1' := Next(cfg, s1, Act(pid, b));
            var s2 := Exec(cfg, s1', evs2);
            var s2' := Next(cfg, s2, Act(pid, c));
            var last := Last(s.log, s.procs[pid].nid.value, Open);
            (last.Some? ==> last.value.node.hash == Some(h)) &&
            if b.fault then Ends(s1, s1', s.procs[pid].nid, Error, h)
            else if c.fault then Ends(s2, s2', s.procs[pid].nid, Error, h)
            else exists data :: KeyFor(cfg, data) == h && Ends(s2, s2', s.procs[pid].nid, HandleReply(data), h)
  {
    WfParts(evs, Act(pid, a), evs1, Act(pid, b), evs2);
    var s := Exec(cfg, INITIAL, evs);
    var p := GivesUp(cfg, evs, pid, a, h);
    WaitsAtHash(cfg, Next(cfg, s, Act(pid, a)), evs1, pid, p, h);
    var s1 := Exec(cfg, Next(cfg, s, Act(pid, a)), evs1);
    FindsObject(cfg, s1, pid, p, h, b);
    if !b.fault {
      var q := p.(pc := Opening(OpenObject));
      WaitsAtHash(cfg, Next(cfg, s1, Act(pid, b)), evs2, pid, q, h);
      OpensObject(cfg, Exec(cfg, Next(cfg, s1, Act(pid, b)), evs2), pid, q, h, c);
    }
  }

  /** The event made the Open reply, with the node still on the hash. */
  predicate Ends(s: State, s': State, nid: Option<nat>, reply: Reply, h: string) {
    |s'.log| == |s.log| + 1 && s'.log[|s.log|].Observed? &&
    var o := s'.log[|s.log|];
    o.nid == nid && o.op.Open? && o.node.hash == Some(h) && o.reply == reply
  }

  lemma WfParts(a: seq<Event>, e: Event, b: seq<Event>, f: Event, c: seq<Event>)
    requires WfEvents(a + [e] + b + [f] + c)
    ensures WfEvents(a) && WfEvent(e) && WfEvents(b) && WfEvent(f) && WfEvents(c)
  {
    var all := a + [e] + b + [f] + c;
    assert forall i :: 0 <= i < |a| ==> a[i] == all[i];
    assert e == all[|a|];
    assert forall i :: 0 <= i < |b| ==> b[i] == all[|a| + 1 + i];
    assert f == all[|a| + 1 + |b|];
    assert forall i :: 0 <= i < |c| ==> c[i] == all[|a| + |b| + 2 + i];
  }
}
