/**
 Races for a row: several handlers on the same path have seen that there is no row
 and go on to insert one. One of them wins, and the others return an error.
 */
module Races {
  import opened Wrappers
  import opened DirEntries
  import opened Metadata
  import opened Content
  import opened Handlers
  import opened Paths
  import opened Structure
  import opened Runs
  import opened Safety
  import opened Accounting
  import opened Persistence
  import opened Fallback

  /** The path that the handler is about to insert a row for, in Lookup, in the root set-up or in a listing. */
  function InsertPath(p: Proc): Option<string> {
    match p.pc
    case Looking(lk) => if lk.Insert? then Some(Join(p.node.path, lk.name)) else None
    case Listing(rd) => if rd.InsertEntry? && rd.todo != [] then Some(Join(p.node.path, rd.todo[0].name)) else None
    case _ => None
  }

  /** The handler has returned an error and left everything else as it was. */
  ghost predicate OnlyFailed(s: State, pid: nat, s': State)
    requires pid in s.procs
  {
    var p := s.procs[pid];
    s'.table == s.table && s'.store == s.store && s'.nodes == s.nodes && s'.handles == s.handles &&
    s'.procs == s.procs - {pid} && s'.log == s.log + [Observed(p.nid, p.op, p.node, Error, p.acct)]
  }

  /** The row of the path is the same one, with its type unless the path may be retyped. */
  ghost predicate SameRow(cfg: Config, t: Table, t': Table, path: string) {
    HasPath(t, path) && HasPath(t', path) && IdOf(t', path) == IdOf(t, path) &&
    (Pinned(cfg, path) ==> t'[IdOf(t', path)].typeName == t[IdOf(t, path)].typeName)
  }

  /** What the listing in progress has collected refers to the rows of the names. */
  ghost predicate CollectedRefer(t: Table, p: Proc) {
    p.pc.Listing? && p.pc.rd.InsertEntry? ==>
      forall i :: 0 <= i < |p.pc.rd.done| ==>
        p.pc.rd.done[i].inode in t && t[p.pc.rd.done[i].inode].path == Join(p.node.path, p.pc.rd.done[i].name)
  }

  lemma LosingStep(cfg: Config, l: Local, a: Answer, p: Proc)
    requires WellFormed(l.pc) && l.pc == p.pc && l.node == p.node
    requires InsertPath(p).Some? && HasPath(l.table, InsertPath(p).value)
    ensures Step(cfg, l, a) == l.(pc := Done(Error))
  {
  }

  lemma RowStays(cfg: Config, t: Table, t': Table, path: string)
    requires HasPath(t, path) && Grows(cfg, t, t') && UniquePaths(t')
    ensures SameRow(cfg, t, t', path)
  {
    var id := IdOf(t, path);
    assert Kept(cfg, t[id], t'[id]);
  }

  lemma LosingAct(cfg: Config, s: State, pid: nat, a: Answer)
    requires Locks(s) && LastWords(s) && Runnable(s, pid)
    requires InsertPath(s.procs[pid]).Some? && HasPath(s.table, InsertPath(s.procs[pid]).value)
    ensures OnlyFailed(s, pid, Next(cfg, s, Act(pid, a)))
  {
    var p := s.procs[pid];
    assert Held(s, p);
    LosingStep(cfg, LocalOf(s, p), a, p);
    if p.nid.Some? {
      assert s.nodes[p.nid.value := p.node] == s.nodes;
    }
  }

  lemma Collected(cfg: Config, s: State, pid: nat)
    requires Inv(cfg, s) && pid in s.procs
    ensures Runnable(s, pid) && CollectedRefer(s.table, s.procs[pid])
  {
    CollectedBy(cfg, s.table, s.store, s.procs[pid]);
  }

  lemma CollectedBy(cfg: Config, t: Table, st: Store, p: Proc)
    requires ProcOK(cfg, t, st, p)
    ensures WellFormed(p.pc) && CollectedRefer(t, p)
  {
  }

  lemma LaterRow(cfg: Config, s: State, s': State, path: string)
    requires Advances(cfg, s, s') && HasPath(s.table, path)
    ensures SameRow(cfg, s.table, s'.table, path)
  {
    RowStays(cfg, s.table, s'.table, path);
  }

  lemma RunWords(cfg: Config, evs: seq<Event>, more: seq<Event>)
    ensures var s1 := Exec(cfg, Exec(cfg, INITIAL, evs), more);
            Locks(s1) && LastWords(s1)
  {
    ExecWords(cfg, INITIAL, evs);
    ExecWords(cfg, Exec(cfg, INITIAL, evs), more);
  }

  /**
   In every run, once the path a handler is about to insert has a row, the handler ends with an
   error whenever it acts next, and that is all that happens: the row of the winner, every
   other row, node and object stay, and what a listing had already collected stays right.
   */
  lemma LostRace(cfg: Config, evs: seq<Event>, pid: nat, path: string, more: seq<Event>, a: Answer)
    requires WfConfig(cfg) && WfEvents(evs) && WfEvents(more) && Spares(pid, more)
    requires var s := Exec(cfg, INITIAL, evs);
             pid in s.procs && InsertPath(s.procs[pid]) == Some(path) && HasPath(s.table, path)
    ensures var s := Exec(cfg, INITIAL, evs);
            var s1 := Exec(cfg, s, more);
            var s2 := Next(cfg, s1, Act(pid, a));
            pid in s1.procs && s1.procs[pid] == s.procs[pid] && OnlyFailed(s1, pid, s2) &&
            SameRow(cfg, s.table, s2.table, path) && CollectedRefer(s2.table, s.procs[pid])
  {
    var s := Exec(cfg, INITIAL, evs);
    var s1 := Exec(cfg, s, more);
    ReachableOK(cfg, evs);
    ExecOK(cfg, s, more);
    ExecSpares(cfg, s, more, pid);
    RunWords(cfg, evs, more);
    LaterRow(cfg, s, s1, path);
    Collected(cfg, s1, pid);
    LosingAct(cfg, s1, pid, a);
  }

  lemma WinningStep(cfg: Config, l: Local, a: Answer, p: Proc, path: string)
    requires WellFormed(l.pc) && l.pc == p.pc && l.node == p.node
    requires InsertPath(p) == Some(path) && !a.fault && CanInsert(l.table, path, a.rowId)
    ensures var t := Step(cfg, l, a).table;
            a.rowId in t && t[a.rowId].path == path
  {
  }

  lemma WinningAct(cfg: Config, s: State, win: nat, w: Answer, path: string)
    requires Runnable(s, win) && InsertPath(s.procs[win]) == Some(path) && !w.fault && CanInsert(s.table, path, w.rowId)
    ensures var t := Next(cfg, s, Act(win, w)).table;
            w.rowId in t && t[w.rowId].path == path
  {
    WinningStep(cfg, LocalOf(s, s.procs[win]), w, s.procs[win], path);
  }

  lemma RowOfPath(cfg: Config, s: State, path: string, id: nat)
    requires Inv(cfg, s) && id in s.table && s.table[id].path == path
    ensures HasPath(s.table, path) && IdOf(s.table, path) == id
  {
  }

  /**
   Of two handlers that are about to insert the same path, the one whose statement comes first
   decides the row id of the path for good, and the other one returns an error.
   */
  lemma OneWinner(cfg: Config, evs: seq<Event>, win: nat, w: Answer, pid: nat, path: string, more: seq<Event>, a: Answer)
    requires WfConfig(cfg) && WfEvents(evs) && WfAnswer(w) && WfEvents(more) && Spares(pid, more) && win != pid
    requires var s := Exec(cfg, INITIAL, evs);
             Runnable(s, win) && pid in s.procs &&
             InsertPath(s.procs[win]) == Some(path) && InsertPath(s.procs[pid]) == Some(path) &&
             !w.fault && CanInsert(s.table, path, w.rowId)
    ensures var s1 := Exec(cfg, Next(cfg, Exec(cfg, INITIAL, evs), Act(win, w)), more);
            var s2 := Next(cfg, s1, Act(pid, a));
            pid in s1.procs && OnlyFailed(s1, pid, s2) && HasPath(s2.table, path) && IdOf(s2.table, path) == w.rowId
  {
    var s := Exec(cfg, INITIAL, evs);
    var won := Next(cfg, s, Act(win, w));
    ReachableOK(cfg, evs);
    NextOK(cfg, s, Act(win, w));
    WinningAct(cfg, s, win, w, path);
    RowOfPath(cfg, won, path, w.rowId);
    NextSpares(cfg, s, Act(win, w), pid);
    ThenOne(cfg, evs, Act(win, w));
    LostRace(cfg, evs + [Act(win, w)], pid, path, more, a);
  }

  lemma ThenOne(cfg: Config, evs: seq<Event>, ev: Event)
    requires WfEvents(evs) && WfEvent(ev)
    ensures WfEvents(evs + [ev]) && Exec(cfg, INITIAL, evs + [ev]) == Next(cfg, Exec(cfg, INITIAL, evs), ev)
  {
    ExecConcat(cfg, INITIAL, evs, [ev]);
    var s := Exec(cfg, INITIAL, evs);
    assert [ev][1..] == [];
    assert Exec(cfg, s, [ev]) == Exec(cfg, Next(cfg, s, ev), []);
  }
}
