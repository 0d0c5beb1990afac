/**
 Whole runs of the file system: any number of handlers on any nodes, interleaved
 one action at a time, with crashes and remounts in between.
 */
module Runs {
  import opened Wrappers
  import opened DirEntries
  import opened Metadata
  import opened Content
  import opened Handlers
  import Paths

  /** A running handler holds the lock of its node and works on its own copy of it. */
  datatype Proc = Proc(nid: Option<nat>, op: Op, node: Node, pc: Pc, acct: Acct)

  /** An open file; a descriptor keeps the bytes it was opened on. */
  datatype Handle = Handle(node: Node, data: Bytes)

  /** A finished operation, with the node as the operation left it. */
  datatype Observation =
    | Observed(nid: Option<nat>, op: Op, node: Node, reply: Reply, acct: Acct)
    | ReadObserved(node: Node, offset: nat, size: nat, data: Bytes)

  /** table and store are on disk; log and total only record what happened. */
  datatype State = State(
    table: Table, store: Store,
    nodes: map<nat, Node>, handles: map<nat, Handle>, procs: map<nat, Proc>, next: nat,
    log: seq<Observation>, total: Acct)

  /**
   Start and Act drive a handler; Progress is an intermediate state of the temporary file
   while a handler copies the remote file into it, which a crash would leave behind.
   */
  datatype Event =
    | Start(pid: nat, nid: nat, op: Op)
    | StartMount(pid: nat)
    | Act(pid: nat, answer: Answer)
    | Progress(pid: nat, data: Bytes)
    | ReadAt(hid: nat, offset: int, size: nat, fault: bool)
    | Crash

  /** The kernel sends an operation to a node of the right kind, and looks up proper names only. */
  predicate Applicable(op: Op, node: Node) {
    match op
    case Lookup(name) => node.typeName == Directory && Paths.ProperName(name)
    case Attr => true
    case ReadDirAll => node.typeName == Directory
    case Readlink => node.typeName == Symlink
    case Open => node.typeName == File
    case Mount => false
  }

  /** No running handler holds the node's lock. */
  predicate Unlocked(s: State, nid: nat) {
    forall pid :: pid in s.procs ==> s.procs[pid].nid != Some(nid)
  }

  function Plus(total: Acct, before: Acct, after: Acct): Acct
    requires Counts(before, after)
  {
    Acct(total.hit + after.hit - before.hit, total.miss + after.miss - before.miss,
         total.direct + after.direct - before.direct, total.remote + after.remote - before.remote)
  }

  /** The state after a handler got as far as l: it is still running, or it has replied. */
  function Settle(s: State, pid: nat, nid: Option<nat>, op: Op, l: Local, total: Acct): State {
    var s' := s.(table := l.table, store := l.store, total := total);
    if !l.pc.Done? then s'.(procs := s.procs[pid := Proc(nid, op, l.node, l.pc, l.acct)])
    else
      var nodes := if nid.Some? then s.nodes[nid.value := l.node] else s.nodes;
      var finished := s'.(
        procs := s.procs - {pid},
        log := s.log + [Observed(nid, op, l.node, l.pc.reply, l.acct)]);
      match l.pc.reply
      case NodeReply(node) => finished.(nodes := nodes[s.next := node], next := s.next + 1)
      case HandleReply(data) =>
        finished.(nodes := nodes, handles := s.handles[s.next := Handle(l.node, data)], next := s.next + 1)
      case _ => finished.(nodes := nodes)
  }

  /** part is what data has from offset on, up to size bytes. */
  predicate IsPart(part: Bytes, data: Bytes, offset: nat, size: nat) {
    |part| == (if |data| <= offset then 0 else if |data| - offset < size then |data| - offset else size) &&
    forall k :: 0 <= k < |part| ==> part[k] == data[offset + k]
  }

  /** ReadAt on a local file. */
  function Slice(data: Bytes, offset: nat, size: nat): (part: Bytes)
    ensures IsPart(part, data, offset, size)
  {
    if offset >= |data| then []
    else if offset + size <= |data| then data[offset..offset + size]
    else data[offset..]
  }

  function LocalOf(s: State, p: Proc): Local {
    Local(p.node, p.pc, s.table, s.store, p.acct)
  }

  ghost predicate Runnable(s: State, pid: nat) {
    pid in s.procs && WellFormed(s.procs[pid].pc)
  }

  predicate Fetching(pc: Pc) {
    pc.Opening? && pc.op.Fetch?
  }

  /** One event; an event that is not possible in the state changes nothing. */
  ghost function Next(cfg: Config, s: State, ev: Event): State {
    match ev
    case Start(pid, nid, op) =>
      if pid in s.procs || nid !in s.nodes || !Applicable(op, s.nodes[nid]) || !Unlocked(s, nid) then s
      else
        var l := Begin(cfg, op, s.nodes[nid], s.table, s.store, ZERO);
        Settle(s, pid, Some(nid), op, l, Plus(s.total, ZERO, l.acct))
    case StartMount(pid) =>
      if pid in s.procs then s
      else Settle(s, pid, None, Mount, Begin(cfg, Mount, MountParent(cfg), s.table, s.store, ZERO), s.total)
    case Act(pid, a) =>
      if !Runnable(s, pid) then s
      else
        var p := s.procs[pid];
        var l := Step(cfg, LocalOf(s, p), a);
        Settle(s, pid, p.nid, p.op, l, Plus(s.total, p.acct, l.acct))
    case Progress(pid, data) =>
      if pid !in s.procs || !Fetching(s.procs[pid].pc) then s
      else s.(store := s.store.Write(s.procs[pid].pc.op.temp, data))
    case ReadAt(hid, offset, size, fault) =>
      if hid !in s.handles then s
      else
        var counted := s.(total := s.total.(hit := s.total.hit + 1));
        if fault || offset < 0 then counted
        else
          var h := s.handles[hid];
          counted.(log := s.log + [ReadObserved(h.node, offset, size, Slice(h.data, offset, size))])
    case Crash => s.(nodes := map[], handles := map[], procs := map[])
  }

  ghost function Exec(cfg: Config, s: State, evs: seq<Event>): State
    decreases |evs|
  {
    if evs == [] then s else Exec(cfg, Next(cfg, s, evs[0]), evs[1..])
  }

  /** A new cache directory with nothing mounted. */
  const INITIAL: State :=
    State(map[], Store(map[], {}, {}), map[], map[], map[], 0, [], ZERO)

  lemma {:induction false} ExecConcat(cfg: Config, s: State, a: seq<Event>, b: seq<Event>)
    ensures Exec(cfg, s, a + b) == Exec(cfg, Exec(cfg, s, a), b)
    decreases |a|
  {
    if a == [] {
      assert a + b == b;
    } else {
      assert (a + b)[1..] == a[1..] + b;
      ExecConcat(cfg, Next(cfg, s, a[0]), a[1..], b);
    }
  }

  // ----- what others do to a running handler -----

  /** Nobody crashes and the handler does not act. */
  predicate Spares(pid: nat, evs: seq<Event>) {
    forall i :: 0 <= i < |evs| ==> !evs[i].Crash? && !(evs[i].Act? && evs[i].pid == pid)
  }

  lemma NextSpares(cfg: Config, s: State, ev: Event, pid: nat)
    requires pid in s.procs && Spares(pid, [ev])
    ensures pid in Next(cfg, s, ev).procs && Next(cfg, s, ev).procs[pid] == s.procs[pid]
  {
    assert !ev.Crash? && !(ev.Act? && ev.pid == pid) by {
      assert [ev][0] == ev;
    }
  }

  /** A handler that does not act stays where it is. */
  lemma {:induction false} ExecSpares(cfg: Config, s: State, evs: seq<Event>, pid: nat)
    requires pid in s.procs && Spares(pid, evs)
    ensures pid in Exec(cfg, s, evs).procs && Exec(cfg, s, evs).procs[pid] == s.procs[pid]
    decreases |evs|
  {
    if evs != [] {
      NextSpares(cfg, s, evs[0], pid);
      ExecSpares(cfg, Next(cfg, s, evs[0]), evs[1..], pid);
    }
  }
}
