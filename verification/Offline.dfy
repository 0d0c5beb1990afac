/**
 Offline operation: what has been stored before a remount is served afterwards
 without a single call on the remote tree, at any depth below cached directories.
 */
module Offline {
  import opened Wrappers
  import opened DirEntries
  import opened Metadata
  import opened Content
  import opened Handlers
  import opened Paths
  import opened Structure
  import opened Runs
  import opened Safety
  import opened Guarantees

  /** The database works and the remote tree is gone: every call on it fails. */
  const UNREACHABLE: Answer := Answer(false, 0, StatErr, false, None, None, [Turn([], ReadFails, 0, false)], "")

  /** The path of the mount point with the given components. */
  function PathOf(cs: seq<string>): string {
    Render(true, cs)
  }

  predicate ProperNames(cs: seq<string>) {
    forall i :: 0 <= i < |cs| ==> ProperName(cs[i])
  }

  lemma PathOfComponents(cs: seq<string>)
    requires ProperNames(cs)
    ensures Canonical(PathOf(cs)) && Components(PathOf(cs)) == cs
  {
    assert Normal(true, cs);
    RenderRooted(true, cs);
    ComponentsRender(true, cs);
  }

  lemma PathOfChild(dir: seq<string>, name: string)
    requires ProperNames(dir) && ProperName(name)
    ensures PathOf(dir + [name]) == Join(PathOf(dir), name)
  {
    PathOfComponents(dir);
    RenderRooted(true, dir);
    JoinName(PathOf(dir), name);
  }

  lemma PathOfParent(cs: seq<string>)
    requires ProperNames(cs) && cs != []
    ensures PathOf(cs) == Join(PathOf(cs[..|cs| - 1]), cs[|cs| - 1])
  {
    assert cs[..|cs| - 1] + [cs[|cs| - 1]] == cs;
    PathOfChild(cs[..|cs| - 1], cs[|cs| - 1]);
  }

  lemma PathOfRoot()
    ensures PathOf([]) == "/"
  {
  }

  /** The table knows the path and all directories above it, and these are cached ones. */
  ghost predicate Known(cfg: Config, t: Table, cs: seq<string>) {
    ProperNames(cs) &&
    HasPath(t, PathOf(cs)) && t[IdOf(t, PathOf(cs))].typeName != NoEntry && !cfg.direct(PathOf(cs)) &&
    forall i :: 0 <= i < |cs| ==>
      HasPath(t, PathOf(cs[..i])) && t[IdOf(t, PathOf(cs[..i]))].typeName == Directory && !cfg.direct(PathOf(cs[..i]))
  }

  lemma KnownParent(cfg: Config, t: Table, cs: seq<string>)
    requires Known(cfg, t, cs) && cs != []
    ensures Known(cfg, t, cs[..|cs| - 1]) && t[IdOf(t, PathOf(cs[..|cs| - 1]))].typeName == Directory
  {
    var dir := cs[..|cs| - 1];
    forall i | 0 <= i < |dir|
      ensures HasPath(t, PathOf(dir[..i])) && t[IdOf(t, PathOf(dir[..i]))].typeName == Directory && !cfg.direct(PathOf(dir[..i]))
    {
      assert dir[..i] == cs[..i];
    }
  }

  /** The node of a stored row. */
  function NodeAt(cfg: Config, path: string, c: CachedRow): Node {
    NodeOf(cfg, path, Below(cfg.remoteDir, path), c)
  }

  /** Nothing runs, the disk is as it was, and no remote call has been made since s. */
  ghost predicate Idle(s: State, s': State) {
    s'.table == s.table && s'.store == s.store && s'.procs == map[] && s'.total.remote == s.total.remote
  }

  // ----- the steps of the walk -----

  lemma ExecFirst(cfg: Config, s: State, ev: Event, evs: seq<Event>)
    ensures Exec(cfg, s, [ev] + evs) == Exec(cfg, Next(cfg, s, ev), evs)
  {
    assert ([ev] + evs)[1..] == evs;
  }

  lemma ExecTwo(cfg: Config, s: State, e1: Event, e2: Event)
    ensures Exec(cfg, s, [e1, e2]) == Next(cfg, Next(cfg, s, e1), e2)
  {
    assert [e1, e2][1..] == [e2];
    assert [e2][1..] == [];
    assert Exec(cfg, Next(cfg, s, e1), [e2]) == Exec(cfg, Next(cfg, Next(cfg, s, e1), e2), []);
  }

  lemma ExecThree(cfg: Config, s: State, e1: Event, e2: Event, e3: Event)
    ensures Exec(cfg, s, [e1, e2, e3]) == Next(cfg, Next(cfg, Next(cfg, s, e1), e2), e3)
  {
    assert [e1, e2, e3][1..] == [e2, e3];
    ExecTwo(cfg, Next(cfg, s, e1), e2, e3);
  }

  /** Meanwhile node nid has been made from the stored row of the path. */
  ghost predicate Finds(cfg: Config, s: State, s': State, path: string, nid: nat) {
    Idle(s, s') && nid in s'.nodes && SelectFull(s.table, path).Found? &&
    s'.nodes[nid] == NodeAt(cfg, path, SelectFull(s.table, path).row)
  }

  lemma MountSteps(cfg: Config, s: State, c: CachedRow)
    requires s.procs == map[] && SelectFull(s.table, "/") == Found(c) && c.typeName != NoEntry && !cfg.direct("/")
    requires Join("/", "/") == "/"
    ensures var s' := Exec(cfg, s, [StartMount(0), Act(0, UNREACHABLE), Act(0, UNREACHABLE)]);
            Idle(s, s') && s.next in s'.nodes && s'.nodes[s.next] == NodeAt(cfg, "/", c)
  {
    ExecThree(cfg, s, StartMount(0), Act(0, UNREACHABLE), Act(0, UNREACHABLE));
    var s1 := Next(cfg, s, StartMount(0));
    assert s1.procs[0] == Proc(None, Mount, MountParent(cfg), Looking(EnsureRow("/", Directory)), ZERO);
    var s2 := Next(cfg, s1, Act(0, UNREACHABLE));
    assert s2.procs[0] == Proc(None, Mount, MountParent(cfg), Looking(Reload("/")), ZERO);
    var s3 := Next(cfg, s2, Act(0, UNREACHABLE));
    assert s3.procs == map[];
  }

  /** Mounting with a known root directory. */
  lemma MountOffline(cfg: Config, s: State) returns (evs: seq<Event>)
    requires WfConfig(cfg) && Inv(cfg, s) && s.procs == map[] && Known(cfg, s.table, [])
    ensures NoRemote(evs) && Finds(cfg, s, Exec(cfg, s, evs), "/", s.next)
  {
    evs := [StartMount(0), Act(0, UNREACHABLE), Act(0, UNREACHABLE)];
    PathOfRoot();
    RootSlot(cfg);
    SelectOK(cfg, s.table, s.store, "/");
    MountSteps(cfg, s, SelectFull(s.table, "/").row);
  }

  lemma HitStep(cfg: Config, l: Local, name: string, c: CachedRow)
    requires l.pc == Looking(Query(name)) && !l.node.direct && Slot(cfg, l.node, name)
    requires SelectFull(l.table, Join(l.node.path, name)) == Found(c) && c.typeName != NoEntry
    ensures Step(cfg, l, UNREACHABLE) ==
            Local(l.node.(rows := l.node.rows[name := c]), Done(NodeReply(NodeAt(cfg, Join(l.node.path, name), c))),
                  l.table, l.store, l.acct.(hit := l.acct.hit + 1))
  {
  }

  lemma LookupSteps(cfg: Config, s: State, nid: nat, name: string, c: CachedRow)
    requires s.procs == map[] && nid in s.nodes && ProperName(name)
    requires var n := s.nodes[nid]; n.typeName == Directory && !n.direct && n.rows == map[]
    requires Slot(cfg, s.nodes[nid], name)
    requires SelectFull(s.table, Join(s.nodes[nid].path, name)) == Found(c) && c.typeName != NoEntry
    ensures var s' := Exec(cfg, s, [Start(0, nid, Lookup(name)), Act(0, UNREACHABLE)]);
            Idle(s, s') && s.next in s'.nodes && s'.nodes[s.next] == NodeAt(cfg, Join(s.nodes[nid].path, name), c)
  {
    ExecTwo(cfg, s, Start(0, nid, Lookup(name)), Act(0, UNREACHABLE));
    var s1 := Next(cfg, s, Start(0, nid, Lookup(name)));
    assert s1.procs[0] == Proc(Some(nid), Lookup(name), s.nodes[nid], Looking(Query(name)), ZERO);
    HitStep(cfg, LocalOf(s1, s1.procs[0]), name, c);
    var s2 := Next(cfg, s1, Act(0, UNREACHABLE));
    assert s2.procs == map[];
  }

  /** Looking up a known name from a node that does not remember it yet. */
  lemma LookupOffline(cfg: Config, s: State, nid: nat, name: string) returns (evs: seq<Event>)
    requires WfConfig(cfg) && Inv(cfg, s) && s.procs == map[] && nid in s.nodes && ProperName(name)
    requires var n := s.nodes[nid]; n.typeName == Directory && !n.direct && n.rows == map[]
    requires HasPath(s.table, Join(s.nodes[nid].path, name))
    requires s.table[IdOf(s.table, Join(s.nodes[nid].path, name))].typeName != NoEntry
    ensures NoRemote(evs) && Finds(cfg, s, Exec(cfg, s, evs), Join(s.nodes[nid].path, name), s.next)
  {
    evs := [Start(0, nid, Lookup(name)), Act(0, UNREACHABLE)];
    var path := Join(s.nodes[nid].path, name);
    assert NodeOK(cfg, s.table, s.store, s.nodes[nid]);
    ChildSlot(cfg, s.nodes[nid], name);
    SelectOK(cfg, s.table, s.store, path);
    LookupSteps(cfg, s, nid, name, SelectFull(s.table, path).row);
  }

  predicate NoRemote(evs: seq<Event>) {
    forall i :: 0 <= i < |evs| && evs[i].Act? ==> evs[i].answer == UNREACHABLE
  }

  lemma OfflineWf(evs: seq<Event>)
    requires NoRemote(evs)
    ensures WfEvents(evs)
  {
  }

  /** The walk has arrived: node nid was made from the stored row of the path. */
  ghost predicate Arrived(cfg: Config, s: State, s': State, cs: seq<string>, nid: nat) {
    Inv(cfg, s') && Finds(cfg, s, s', PathOf(cs), nid)
  }

  lemma KnownRow(cfg: Config, t: Table, st: Store, cs: seq<string>)
    requires TableOK(cfg, t, st) && Known(cfg, t, cs)
    ensures SelectFull(t, PathOf(cs)).Found? && SelectFull(t, PathOf(cs)).row.typeName == t[IdOf(t, PathOf(cs))].typeName
  {
    SelectOK(cfg, t, st, PathOf(cs));
  }

  lemma InvAfter(cfg: Config, s: State, evs: seq<Event>)
    requires WfConfig(cfg) && Inv(cfg, s) && NoRemote(evs)
    ensures Inv(cfg, Exec(cfg, s, evs)) && s.log <= Exec(cfg, s, evs).log
  {
    OfflineWf(evs);
    ExecOK(cfg, s, evs);
  }

  lemma ReadyToLookup(cfg: Config, s: State, s1: State, cs: seq<string>, upId: nat)
    requires Known(cfg, s.table, cs) && cs != [] && Arrived(cfg, s, s1, cs[..|cs| - 1], upId)
    ensures var n := s1.nodes[upId];
            n.path == PathOf(cs[..|cs| - 1]) && n.typeName == Directory && !n.direct && n.rows == map[]
  {
    KnownParent(cfg, s.table, cs);
    KnownRow(cfg, s1.table, s1.store, cs[..|cs| - 1]);
  }

  lemma FindsOn(cfg: Config, s: State, s1: State, s2: State, path: string, upPath: string, upId: nat, nid: nat)
    requires Finds(cfg, s, s1, upPath, upId) && Finds(cfg, s1, s2, path, nid)
    ensures Finds(cfg, s, s2, path, nid)
  {
  }

  /** One name further down. */
  lemma LookDown(cfg: Config, s: State, s1: State, cs: seq<string>, upId: nat) returns (evs: seq<Event>)
    requires WfConfig(cfg) && Known(cfg, s.table, cs) && cs != [] && Arrived(cfg, s, s1, cs[..|cs| - 1], upId)
    ensures NoRemote(evs) && Finds(cfg, s1, Exec(cfg, s1, evs), PathOf(cs), s1.next)
  {
    PathOfParent(cs);
    ReadyToLookup(cfg, s, s1, cs, upId);
    evs := LookupOffline(cfg, s1, upId, cs[|cs| - 1]);
  }

  lemma WalkDown(cfg: Config, s: State, s1: State, cs: seq<string>, upId: nat) returns (evs: seq<Event>)
    requires WfConfig(cfg) && Known(cfg, s.table, cs) && cs != [] && Arrived(cfg, s, s1, cs[..|cs| - 1], upId)
    ensures NoRemote(evs) && Arrived(cfg, s, Exec(cfg, s1, evs), cs, s1.next)
  {
    evs := LookDown(cfg, s, s1, cs, upId);
    InvAfter(cfg, s1, evs);
    FindsOn(cfg, s, s1, Exec(cfg, s1, evs), PathOf(cs), PathOf(cs[..|cs| - 1]), upId, s1.next);
  }

  lemma WalkRoot(cfg: Config, s: State) returns (evs: seq<Event>)
    requires WfConfig(cfg) && Inv(cfg, s) && s.procs == map[] && Known(cfg, s.table, [])
    ensures NoRemote(evs) && Arrived(cfg, s, Exec(cfg, s, evs), [], s.next)
  {
    PathOfRoot();
    evs := MountOffline(cfg, s);
    InvAfter(cfg, s, evs);
  }

  /** Walking from the root of a fresh mount to a known path, however deep. */
  lemma {:induction false} Walk(cfg: Config, s: State, cs: seq<string>) returns (evs: seq<Event>, nid: nat)
    requires WfConfig(cfg) && Inv(cfg, s) && s.procs == map[] && Known(cfg, s.table, cs)
    ensures NoRemote(evs) && Arrived(cfg, s, Exec(cfg, s, evs), cs, nid)
    decreases |cs|
  {
    if cs == [] {
      evs := WalkRoot(cfg, s);
      nid := s.next;
    } else {
      KnownParent(cfg, s.table, cs);
      var up, upId := Walk(cfg, s, cs[..|cs| - 1]);
      var s1 := Exec(cfg, s, up);
      var last := WalkDown(cfg, s, s1, cs, upId);
      JoinRuns(cfg, s, up, last);
      evs, nid := up + last, s1.next;
    }
  }

  lemma JoinRuns(cfg: Config, s: State, a: seq<Event>, b: seq<Event>)
    requires NoRemote(a) && NoRemote(b)
    ensures NoRemote(a + b) && Exec(cfg, s, a + b) == Exec(cfg, Exec(cfg, s, a), b)
  {
    ExecConcat(cfg, s, a, b);
  }

  // ----- the operations at the end of the walk -----

  /** What the stored columns of a path say about an operation; None if they say nothing. */
  ghost function StoredReply(cfg: Config, t: Table, st: Store, path: string, op: Op): (r: Option<Reply>)
    ensures r.Some? ==> !r.value.Error?
  {
    if SelectFull(t, path).Found? then RowReply(cfg, st, SelectFull(t, path).row, op) else None
  }

  function RowReply(cfg: Config, st: Store, c: CachedRow, op: Op): (r: Option<Reply>)
    ensures r.Some? ==> !r.value.Error?
  {
    match op
    case Attr => if c.info.Some? then Some(AttrReply(c.inode, c.info.value)) else None
    case Readlink => if c.typeName == Symlink && c.target.Some? then Some(TargetReply(c.target.value)) else None
    case ReadDirAll =>
      if c.typeName == Directory && c.entries.Some? then Some(EntriesReply(Dirents(c.entries.value))) else None
    case Open =>
      if c.typeName == File && c.hash.Some? && HasObject(cfg.cacheRoot, st, c.hash.value)
      then Some(HandleReply(st.files[PathForKey(cfg.cacheRoot, c.hash.value)])) else None
    case _ => None
  }

  lemma ServeAtOnce(cfg: Config, s: State, nid: nat, path: string, op: Op)
    requires s.procs == map[] && nid in s.nodes && !cfg.direct(path) && !op.Open?
    requires SelectFull(s.table, path).Found? && StoredReply(cfg, s.table, s.store, path, op).Some?
    requires s.nodes[nid] == NodeAt(cfg, path, SelectFull(s.table, path).row)
    ensures var s' := Next(cfg, s, Start(0, nid, op));
            Idle(s, s') &&
            s'.log == s.log + [Observed(Some(nid), op, s.nodes[nid], StoredReply(cfg, s.table, s.store, path, op).value,
                                        Acct(1, 0, 0, 0))]
  {
    assert Unlocked(s, nid);
  }

  lemma ObjectSteps(cfg: Config, l: Local, key: string)
    requires l.pc == Opening(FindObject) && l.node.hash == Some(key) && HasObject(cfg.cacheRoot, l.store, key)
    ensures Step(cfg, l, UNREACHABLE) == l.(pc := Opening(OpenObject))
    ensures Step(cfg, l.(pc := Opening(OpenObject)), UNREACHABLE) ==
            l.(pc := Done(HandleReply(l.store.files[PathForKey(cfg.cacheRoot, key)])))
  {
  }

  lemma ServeObject(cfg: Config, s: State, nid: nat, path: string)
    requires s.procs == map[] && nid in s.nodes && !cfg.direct(path)
    requires SelectFull(s.table, path).Found? && StoredReply(cfg, s.table, s.store, path, Open).Some?
    requires s.nodes[nid] == NodeAt(cfg, path, SelectFull(s.table, path).row)
    ensures var s' := Exec(cfg, s, [Start(0, nid, Open), Act(0, UNREACHABLE), Act(0, UNREACHABLE)]);
            Idle(s, s') &&
            s'.log == s.log + [Observed(Some(nid), Open, s.nodes[nid],
                                        StoredReply(cfg, s.table, s.store, path, Open).value, Acct(1, 0, 0, 0))]
  {
    var node := s.nodes[nid];
    assert Unlocked(s, nid);
    ExecThree(cfg, s, Start(0, nid, Open), Act(0, UNREACHABLE), Act(0, UNREACHABLE));
    var s1 := Next(cfg, s, Start(0, nid, Open));
    assert s1.procs[0] == Proc(Some(nid), Open, node, Opening(FindObject), Acct(1, 0, 0, 0));
    ObjectSteps(cfg, LocalOf(s1, s1.procs[0]), node.hash.value);
    var s2 := Next(cfg, s1, Act(0, UNREACHABLE));
    assert s2.procs[0] == Proc(Some(nid), Open, node, Opening(OpenObject), Acct(1, 0, 0, 0));
    var s3 := Next(cfg, s2, Act(0, UNREACHABLE));
    assert s3.procs == map[];
  }

  /** Serving an operation from a node that was made from the stored row. */
  lemma Serve(cfg: Config, s: State, nid: nat, path: string, op: Op) returns (evs: seq<Event>)
    requires s.procs == map[] && nid in s.nodes && !cfg.direct(path)
    requires SelectFull(s.table, path).Found? && StoredReply(cfg, s.table, s.store, path, op).Some?
    requires s.nodes[nid] == NodeAt(cfg, path, SelectFull(s.table, path).row)
    ensures NoRemote(evs)
    ensures var s' := Exec(cfg, s, evs);
            Idle(s, s') &&
            s'.log == s.log + [Observed(Some(nid), op, s.nodes[nid], StoredReply(cfg, s.table, s.store, path, op).value,
                                        Acct(1, 0, 0, 0))]
  {
    if op.Open? {
      evs := [Start(0, nid, Open), Act(0, UNREACHABLE), Act(0, UNREACHABLE)];
      ServeObject(cfg, s, nid, path);
    } else {
      evs := [Start(0, nid, op)];
      ServeAtOnce(cfg, s, nid, path, op);
      assert evs[1..] == [];
    }
  }

  /** From s to s' the stored answer for the path was given, without any remote call. */
  ghost predicate Answered(s: State, s': State, path: string, op: Op, reply: Option<Reply>) {
    s'.table == s.table && s'.store == s.store && s'.total.remote == s.total.remote && s.log < s'.log &&
    var o := s'.log[|s'.log| - 1];
    o.Observed? && o.op == op && o.node.path == path && reply == Some(o.reply)
  }

  lemma ServedIsAnswered(s: State, there: State, s': State, o: Observation, path: string)
    requires Idle(s, there) && s.log <= there.log && Idle(there, s') && s'.log == there.log + [o]
    requires o.Observed? && o.node.path == path
    ensures Answered(s, s', path, o.op, Some(o.reply))
  {
  }

  /** Both parts together, from the moment after the crash. */
  lemma WalkAndServe(cfg: Config, s: State, cs: seq<string>, op: Op) returns (evs: seq<Event>)
    requires WfConfig(cfg) && Inv(cfg, s) && s.procs == map[] && Known(cfg, s.table, cs)
    requires StoredReply(cfg, s.table, s.store, PathOf(cs), op).Some?
    ensures NoRemote(evs)
    ensures Answered(s, Exec(cfg, s, evs), PathOf(cs), op, StoredReply(cfg, s.table, s.store, PathOf(cs), op))
  {
    var walk, nid := Walk(cfg, s, cs);
    var there := Exec(cfg, s, walk);
    InvAfter(cfg, s, walk);
    var last := Serve(cfg, there, nid, PathOf(cs), op);
    JoinRuns(cfg, s, walk, last);
    evs := walk + last;
    var s' := Exec(cfg, s, evs);
    ServedIsAnswered(s, there, s', s'.log[|s'.log| - 1], PathOf(cs));
  }

  lemma CrashedState(cfg: Config, s: State)
    requires WfConfig(cfg) && Reachable(cfg, s)
    ensures var down := Next(cfg, s, Crash);
            Inv(cfg, down) && down == s.(nodes := map[], handles := map[], procs := map[])
  {
    ReachableInv(cfg, s);
    NextOK(cfg, s, Crash);
  }

  /** After a crash the events end with the given answer for the path, without any remote call. */
  ghost predicate Serves(cfg: Config, s: State, again: seq<Event>, path: string, op: Op, reply: Option<Reply>) {
    NoRemote(again) && Answered(s, Exec(cfg, s, [Crash] + again), path, op, reply)
  }

  /** A crash drops what is in memory only. */
  lemma AnsweredSince(s: State, down: State, s': State, path: string, op: Op, reply: Option<Reply>)
    requires down == s.(nodes := map[], handles := map[], procs := map[]) && Answered(down, s', path, op, reply)
    ensures Answered(s, s', path, op, reply)
  {
  }

  /**
   Main theorem. After a crash at any point of any run, and with the remote tree
   unreachable, mounting again and walking down to a known path serves every operation
   whose column was stored, with the stored value and without any remote call.
   */
  lemma OfflineAfterRemount(cfg: Config, s: State, cs: seq<string>, op: Op) returns (evs: seq<Event>)
    requires WfConfig(cfg) && Reachable(cfg, s) && Known(cfg, s.table, cs)
    requires StoredReply(cfg, s.table, s.store, PathOf(cs), op).Some?
    ensures Serves(cfg, s, evs, PathOf(cs), op, StoredReply(cfg, s.table, s.store, PathOf(cs), op))
  {
    CrashedState(cfg, s);
    var down := Next(cfg, s, Crash);
    evs := WalkAndServe(cfg, down, cs, op);
    ExecFirst(cfg, s, Crash, evs);
    AnsweredSince(s, down, Exec(cfg, down, evs), PathOf(cs), op, StoredReply(cfg, s.table, s.store, PathOf(cs), op));
  }
}
