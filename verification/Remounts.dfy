/**
 Mounting again with another regular expression of cached paths: what is on disk
 stays sound and true, so the guarantees hold over any sequence of mounts.
 */
module Remounts {
  import opened Wrappers
  import opened DirEntries
  import opened Metadata
  import opened Content
  import opened Handlers
  import opened Paths
  import opened Structure
  import opened Runs
  import opened Safety
  import opened Offline
  import opened Remote
  import opened TruthSteps
  import opened Transparency

  /** One mount: the paths that are not cached in it, and what happens until its end or crash. */
  datatype Session = Session(direct: string -> bool, evs: seq<Event>)

  function Under(cfg: Config, direct: string -> bool): Config {
    cfg.(direct := direct)
  }

  /** The process starts again on the same cache directory. */
  function Restart(s: State): State {
    s.(nodes := map[], handles := map[], procs := map[], log := [])
  }

  ghost function NextSession(cfg: Config, s: State, m: Session): State {
    var s' := Exec(Under(cfg, m.direct), Restart(s), m.evs);
    s'.(log := s.log + s'.log)
  }

  ghost function ExecSessions(cfg: Config, s: State, ms: seq<Session>): State
    decreases |ms|
  {
    if ms == [] then s else ExecSessions(cfg, NextSession(cfg, s, ms[0]), ms[1..])
  }

  // ----- what is on disk does not depend on the regular expression -----

  ghost predicate DiskOK(cfg: Config, s: State) {
    TableOK(cfg, s.table, s.store) && StoreOK(cfg, s.store)
  }

  ghost predicate DiskTrue(cfg: Config, r: Tree, s: State) {
    TableTrue(cfg, r, s.table) && StoreTrue(cfg, r, s.store)
  }

  lemma RowUnder(cfg: Config, direct: string -> bool, t: Table, st: Store, id: nat)
    requires id in t && RowOK(cfg, t, st, id, t[id])
    ensures RowOK(Under(cfg, direct), t, st, id, t[id])
  {
    var c := RowEntry(id, t[id]).row;
    assert HashOK(cfg, st, c.hash) == HashOK(Under(cfg, direct), st, c.hash);
  }

  lemma DiskUnder(cfg: Config, direct: string -> bool, s: State)
    requires DiskOK(cfg, s)
    ensures DiskOK(Under(cfg, direct), s)
  {
    forall id | id in s.table
      ensures RowOK(Under(cfg, direct), s.table, s.store, id, s.table[id])
    {
      RowUnder(cfg, direct, s.table, s.store, id);
    }
    StoreUnder(cfg, direct, s.store);
  }

  lemma StoreUnder(cfg: Config, direct: string -> bool, st: Store)
    requires StoreOK(cfg, st)
    ensures StoreOK(Under(cfg, direct), st)
  {
  }

  lemma TrueUnder(cfg: Config, direct: string -> bool, r: Tree, s: State)
    requires DiskTrue(cfg, r, s)
    ensures DiskTrue(Under(cfg, direct), r, s)
  {
    forall id | id in s.table
      ensures RowTrue(Under(cfg, direct), r, id, s.table[id])
    {
      assert RowTrue(cfg, r, id, s.table[id]);
    }
  }

  lemma IdealUnder(cfg: Config, direct: string -> bool, r: Tree)
    requires Ideal(cfg, r)
    ensures Ideal(Under(cfg, direct), r)
  {
    assert StoredFaithfully(Under(cfg, direct), r) by {
      forall p | p in r && r[p].RemoteFile?
        ensures cfg.affinity(KeyFor(cfg, r[p].content)) == KeyFor(Under(cfg, direct), r[p].content)
      {
      }
    }
    assert NoCollision(Under(cfg, direct), r) by {
      forall a, b | a in Contents(r) && b in Contents(r) && KeyFor(Under(cfg, direct), a) == KeyFor(Under(cfg, direct), b)
        ensures a == b
      {
        assert KeyFor(cfg, a) == KeyFor(cfg, b);
      }
    }
  }

  // ----- any remote tree -----

  predicate WfSessions(ms: seq<Session>) {
    forall k :: 0 <= k < |ms| ==> WfEvents(ms[k].evs)
  }

  lemma SessionOK(cfg: Config, s: State, m: Session)
    requires WfConfig(cfg) && DiskOK(cfg, s) && WfEvents(m.evs)
    ensures DiskOK(cfg, NextSession(cfg, s, m))
    ensures Grows(Under(cfg, m.direct), s.table, NextSession(cfg, s, m).table)
    ensures ObjectsStay(cfg, s.store, NextSession(cfg, s, m).store)
  {
    var cfg' := Under(cfg, m.direct);
    DiskUnder(cfg, m.direct, s);
    ExecOK(cfg', Restart(s), m.evs);
    DiskUnder(cfg', cfg.direct, NextSession(cfg, s, m));
    assert Under(cfg', cfg.direct) == cfg;
  }

  /** The path is pinned in every session. */
  predicate AlwaysPinned(cfg: Config, path: string, ms: seq<Session>) {
    forall k :: 0 <= k < |ms| ==> Pinned(Under(cfg, ms[k].direct), path)
  }

  /** A row stays with its path and its set columns, and with its type if the path is pinned in every session. */
  ghost predicate RowStays(cfg: Config, t: Table, t': Table, id: nat, ms: seq<Session>)
    requires id in t
  {
    id in t' && t'[id].path == t[id].path &&
    (AlwaysPinned(cfg, t[id].path, ms) ==> t'[id].typeName == t[id].typeName) &&
    (RowInfo(t[id]).Some? ==> RowInfo(t'[id]).Some?) && (t[id].dirEntries.Some? ==> t'[id].dirEntries.Some?) &&
    (t[id].contentHash.Some? ==> t'[id].contentHash.Some?) && (t[id].target.Some? ==> t'[id].target.Some?)
  }

  lemma RowStaysOn(cfg: Config, t: Table, t1: Table, t2: Table, id: nat, ms: seq<Session>)
    requires ms != [] && id in t && Grows(Under(cfg, ms[0].direct), t, t1)
    requires id in t1 && RowStays(cfg, t1, t2, id, ms[1..])
    ensures RowStays(cfg, t, t2, id, ms)
  {
    assert Kept(Under(cfg, ms[0].direct), t[id], t1[id]);
    if AlwaysPinned(cfg, t[id].path, ms) {
      assert forall k :: 0 <= k < |ms| - 1 ==> ms[1..][k] == ms[k + 1];
      assert AlwaysPinned(cfg, t1[id].path, ms[1..]);
    }
  }

  /**
   Over any sequence of mounts, each with its own regular expression and its own remote
   tree, the table and the store stay consistent, rows keep inode, path and set columns,
   objects stay, and a row keeps its type if its directory is cached in every mount.
   */
  lemma {:induction false} SessionsOK(cfg: Config, s: State, ms: seq<Session>)
    requires WfConfig(cfg) && DiskOK(cfg, s) && WfSessions(ms)
    ensures var s' := ExecSessions(cfg, s, ms);
            DiskOK(cfg, s') && ObjectsStay(cfg, s.store, s'.store) &&
            forall id :: id in s.table ==> RowStays(cfg, s.table, s'.table, id, ms)
    decreases |ms|
  {
    if ms != [] {
      var s1, s' := NextSession(cfg, s, ms[0]), ExecSessions(cfg, s, ms);
      SessionOK(cfg, s, ms[0]);
      SessionsOK(cfg, s1, ms[1..]);
      forall id | id in s.table
        ensures RowStays(cfg, s.table, s'.table, id, ms)
      {
        assert id in s1.table;
        RowStaysOn(cfg, s.table, s1.table, s'.table, id, ms);
      }
    }
  }

  /**
   After any sequence of mounts, mounting with another regular expression and without the remote
   tree serves every stored column of every known path whose directories are cached now.
   */
  lemma OfflineUnder(cfg: Config, ms: seq<Session>, direct: string -> bool, cs: seq<string>, op: Op)
    returns (evs: seq<Event>)
    requires WfConfig(cfg) && WfSessions(ms)
    requires var s := ExecSessions(cfg, INITIAL, ms);
             Known(Under(cfg, direct), s.table, cs) && StoredReply(cfg, s.table, s.store, PathOf(cs), op).Some?
    ensures NoRemote(evs)
    ensures var s := ExecSessions(cfg, INITIAL, ms);
            Answered(s, NextSession(cfg, s, Session(direct, evs)), PathOf(cs), op,
                     StoredReply(cfg, s.table, s.store, PathOf(cs), op))
  {
    var s := ExecSessions(cfg, INITIAL, ms);
    InitialOK(cfg);
    SessionsOK(cfg, INITIAL, ms);
    evs := OfflineFrom(cfg, s, direct, cs, op);
  }

  lemma OfflineFrom(cfg: Config, s: State, direct: string -> bool, cs: seq<string>, op: Op) returns (evs: seq<Event>)
    requires WfConfig(cfg) && DiskOK(cfg, s) && Known(Under(cfg, direct), s.table, cs)
    requires StoredReply(cfg, s.table, s.store, PathOf(cs), op).Some?
    ensures NoRemote(evs)
    ensures Answered(s, NextSession(cfg, s, Session(direct, evs)), PathOf(cs), op,
                     StoredReply(cfg, s.table, s.store, PathOf(cs), op))
  {
    DiskUnder(cfg, direct, s);
    evs := WalkAndServe(Under(cfg, direct), Restart(s), cs, op);
    AnsweredInSession(s, Exec(Under(cfg, direct), Restart(s), evs), PathOf(cs), op,
                      StoredReply(cfg, s.table, s.store, PathOf(cs), op));
  }

  lemma AnsweredInSession(s: State, e: State, path: string, op: Op, reply: Option<Reply>)
    requires Answered(Restart(s), e, path, op, reply)
    ensures Answered(s, e.(log := s.log + e.log), path, op, reply)
  {
  }

  // ----- an immutable tree -----

  ghost predicate TruthfulSessions(cfg: Config, r: Tree, s: State, ms: seq<Session>)
    decreases |ms|
  {
    ms == [] ||
    (TruthfulRun(Under(cfg, ms[0].direct), r, Restart(s), ms[0].evs) &&
     TruthfulSessions(cfg, r, NextSession(cfg, s, ms[0]), ms[1..]))
  }

  ghost predicate HonestLog(r: Tree, log: seq<Observation>) {
    forall i :: 0 <= i < |log| ==> HonestObservation(r, log[i])
  }

  lemma SessionTrue(cfg: Config, r: Tree, s: State, m: Session)
    requires Ideal(cfg, r) && DiskOK(cfg, s) && DiskTrue(cfg, r, s) && HonestLog(r, s.log)
    requires TruthfulRun(Under(cfg, m.direct), r, Restart(s), m.evs)
    ensures var s' := NextSession(cfg, s, m);
            DiskOK(cfg, s') && DiskTrue(cfg, r, s') && HonestLog(r, s'.log)
  {
    var cfg' := Under(cfg, m.direct);
    IdealUnder(cfg, m.direct, r);
    DiskUnder(cfg, m.direct, s);
    TrueUnder(cfg, m.direct, r, s);
    ExecTrue(cfg', r, Restart(s), m.evs);
    var e := Exec(cfg', Restart(s), m.evs);
    HonestState(cfg', r, e);
    DiskUnder(cfg', cfg.direct, e);
    TrueUnder(cfg', cfg.direct, r, e);
    assert Under(cfg', cfg.direct) == cfg;
  }

  lemma HonestState(cfg: Config, r: Tree, s: State)
    requires Ideal(cfg, r) && Inv(cfg, s) && Truth(cfg, r, s)
    ensures HonestLog(r, s.log)
  {
    forall i | 0 <= i < |s.log|
      ensures HonestObservation(r, s.log[i])
    {
      TrueIsHonest(cfg, r, s.table, s.store, s.log[i]);
    }
  }

  lemma {:induction false} SessionsTrue(cfg: Config, r: Tree, s: State, ms: seq<Session>)
    requires Ideal(cfg, r) && DiskOK(cfg, s) && DiskTrue(cfg, r, s) && HonestLog(r, s.log)
    requires TruthfulSessions(cfg, r, s, ms)
    ensures HonestLog(r, ExecSessions(cfg, s, ms).log)
    decreases |ms|
  {
    if ms != [] {
      SessionTrue(cfg, r, s, ms[0]);
      SessionsTrue(cfg, r, NextSession(cfg, s, ms[0]), ms[1..]);
    }
  }

  /**
   On an immutable tree every reply of every mount is what the tree says, even when each mount
   has another regular expression of cached paths than the ones that filled the caches.
   */
  lemma TransparentSessions(cfg: Config, r: Tree, ms: seq<Session>, i: nat)
    requires Ideal(cfg, r) && TruthfulSessions(cfg, r, INITIAL, ms)
    requires i < |ExecSessions(cfg, INITIAL, ms).log|
    ensures HonestObservation(r, ExecSessions(cfg, INITIAL, ms).log[i])
  {
    InitialOK(cfg);
    SessionsTrue(cfg, r, INITIAL, ms);
  }
}
