/**
 On an immutable remote tree the layers agree with one another: remembered rows
 with the table, listings with lookups, and every two nodes of the same path.
 */
module Agreement {
  import opened Wrappers
  import opened DirEntries
  import opened Metadata
  import opened Content
  import opened Handlers
  import opened Paths
  import opened Structure
  import opened Runs
  import opened Safety
  import opened Remote
  import opened TruthSteps
  import opened Transparency

  /** The state is reached on the tree r. */
  ghost predicate ReachedOn(cfg: Config, r: Tree, s: State) {
    exists evs :: TruthfulRun(cfg, r, INITIAL, evs) && s == Exec(cfg, INITIAL, evs)
  }

  lemma ReachedTruth(cfg: Config, r: Tree, s: State)
    requires Ideal(cfg, r) && ReachedOn(cfg, r, s)
    ensures Inv(cfg, s) && Truth(cfg, r, s)
  {
    var evs :| TruthfulRun(cfg, r, INITIAL, evs) && s == Exec(cfg, INITIAL, evs);
    InitialOK(cfg);
    ExecTrue(cfg, r, INITIAL, evs);
  }

  // ----- the fast path -----

  /** Every field is absent or equal. */
  predicate UnderApproximates(c: CachedRow, d: CachedRow) {
    c.inode == d.inode && c.typeName == d.typeName &&
    (c.info.Some? ==> c.info == d.info) && (c.entries.Some? ==> c.entries == d.entries) &&
    (c.hash.Some? ==> c.hash == d.hash) && (c.target.Some? ==> c.target == d.target)
  }

  /** Two remembered versions of a row differ only in what they do not know yet. */
  lemma VersionsAgree(cfg: Config, r: Tree, t: Table, st: Store, path: string, c: CachedRow, d: CachedRow)
    requires UniquePaths(t)
    requires CachedOK(cfg, t, st, path, c) && CachedOK(cfg, t, st, path, d)
    requires CachedTrue(cfg, r, path, c) && CachedTrue(cfg, r, path, d)
    ensures c.inode == d.inode && c.typeName == d.typeName
    ensures c.info.Some? && d.info.Some? ==> c.info == d.info
    ensures c.hash.Some? && d.hash.Some? ==> c.hash == d.hash
    ensures c.target.Some? && d.target.Some? ==> c.target == d.target
    ensures c.entries.Some? && d.entries.Some? ==> c.entries == d.entries
  {
    if c.entries.Some? && d.entries.Some? {
      ListingsAgree(r, t, path, Below(cfg.remoteDir, path), c.entries.value, d.entries.value);
    }
  }

  lemma ListingsAgree(r: Tree, t: Table, path: string, p: string, m: EntryMap, m': EntryMap)
    requires UniquePaths(t) && EntriesOK(t, path, m) && EntriesOK(t, path, m')
    requires EntriesTrue(r, p, m) && EntriesTrue(r, p, m')
    ensures m == m'
  {
    forall n | n in m
      ensures n in m' && m'[n] == m[n]
    {
      assert Join(p, n) in r;
      assert t[m[n].inode].path == t[m'[n].inode].path;
    }
    forall n | n in m'
      ensures n in m
    {
      assert Join(p, n) in r;
    }
  }

  lemma RememberedRow(cfg: Config, r: Tree, t: Table, st: Store, path: string, c: CachedRow)
    requires TableOK(cfg, t, st) && TableTrue(cfg, r, t)
    requires CachedOK(cfg, t, st, path, c) && CachedTrue(cfg, r, path, c)
    ensures SelectFull(t, path).Found? && UnderApproximates(c, SelectFull(t, path).row)
  {
    SelectsRow(t, c.inode);
    SelectOK(cfg, t, st, path);
    SelectTrue(cfg, r, t, st, path);
    var d := SelectFull(t, path).row;
    VersionsAgree(cfg, r, t, st, path, c, d);
    assert d.info == RowInfo(t[c.inode]) && d.hash == t[c.inode].contentHash && d.target == t[c.inode].target;
  }

  /**
   The fast path refines the slow path: a row remembered by a directory is what a fresh
   query returns, except for columns that were still NULL when it was read.
   */
  lemma FastPathRefines(cfg: Config, r: Tree, s: State, nid: nat, name: string)
    requires Ideal(cfg, r) && ReachedOn(cfg, r, s) && nid in s.nodes && name in s.nodes[nid].rows
    ensures var now := SelectFull(s.table, Join(s.nodes[nid].path, name));
            now.Found? && UnderApproximates(s.nodes[nid].rows[name], now.row)
  {
    ReachedTruth(cfg, r, s);
    assert NodeOK(cfg, s.table, s.store, s.nodes[nid]) && NodeTrue(cfg, r, s.nodes[nid]);
    RememberedRow(cfg, r, s.table, s.store, Join(s.nodes[nid].path, name), s.nodes[nid].rows[name]);
  }

  // ----- replies -----

  predicate Succeeds(o: Observation) {
    o.Observed? && !o.reply.Error?
  }

  lemma ObservedHonestly(cfg: Config, r: Tree, s: State, i: nat)
    requires Ideal(cfg, r) && Inv(cfg, s) && Truth(cfg, r, s) && i < |s.log|
    ensures ObservationOK(cfg, s.table, s.store, s.log[i]) && HonestObservation(r, s.log[i])
  {
    assert ObservationOK(cfg, s.table, s.store, s.log[i]) && ObservationTrue(cfg, r, s.log[i]);
    TrueIsHonest(cfg, r, s.table, s.store, s.log[i]);
  }

  lemma DirentsAgree(t: Table, r: Tree, path: string, p: string, ds: set<Dirent>, ds': set<Dirent>)
    requires UniquePaths(t) && DirentsOK(t, path, ds) && DirentsOK(t, path, ds')
    requires DirentsTrue(r, p, ds) && DirentsTrue(r, p, ds')
    ensures ds <= ds'
  {
    forall d | d in ds
      ensures d in ds'
    {
      assert ProperName(d.name) && Join(p, d.name) in r;
      var d' :| d' in ds' && d'.name == d.name;
      assert t[d.inode].path == t[d'.inode].path;
      assert d == d';
    }
  }

  lemma SameReplies(cfg: Config, r: Tree, t: Table, st: Store, o: Observation, o': Observation)
    requires UniquePaths(t) && Succeeds(o) && Succeeds(o') && o.op == o'.op
    requires o.op in {Attr, Readlink, ReadDirAll, Open} && o.node.path == o'.node.path
    requires ObservationOK(cfg, t, st, o) && ObservationOK(cfg, t, st, o')
    requires Honest(r, o.op, o.node, o.reply) && Honest(r, o'.op, o'.node, o'.reply)
    ensures o.reply == o'.reply
  {
    assert o.node.below == o'.node.below;
    assert t[o.node.inode].path == t[o'.node.inode].path;
    if o.op.ReadDirAll? {
      DirentsAgree(t, r, o.node.path, o.node.below, o.reply.dirents, o'.reply.dirents);
      DirentsAgree(t, r, o.node.path, o.node.below, o'.reply.dirents, o.reply.dirents);
    }
  }

  /**
   Any two nodes of the same path give the same successful answers, no matter when and how
   the nodes were made.
   */
  lemma SameAnswers(cfg: Config, r: Tree, s: State, i: nat, j: nat)
    requires Ideal(cfg, r) && ReachedOn(cfg, r, s) && i < |s.log| && j < |s.log|
    requires Succeeds(s.log[i]) && Succeeds(s.log[j]) && s.log[i].op == s.log[j].op
    requires s.log[i].op in {Attr, Readlink, ReadDirAll, Open} && s.log[i].node.path == s.log[j].node.path
    ensures s.log[i].reply == s.log[j].reply
  {
    ReachedTruth(cfg, r, s);
    ObservedHonestly(cfg, r, s, i);
    ObservedHonestly(cfg, r, s, j);
    SameReplies(cfg, r, s.table, s.store, s.log[i], s.log[j]);
  }

  lemma ListedOnce(t: Table, r: Tree, path: string, p: string, ds: set<Dirent>, name: string, inode: nat)
    requires UniquePaths(t) && DirentsOK(t, path, ds) && DirentsTrue(r, p, ds)
    requires ProperName(name) && Join(p, name) in r && inode in t && t[inode].path == Join(path, name)
    ensures forall d :: d in ds && d.name == name <==> d == Dirent(inode, name, KindOf(r[Join(p, name)]))
  {
    forall d | d in ds && d.name == name
      ensures d == Dirent(inode, name, KindOf(r[Join(p, name)]))
    {
      assert t[d.inode].path == t[inode].path;
    }
    var d :| d in ds && d.name == name;
  }

  /** The listing has the name exactly when the lookup found it, with the same inode and type. */
  ghost predicate Matches(name: string, found: Reply, listed: Reply) {
    listed.EntriesReply? &&
    match found
    case NoEnt => forall d :: d in listed.dirents ==> d.name != name
    case NodeReply(n) =>
      n.typeName != NoEntry &&
      forall d :: d in listed.dirents && d.name == name <==>
                  d == Dirent(n.inode, name, EntryOfType(n.inode, n.typeName).modeType)
    case _ => false
  }

  lemma FoundIsListed(cfg: Config, r: Tree, t: Table, st: Store, lk: Observation, rd: Observation)
    requires UniquePaths(t) && Succeeds(lk) && lk.op.Lookup? && Succeeds(rd) && rd.op.ReadDirAll?
    requires rd.node.path == lk.node.path
    requires ObservationOK(cfg, t, st, lk) && ObservationOK(cfg, t, st, rd)
    requires Honest(r, lk.op, lk.node, lk.reply) && Honest(r, rd.op, rd.node, rd.reply)
    ensures Matches(lk.op.name, lk.reply, rd.reply)
  {
    var name := lk.op.name;
    assert rd.node.below == lk.node.below;
    if lk.reply.NodeReply? {
      var n := lk.reply.node;
      assert NodeOK(cfg, t, st, n) && n.path == Join(lk.node.path, name);
      EntryOfKind(n.inode, KindOf(r[n.below]));
      ListedOnce(t, r, lk.node.path, lk.node.below, rd.reply.dirents, name, n.inode);
    }
  }

  /**
   Listings and lookups agree: a listing of a directory has a name with an inode and a type
   exactly when Lookup of the name finds a node with that inode and type, whichever ran first.
   */
  lemma ReaddirAgreesWithLookup(cfg: Config, r: Tree, s: State, i: nat, j: nat)
    requires Ideal(cfg, r) && ReachedOn(cfg, r, s) && i < |s.log| && j < |s.log|
    requires Succeeds(s.log[i]) && s.log[i].op.Lookup?
    requires Succeeds(s.log[j]) && s.log[j].op.ReadDirAll? && s.log[j].node.path == s.log[i].node.path
    ensures Matches(s.log[i].op.name, s.log[i].reply, s.log[j].reply)
  {
    ReachedTruth(cfg, r, s);
    ObservedHonestly(cfg, r, s, i);
    ObservedHonestly(cfg, r, s, j);
    FoundIsListed(cfg, r, s.table, s.store, s.log[i], s.log[j]);
  }

  // ----- objects -----

  /** The bytes of an object never change, even when several handlers put the same file. */
  lemma ObjectsNeverChange(cfg: Config, r: Tree, s: State, evs: seq<Event>, key: string)
    requires Ideal(cfg, r) && ReachedOn(cfg, r, s) && TruthfulRun(cfg, r, s, evs)
    requires HasObject(cfg.cacheRoot, s.store, key)
    ensures HasObject(cfg.cacheRoot, Exec(cfg, s, evs).store, key)
    ensures Exec(cfg, s, evs).store.files[PathForKey(cfg.cacheRoot, key)] == s.store.files[PathForKey(cfg.cacheRoot, key)]
  {
    ReachedTruth(cfg, r, s);
    TruthfulRunWf(cfg, r, s, evs);
    ExecOK(cfg, s, evs);
    ExecTrue(cfg, r, s, evs);
    var before, after := s.store.files[PathForKey(cfg.cacheRoot, key)], Exec(cfg, s, evs).store.files[PathForKey(cfg.cacheRoot, key)];
    assert before in Contents(r) && after in Contents(r);
    assert KeyFor(cfg, before) == KeyFor(cfg, after);
  }
}
