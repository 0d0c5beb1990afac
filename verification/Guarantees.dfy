/**
 What the invariants mean to somebody who uses the file system, for runs on a
 remote tree that may change and fail in any way.
 */
module Guarantees {
  import opened Wrappers
  import opened DirEntries
  import opened Metadata
  import opened Content
  import opened Handlers
  import opened Paths
  import opened Structure
  import opened StructureSteps
  import opened Runs
  import opened Safety

  ghost predicate Reachable(cfg: Config, s: State) {
    exists evs :: WfEvents(evs) && s == Exec(cfg, INITIAL, evs)
  }

  lemma ReachableInv(cfg: Config, s: State)
    requires WfConfig(cfg) && Reachable(cfg, s)
    ensures Inv(cfg, s)
  {
    var evs :| WfEvents(evs) && s == Exec(cfg, INITIAL, evs);
    ReachableOK(cfg, evs);
  }

  // ----- rows and inodes -----

  /**
   A path keeps its inode forever and an inode its path, and no two paths share one;
   a column that has been set stays set.
   */
  lemma PathsAndInodes(cfg: Config, s: State, evs: seq<Event>)
    requires WfConfig(cfg) && Reachable(cfg, s) && WfEvents(evs)
    ensures var s' := Exec(cfg, s, evs);
            (forall id :: id in s.table ==>
              id in s'.table && s'.table[id].path == s.table[id].path &&
              (RowInfo(s.table[id]).Some? ==> RowInfo(s'.table[id]).Some?) &&
              (s.table[id].dirEntries.Some? ==> s'.table[id].dirEntries.Some?) &&
              (s.table[id].contentHash.Some? ==> s'.table[id].contentHash.Some?) &&
              (s.table[id].target.Some? ==> s'.table[id].target.Some?)) &&
            (forall i, j :: i in s'.table && j in s'.table && s'.table[i].path == s'.table[j].path ==> i == j)
  {
    ReachableInv(cfg, s);
    ExecOK(cfg, s, evs);
    var s' := Exec(cfg, s, evs);
    forall id | id in s.table
      ensures id in s'.table && Kept(cfg, s.table[id], s'.table[id])
    {
    }
  }

  /** Every node's two paths carry the same components, one below "/" and one below the remote directory. */
  lemma NodePaths(cfg: Config, s: State, nid: nat)
    requires WfConfig(cfg) && Reachable(cfg, s) && nid in s.nodes
    ensures var n := s.nodes[nid];
            Canonical(n.path) && Components(n.below) == Components(cfg.remoteDir) + Components(n.path) &&
            n.inode in s.table && s.table[n.inode].path == n.path
  {
    ReachableInv(cfg, s);
    assert NodeOK(cfg, s.table, s.store, s.nodes[nid]);
    BelowComponents(cfg.remoteDir, s.nodes[nid].path);
  }

  // ----- sticky existence -----

  /**
   Below a cached directory the first row of a name decides its type and its inode for
   good: whatever happens to the remote tree, every Lookup of that name in the
   whole run, before or after any crash, reports that row or an error.
   */
  lemma StickyLookup(cfg: Config, s: State, evs: seq<Event>, id: nat, i: nat)
    requires WfConfig(cfg) && Reachable(cfg, s) && WfEvents(evs)
    requires id in s.table && i < |Exec(cfg, s, evs).log|
    requires var o := Exec(cfg, s, evs).log[i];
             o.Observed? && o.op.Lookup? && !o.node.direct && s.table[id].path == Join(o.node.path, o.op.name)
    ensures var o := Exec(cfg, s, evs).log[i];
            (o.reply.NodeReply? ==> o.reply.node.inode == id && o.reply.node.typeName == s.table[id].typeName) &&
            (o.reply.NoEnt? ==> s.table[id].typeName == NoEntry) &&
            (o.reply.NodeReply? || o.reply.NoEnt? || o.reply.Error?)
  {
    ReachableInv(cfg, s);
    ExecOK(cfg, s, evs);
    var s' := Exec(cfg, s, evs);
    var o := s'.log[i];
    assert ObservationOK(cfg, s'.table, s'.store, o);
    StickyReply(cfg, s.table, s'.table, s'.store, o, id);
  }

  lemma StickyReply(cfg: Config, t: Table, t': Table, st': Store, o: Observation, id: nat)
    requires Grows(cfg, t, t') && UniquePaths(t') && ObservationOK(cfg, t', st', o)
    requires o.Observed? && o.op.Lookup? && !o.node.direct
    requires id in t && t[id].path == Join(o.node.path, o.op.name)
    ensures o.reply.NodeReply? ==> o.reply.node.inode == id && o.reply.node.typeName == t[id].typeName
    ensures o.reply.NoEnt? ==> t[id].typeName == NoEntry
    ensures o.reply.NodeReply? || o.reply.NoEnt? || o.reply.Error?
  {
    var path := Join(o.node.path, o.op.name);
    PinnedChild(cfg, o.node.path, o.op.name);
    assert Kept(cfg, t[id], t'[id]);
    if o.reply.NodeReply? {
      var n := o.reply.node;
      assert CachedOK(cfg, t', st', n.path, CachedOf(n));
      assert t'[n.inode].path == path == t'[id].path;
    } else if o.reply.NoEnt? {
      var j :| j in t' && t'[j].path == path && t'[j].typeName == NoEntry;
      assert t'[j].path == t'[id].path;
    }
  }

  // ----- the object store -----

  /** Every object holds bytes whose digest is its key, at every step of every run. */
  lemma StoreIntegrity(cfg: Config, s: State, key: string)
    requires WfConfig(cfg) && Reachable(cfg, s) && HasObject(cfg.cacheRoot, s.store, key)
    ensures KeyFor(cfg, s.store.files[PathForKey(cfg.cacheRoot, key)]) == key
  {
    ReachableInv(cfg, s);
  }

  /** The hash has its object. */
  predicate Backed(cfg: Config, st: Store, hash: Option<string>) {
    hash.Some? ==> HasObject(cfg.cacheRoot, st, hash.value)
  }

  ghost predicate NodeBacked(cfg: Config, st: Store, node: Node) {
    Backed(cfg, st, node.hash) && forall name :: name in node.rows ==> Backed(cfg, st, node.rows[name].hash)
  }

  lemma FaithfulHash(cfg: Config, st: Store, hash: Option<string>)
    requires !Mangled(cfg, st) && HashOK(cfg, st, hash)
    ensures Backed(cfg, st, hash)
  {
    if hash.Some? {
      var k :| HasObject(cfg.cacheRoot, st, k) && (hash.value == k || hash.value == cfg.affinity(k));
      assert cfg.affinity(k) == k;
    }
  }

  lemma FaithfulNode(cfg: Config, t: Table, st: Store, node: Node)
    requires !Mangled(cfg, st) && NodeOK(cfg, t, st, node)
    ensures NodeBacked(cfg, st, node)
  {
    FaithfulHash(cfg, st, node.hash);
    forall name | name in node.rows
      ensures Backed(cfg, st, node.rows[name].hash)
    {
      FaithfulHash(cfg, st, node.rows[name].hash);
    }
  }

  /** No hash a running handler holds or is about to record is without its object. */
  ghost predicate ProcBacked(cfg: Config, st: Store, p: Proc) {
    (!p.op.Mount? ==> NodeBacked(cfg, st, p.node)) &&
    (p.pc.Opening? && p.pc.op.PutHash? ==> HasObject(cfg.cacheRoot, st, p.pc.op.key))
  }

  lemma FaithfulProc(cfg: Config, t: Table, st: Store, p: Proc)
    requires !Mangled(cfg, st) && ProcOK(cfg, t, st, p)
    ensures ProcBacked(cfg, st, p)
  {
    if !p.op.Mount? {
      FaithfulNode(cfg, t, st, p.node);
    }
  }

  lemma FaithfulTable(cfg: Config, t: Table, st: Store, id: nat)
    requires !Mangled(cfg, st) && TableOK(cfg, t, st) && id in t
    ensures Backed(cfg, st, t[id].contentHash)
  {
    assert RowOK(cfg, t, st, id, t[id]);
    FaithfulHash(cfg, st, t[id].contentHash);
  }

  lemma FaithfulState(cfg: Config, s: State)
    requires Inv(cfg, s) && !Mangled(cfg, s.store)
    ensures forall id :: id in s.table ==> Backed(cfg, s.store, s.table[id].contentHash)
    ensures forall nid :: nid in s.nodes ==> NodeBacked(cfg, s.store, s.nodes[nid])
    ensures forall pid :: pid in s.procs ==> ProcBacked(cfg, s.store, s.procs[pid])
  {
    forall id | id in s.table
      ensures Backed(cfg, s.store, s.table[id].contentHash)
    {
      FaithfulTable(cfg, s.table, s.store, id);
    }
    forall nid | nid in s.nodes
      ensures NodeBacked(cfg, s.store, s.nodes[nid])
    {
      FaithfulNode(cfg, s.table, s.store, s.nodes[nid]);
    }
    forall pid | pid in s.procs
      ensures ProcBacked(cfg, s.store, s.procs[pid])
    {
      FaithfulProc(cfg, s.table, s.store, s.procs[pid]);
    }
  }

  /**
   At every step of every run, no hash in the table, in a node, in a remembered row or in
   the hands of a running handler is left without its object, as long as the text
   column gives the keys of the stored objects back unchanged.
   */
  lemma NoDanglingHash(cfg: Config, s: State)
    requires WfConfig(cfg) && Reachable(cfg, s) && !Mangled(cfg, s.store)
    ensures forall id :: id in s.table ==> Backed(cfg, s.store, s.table[id].contentHash)
    ensures forall nid :: nid in s.nodes ==> NodeBacked(cfg, s.store, s.nodes[nid])
    ensures forall pid :: pid in s.procs ==> ProcBacked(cfg, s.store, s.procs[pid])
  {
    ReachableInv(cfg, s);
    FaithfulState(cfg, s);
  }

  /**
   Whatever the remote tree does, an Open that succeeds gives bytes whose digest is the hash of
   its node, if that hash is a key at all; and it is one if no key is mangled.
   */
  lemma OpensMatchHash(cfg: Config, s: State, i: nat)
    requires WfConfig(cfg) && Reachable(cfg, s) && i < |s.log| && s.log[i].Observed? && s.log[i].reply.HandleReply?
    ensures var o := s.log[i];
            o.op.Open? && o.node.hash.Some? &&
            (IsKey(o.node.hash.value) ==> KeyFor(cfg, o.reply.data) == o.node.hash.value) &&
            (!Mangled(cfg, s.store) ==> IsKey(o.node.hash.value))
  {
    ReachableInv(cfg, s);
    assert ObservationOK(cfg, s.table, s.store, s.log[i]);
    if !Mangled(cfg, s.store) {
      FaithfulNode(cfg, s.table, s.store, s.log[i].node);
    }
  }

  // ----- listings -----

  /** Every stored listing reads back, and each of its entries refers to the row of that name below the directory. */
  lemma ListingsRefer(cfg: Config, s: State, id: nat)
    requires WfConfig(cfg) && Reachable(cfg, s) && id in s.table && s.table[id].dirEntries.Some?
    ensures var m := Parse(s.table[id].dirEntries.value, map[]);
            m.Parsed? &&
            forall n :: n in m.entries ==>
              m.entries[n].inode in s.table && s.table[m.entries[n].inode].path == Join(s.table[id].path, n)
  {
    ReachableInv(cfg, s);
    assert RowOK(cfg, s.table, s.store, id, s.table[id]);
  }

  // ----- the program never aborts -----

  /**
   The file details of a row are all set or all NULL and an update by path
   affects at most one row, so no operation aborts; only Open can, and only if the text
   column mangles the key of a stored object.
   */
  lemma NeverFatal(cfg: Config, s: State)
    requires WfConfig(cfg) && Reachable(cfg, s)
    ensures forall id :: id in s.table ==> InfoComplete(s.table[id]) && RowEntry(id, s.table[id]).Found?
    ensures forall path :: |Matching(s.table, path)| <= 1
    ensures forall i :: 0 <= i < |s.log| && s.log[i].Observed? && (s.log[i].reply.Panic? || s.log[i].reply.NoKey?) ==>
              s.log[i].op.Open? && Mangled(cfg, s.store)
  {
    ReachableInv(cfg, s);
    forall id | id in s.table
      ensures InfoComplete(s.table[id]) && RowEntry(id, s.table[id]).Found?
    {
      assert RowOK(cfg, s.table, s.store, id, s.table[id]);
    }
    forall path
      ensures |Matching(s.table, path)| <= 1
    {
      RowsAffected(s.table, path);
    }
    forall i | 0 <= i < |s.log| && s.log[i].Observed? && (s.log[i].reply.Panic? || s.log[i].reply.NoKey?)
      ensures s.log[i].op.Open? && Mangled(cfg, s.store)
    {
      assert ObservationOK(cfg, s.table, s.store, s.log[i]);
    }
  }
}
