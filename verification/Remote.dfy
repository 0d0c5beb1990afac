/**
 The remote tree as the simple thing the caches speed up, and what it means for a
 row, a node, a reply or an answer of the outside world to agree with it.
 */
module Remote {
  import opened Wrappers
  import opened DirEntries
  import opened Metadata
  import opened Content
  import opened Handlers
  import opened Paths
  import opened Structure
  import opened Runs

  datatype Object =
    | RemoteFile(info: FileInfo, content: Bytes)
    | RemoteDir(info: FileInfo)
    | RemoteLink(info: FileInfo, target: string)

  /** The objects by their remote path. */
  type Tree = map<string, Object>

  function KindOf(o: Object): ModeType {
    match o
    case RemoteFile(_, _) => RegularType
    case RemoteDir(_) => DirType
    case RemoteLink(_, _) => SymlinkType
  }

  function Contents(r: Tree): set<Bytes> {
    set p | p in r && r[p].RemoteFile? :: r[p].content
  }

  /** The tree's root is a directory and its names can be written to a listing. */
  ghost predicate WfTree(cfg: Config, r: Tree) {
    (forall p :: p in r ==> r[p].info.mode.modeType == KindOf(r[p])) &&
    Below(cfg.remoteDir, "/") in r && r[Below(cfg.remoteDir, "/")].RemoteDir? &&
    (forall p, n :: ProperName(n) && Join(p, n) in r ==> EntryName(n))
  }

  /** The hypothesis that text columns give back the tree's link targets and digests unchanged. */
  ghost predicate StoredFaithfully(cfg: Config, r: Tree) {
    forall p :: p in r ==>
      (r[p].RemoteLink? ==> cfg.affinity(r[p].target) == r[p].target) &&
      (r[p].RemoteFile? ==> cfg.affinity(KeyFor(cfg, r[p].content)) == KeyFor(cfg, r[p].content))
  }

  /** The hypothesis that no two files of the tree collide under the digest. */
  ghost predicate NoCollision(cfg: Config, r: Tree) {
    forall a, b :: a in Contents(r) && b in Contents(r) && KeyFor(cfg, a) == KeyFor(cfg, b) ==> a == b
  }

  ghost predicate Ideal(cfg: Config, r: Tree) {
    WfConfig(cfg) && WfTree(cfg, r) && StoredFaithfully(cfg, r) && NoCollision(cfg, r)
  }

  // ----- agreement of what is remembered -----

  predicate TypeTrue(r: Tree, p: string, t: TypeName) {
    if t == NoEntry then p !in r else p in r && t == SqlTypeName(KindOf(r[p]))
  }

  predicate InfoTrue(r: Tree, p: string, info: FileInfo) {
    p in r && r[p].info == info
  }

  predicate KeyTrue(cfg: Config, r: Tree, p: string, key: string) {
    p in r && r[p].RemoteFile? && key == KeyFor(cfg, r[p].content)
  }

  predicate TargetTrue(r: Tree, p: string, target: string) {
    p in r && r[p].RemoteLink? && r[p].target == target
  }

  /** Exactly the children of p, with their types. */
  ghost predicate EntriesTrue(r: Tree, p: string, m: EntryMap) {
    (forall n :: n in m ==> ProperName(n) && Join(p, n) in r && m[n].valid && m[n].modeType == KindOf(r[Join(p, n)])) &&
    (forall n :: ProperName(n) && Join(p, n) in r ==> n in m)
  }

  ghost predicate CachedTrue(cfg: Config, r: Tree, path: string, c: CachedRow) {
    var p := Below(cfg.remoteDir, path);
    TypeTrue(r, p, c.typeName) &&
    (c.info.Some? ==> InfoTrue(r, p, c.info.value)) &&
    (c.entries.Some? ==> EntriesTrue(r, p, c.entries.value)) &&
    (c.hash.Some? ==> KeyTrue(cfg, r, p, c.hash.value)) &&
    (c.target.Some? ==> TargetTrue(r, p, c.target.value))
  }

  ghost predicate RowTrue(cfg: Config, r: Tree, id: nat, row: Row) {
    RowEntry(id, row).Found? ==> CachedTrue(cfg, r, row.path, RowEntry(id, row).row)
  }

  ghost predicate TableTrue(cfg: Config, r: Tree, t: Table) {
    forall id :: id in t ==> RowTrue(cfg, r, id, t[id])
  }

  ghost predicate StoreTrue(cfg: Config, r: Tree, st: Store) {
    forall k :: HasObject(cfg.cacheRoot, st, k) ==> st.files[PathForKey(cfg.cacheRoot, k)] in Contents(r)
  }

  ghost predicate NodeTrue(cfg: Config, r: Tree, node: Node) {
    CachedTrue(cfg, r, node.path, CachedOf(node)) &&
    forall name :: name in node.rows ==> CachedTrue(cfg, r, Join(node.path, name), node.rows[name])
  }

  // ----- agreement of replies -----

  ghost predicate DirentsTrue(r: Tree, p: string, ds: set<Dirent>) {
    (forall d :: d in ds ==> ProperName(d.name) && Join(p, d.name) in r && d.modeType == KindOf(r[Join(p, d.name)])) &&
    (forall n :: ProperName(n) && Join(p, n) in r ==> exists d :: d in ds && d.name == n)
  }

  predicate ContentTrue(r: Tree, p: string, data: Bytes) {
    p in r && r[p].RemoteFile? && r[p].content == data
  }

  /** What the remote tree says about the answer to an operation on the node. */
  ghost predicate ReplyTrue(cfg: Config, r: Tree, op: Op, node: Node, reply: Reply) {
    match reply
    case NoEnt => forall name :: Seeks(op, name) ==> Join(node.below, name) !in r
    case NodeReply(n) => NodeTrue(cfg, r, n)
    case AttrReply(_, info) => InfoTrue(r, node.below, info)
    case EntriesReply(ds) => DirentsTrue(r, node.below, ds)
    case TargetReply(target) => TargetTrue(r, node.below, target)
    case HandleReply(data) => ContentTrue(r, node.below, data)
    case _ => true
  }

  // ----- truthful answers: the remote may fail at any call, but it does not lie -----

  predicate StatTrue(r: Tree, p: string, stat: Stat) {
    match stat
    case StatOk(info) => InfoTrue(r, p, info)
    case StatNoEnt => p !in r
    case StatErr => true
  }

  ghost predicate ListingTrue(r: Tree, p: string, listing: seq<Listed>) {
    (forall i :: 0 <= i < |listing| ==>
      ProperName(listing[i].name) && Join(p, listing[i].name) in r &&
      listing[i].modeType == KindOf(r[Join(p, listing[i].name)])) &&
    (forall n :: ProperName(n) && Join(p, n) in r ==> exists i :: 0 <= i < |listing| && listing[i].name == n)
  }

  ghost predicate Truthful(r: Tree, l: Local, a: Answer) {
    match l.pc
    case Looking(lk) => (lk.AskDirect? || lk.AskMiss?) ==> StatTrue(r, Join(l.node.below, lk.name), a.stat)
    case Stating(at) => at.CallLstat? ==> StatTrue(r, l.node.below, a.stat)
    case Linking(rl) => rl.CallReadlink? && a.target.Some? ==> TargetTrue(r, l.node.below, a.target.value)
    case Opening(op) =>
      op.Fetch? && Copy(a.turns, [], [], 0).err == None ==> ContentTrue(r, l.node.below, Delivered(a.turns))
    case Listing(rd) => rd.ReadEntries? && a.listing.Some? ==> ListingTrue(r, l.node.below, a.listing.value)
    case Done(_) => true
  }

  // ----- agreement of running handlers -----

  predicate LookupTrue(cfg: Config, r: Tree, node: Node, pc: LookupPc) {
    match pc
    case Update(name, typeName) => TypeTrue(r, Below(cfg.remoteDir, Join(node.path, name)), typeName)
    case Insert(name, typeName) => TypeTrue(r, Below(cfg.remoteDir, Join(node.path, name)), typeName)
    case _ => true
  }

  predicate OpenTrue(cfg: Config, r: Tree, st: Store, node: Node, pc: OpenPc) {
    match pc
    case CheckKey(temp, key) => temp in st.files && ContentTrue(r, node.below, st.files[temp])
                                && KeyTrue(cfg, r, node.below, key)
    case MakeBucket(temp, key) => temp in st.files && ContentTrue(r, node.below, st.files[temp])
                                  && KeyTrue(cfg, r, node.below, key)
    case RenameTemp(temp, key) => temp in st.files && ContentTrue(r, node.below, st.files[temp])
                                  && KeyTrue(cfg, r, node.below, key)
    case RemoveTemp(_, put) => put.Some? ==> KeyTrue(cfg, r, node.below, put.value)
    case PutHash(key) => KeyTrue(cfg, r, node.below, key)
    case _ => true
  }

  /** The entries done and to do are together exactly the children of p. */
  ghost predicate ListTrue(r: Tree, p: string, todo: seq<Listed>, done: seq<Entry>) {
    (forall i :: 0 <= i < |todo| ==>
      ProperName(todo[i].name) && Join(p, todo[i].name) in r && todo[i].modeType == KindOf(r[Join(p, todo[i].name)])) &&
    (forall i :: 0 <= i < |done| ==>
      ProperName(done[i].name) && Join(p, done[i].name) in r &&
      done[i].typeName == SqlTypeName(KindOf(r[Join(p, done[i].name)]))) &&
    (forall n :: ProperName(n) && Join(p, n) in r ==>
      (exists i :: 0 <= i < |todo| && todo[i].name == n) || (exists i :: 0 <= i < |done| && done[i].name == n))
  }

  ghost predicate ReaddirTrue(r: Tree, node: Node, pc: ReaddirPc) {
    match pc
    case SelectEntry(todo, done) => ListTrue(r, node.below, todo, done)
    case InsertEntry(todo, done) => ListTrue(r, node.below, todo, done)
    case PutEntries(done) => ListTrue(r, node.below, [], done)
    case _ => true
  }

  ghost predicate PcTrue(cfg: Config, r: Tree, st: Store, op: Op, node: Node, pc: Pc) {
    match pc
    case Looking(lk) => LookupTrue(cfg, r, node, lk)
    case Stating(at) => at.PutInfo? ==> InfoTrue(r, node.below, at.info)
    case Linking(rl) => rl.PutTarget? ==> TargetTrue(r, node.below, rl.target)
    case Opening(o) => OpenTrue(cfg, r, st, node, o)
    case Listing(rd) => ReaddirTrue(r, node, rd)
    case Done(reply) => ReplyTrue(cfg, r, op, node, reply)
  }

  ghost predicate HolderTrue(cfg: Config, r: Tree, op: Op, node: Node) {
    op.Mount? || NodeTrue(cfg, r, node)
  }

  ghost predicate LocalTrue(cfg: Config, r: Tree, op: Op, l: Local) {
    TableTrue(cfg, r, l.table) && StoreTrue(cfg, r, l.store) &&
    HolderTrue(cfg, r, op, l.node) && PcTrue(cfg, r, l.store, op, l.node, l.pc)
  }
}
