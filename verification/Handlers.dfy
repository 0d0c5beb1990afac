/**
 The file system operations as small-step machines. One step is one action on
 shared state or on the outside world: a SQL statement, a call on the remote tree,
 or a call on the cache directory. What happens between two such actions touches
 only the node whose lock the handler holds, and is part of the step before.

 The outcome of each action comes from an Answer, so a machine is a function of
 its start and of the answers it gets.
 */
module Handlers {
  import opened Wrappers
  import opened Paths
  import opened DirEntries
  import opened Metadata
  import opened Content

  /**
   direct: the path does not match the regular expression of cached paths.
   affinity: what a text column gives back for a text stored in it.
   */
  datatype Config = Config(
    remoteDir: string, cacheRoot: string, direct: string -> bool,
    md5: Bytes -> Digest, affinity: string -> string)

  function KeyFor(cfg: Config, data: Bytes): (k: string)
    ensures IsKey(k)
  {
    KeyOf(cfg.md5(data))
  }

  /** A node of any of the three kinds; the fields of the other kinds stay empty. */
  datatype Node = Node(
    path: string, below: string, inode: nat, direct: bool, typeName: TypeName,
    info: Option<FileInfo>, entries: Option<EntryMap>, hash: Option<string>, target: Option<string>,
    rows: map<string, CachedRow>)

  datatype Op = Lookup(name: string) | Attr | ReadDirAll | Readlink | Open | Mount

  datatype Dirent = Dirent(inode: nat, name: string, modeType: ModeType)

  /** NoKey is the error for a key without an object; Panic is the program aborting. */
  datatype Reply =
    | Error | NoEnt | NoKey | Panic
    | NodeReply(node: Node)
    | AttrReply(inode: nat, info: FileInfo)
    | EntriesReply(dirents: set<Dirent>)
    | TargetReply(target: string)
    | HandleReply(data: Bytes)

  datatype Stat = StatOk(info: FileInfo) | StatNoEnt | StatErr

  datatype Listed = Listed(name: string, modeType: ModeType)

  /** The outcome of one action; each action looks at its own fields only. */
  datatype Answer = Answer(
    fault: bool,                  // a SQL statement or a call on the cache directory fails
    rowId: nat,                   // the row id an INSERT gets
    stat: Stat,                   // remote Lstat
    openOk: bool,                 // remote Open succeeds
    listing: Option<seq<Listed>>, // remote Readdir
    target: Option<string>,       // remote Readlink
    turns: seq<Turn>,             // the copy loop over the remote file
    suffix: string)               // the random part of a temporary file's name

  /** Statistics of one handler: at most one of the first three is counted per operation. */
  datatype Acct = Acct(hit: nat, miss: nat, direct: nat, remote: nat)

  const ZERO: Acct := Acct(0, 0, 0, 0)

  /** Where a handler is: the action it takes next. EnsureRow starts the root set-up. */
  datatype LookupPc =
    | Query(name: string)
    | AskDirect(name: string, cached: bool)
    | AskMiss(name: string)
    | Update(name: string, typeName: TypeName)
    | Insert(name: string, typeName: TypeName)
    | Reload(name: string)
    | EnsureRow(name: string, typeName: TypeName)

  datatype AttrPc = CallLstat | PutInfo(info: FileInfo)

  datatype ReadlinkPc = CallReadlink | PutTarget(target: string)

  datatype OpenPc =
    | OpenRemote
    | CreateTemp
    | Fetch(temp: string)
    | CheckKey(temp: string, key: string)
    | MakeBucket(temp: string, key: string)
    | RenameTemp(temp: string, key: string)
    | RemoveTemp(temp: string, put: Option<string>)
    | PutHash(key: string)
    | FindObject
    | OpenObject

  datatype ReaddirPc =
    | OpenDir
    | ReadEntries
    | SelectEntry(todo: seq<Listed>, done: seq<Entry>)
    | InsertEntry(todo: seq<Listed>, done: seq<Entry>)
    | PutEntries(done: seq<Entry>)
    | SelectEntries

  datatype Pc =
    | Looking(lk: LookupPc)
    | Stating(at: AttrPc)
    | Linking(rl: ReadlinkPc)
    | Opening(op: OpenPc)
    | Listing(rd: ReaddirPc)
    | Done(reply: Reply)

  /** Everything a handler can see: its node, its program counter and the shared state. */
  datatype Local = Local(node: Node, pc: Pc, table: Table, store: Store, acct: Acct)

  // ----- shared pieces -----

  function Return(l: Local, r: Reply): Local { l.(pc := Done(r)) }

  function Goto(l: Local, pc: Pc): Local { l.(pc := pc) }

  function CountHit(l: Local): Local { l.(acct := l.acct.(hit := l.acct.hit + 1)) }

  /** Counts the operation as direct or as a miss, and the remote call that follows at once. */
  function CountRemote(l: Local): Local {
    var a := l.acct.(remote := l.acct.remote + 1);
    l.(acct := if l.node.direct then a.(direct := a.direct + 1) else a.(miss := a.miss + 1))
  }

  function MoreRemote(l: Local, n: nat): Local { l.(acct := l.acct.(remote := l.acct.remote + n)) }

  /** A node just made from the row, with the columns that belong to its type. */
  function NodeOf(cfg: Config, path: string, below: string, row: CachedRow): Node {
    Node(path, below, row.inode, cfg.direct(path), row.typeName, row.info,
         if row.typeName == Directory then row.entries else None, if row.typeName == File then row.hash else None,
         if row.typeName == Symlink then row.target else None, map[])
  }

  function NodeFor(cfg: Config, parentPath: string, parentBelow: string, row: CachedRow, name: string): Reply {
    if row.typeName == NoEntry then NoEnt
    else NodeReply(NodeOf(cfg, Join(parentPath, name), Join(parentBelow, name), row))
  }

  /** The valid entries of a directory, as ReadDirAll reports them. */
  function Dirents(m: EntryMap): set<Dirent> {
    set n | n in m && m[n].valid :: Dirent(m[n].inode, n, m[n].modeType)
  }

  // ----- Lookup and the root set-up -----

  function Resolve(cfg: Config, l: Local, name: string, row: CachedRow): Local {
    var node := l.node.(rows := l.node.rows[name := row]);
    Return(l.(node := node), NodeFor(cfg, node.path, node.below, row, name))
  }

  ghost function LookupQuery(cfg: Config, l: Local, a: Answer, name: string): Local {
    if a.fault then Return(l, Error)
    else match SelectFull(l.table, Join(l.node.path, name))
      case Fatal => Return(l, Panic)
      case Corrupt => Return(l, Error)
      case NoRow => Goto(l, if l.node.direct then Looking(AskDirect(name, false)) else Looking(AskMiss(name)))
      case Found(row) => if l.node.direct then Goto(l, Looking(AskDirect(name, true))) else Resolve(cfg, CountHit(l), name, row)
  }

  function LookupDirect(l: Local, a: Answer, name: string, cached: bool): Local {
    var l' := CountRemote(l);
    match a.stat
    case StatOk(info) => Goto(l', Looking(Update(name, SqlTypeName(info.mode.modeType))))
    case StatNoEnt => Goto(l', if cached then Looking(Reload(name)) else Looking(Update(name, NoEntry)))
    case StatErr => if cached then Goto(l', Looking(Reload(name))) else Return(l', Error)
  }

  function LookupMiss(l: Local, a: Answer, name: string): Local {
    var l' := CountRemote(l);
    match a.stat
    case StatOk(info) => Goto(l', Looking(Insert(name, SqlTypeName(info.mode.modeType))))
    case StatNoEnt => Goto(l', Looking(Insert(name, NoEntry)))
    case StatErr => Return(l', Error)
  }

  /** After the row is stored: a whiteout is the answer, anything else is read back. */
  function AfterPut(l: Local, name: string, typeName: TypeName): Local {
    if typeName == NoEntry then Return(l, NoEnt) else Goto(l, Looking(Reload(name)))
  }

  function LookupUpdate(l: Local, a: Answer, name: string, typeName: TypeName): Local {
    var path := Join(l.node.path, name);
    var count := |Matching(l.table, path)|;
    if a.fault then Return(l, Error)
    else
      var l' := l.(table := UpdateType(l.table, path, typeName));
      if count == 0 then Goto(l', Looking(Insert(name, typeName)))
      else if count == 1 then AfterPut(l', name, typeName)
      else Return(l', Panic)
  }

  function LookupInsert(l: Local, a: Answer, name: string, typeName: TypeName): Local {
    var path := Join(l.node.path, name);
    if a.fault || !CanInsert(l.table, path, a.rowId) then Return(l, Error)
    else AfterPut(l.(table := InsertRow(l.table, path, typeName, a.rowId)), name, typeName)
  }

  ghost function LookupReload(cfg: Config, l: Local, a: Answer, name: string): Local {
    if a.fault then Return(l, Error)
    else match SelectFull(l.table, Join(l.node.path, name))
      case Fatal => Return(l, Panic)
      case Corrupt => Return(l, Error)
      case NoRow => Return(l, Panic)
      case Found(row) => Resolve(cfg, l, name, row)
  }

  /** The parent the root node is made from, so that its path is "/" joined with "/". */
  function MountParent(cfg: Config): Node {
    Node("/", cfg.remoteDir, 0, cfg.direct("/"), Directory, None, None, None, None, map[])
  }

  /** The first query of putAndGetRow; whether the path is cached is up to the path itself. */
  ghost function RowQuery(cfg: Config, l: Local, a: Answer, name: string, typeName: TypeName): Local {
    var path := Join(l.node.path, name);
    if a.fault then Return(l, Error)
    else match SelectFull(l.table, path)
      case Fatal => Return(l, Panic)
      case Corrupt => Return(l, Error)
      case NoRow => Goto(l, Looking(if cfg.direct(path) then Update(name, typeName) else Insert(name, typeName)))
      case Found(_) => Goto(l, Looking(if cfg.direct(path) then Update(name, typeName) else Reload(name)))
  }

  // ----- Attr -----

  function AttrCall(l: Local, a: Answer): Local {
    var l' := CountRemote(l);
    match a.stat
    case StatOk(info) => Goto(l', Stating(PutInfo(info)))
    case _ =>
      if l.node.direct && l.node.info.Some? then Return(l', AttrReply(l.node.inode, l.node.info.value))
      else Return(l', Error)
  }

  function AttrPut(l: Local, a: Answer, info: FileInfo): Local {
    if a.fault then Return(l, Error)
    else Return(l.(table := UpdateInfo(l.table, l.node.inode, info), node := l.node.(info := Some(info))),
                AttrReply(l.node.inode, info))
  }

  // ----- Readlink -----

  function ReadlinkCall(l: Local, a: Answer): Local {
    var l' := CountRemote(l);
    match a.target
    case Some(target) => Goto(l', Linking(PutTarget(target)))
    case None =>
      if l.node.direct && l.node.target.Some? then Return(l', TargetReply(l.node.target.value))
      else Return(l', Error)
  }

  function ReadlinkPut(cfg: Config, l: Local, a: Answer, target: string): Local {
    if a.fault then Return(l, Error)
    else Return(l.(table := UpdateTarget(l.table, l.node.inode, cfg.affinity(target)),
                   node := l.node.(target := Some(target))),
                TargetReply(target))
  }

  // ----- Open: PutContents, then the handle -----

  function PutFailed(l: Local): Local {
    if l.node.direct && l.node.hash.Some? then Goto(l, Opening(FindObject)) else Return(l, Error)
  }

  function OpenSource(l: Local, a: Answer): Local {
    var l' := CountRemote(l);
    if a.openOk then Goto(l', Opening(CreateTemp)) else PutFailed(l')
  }

  function OpenTemp(cfg: Config, l: Local, a: Answer): Local {
    var temp := TempPath(cfg.cacheRoot, a.suffix);
    if a.fault || '/' in a.suffix || temp in l.store.files || temp in l.store.used then PutFailed(l)
    else Goto(l.(store := l.store.CreateTemp(temp)), Opening(Fetch(temp)))
  }

  function OpenFetch(cfg: Config, l: Local, a: Answer, temp: string): Local {
    var r := Copy(a.turns, [], [], 0);
    var l' := MoreRemote(l.(store := l.store.Write(temp, r.first)), |a.turns|);
    if r.err == None then Goto(l', Opening(CheckKey(temp, KeyFor(cfg, r.second))))
    else Goto(l', Opening(RemoveTemp(temp, None)))
  }

  function OpenHasKey(cfg: Config, l: Local, a: Answer, temp: string, key: string): Local
    requires IsKey(key)
  {
    if a.fault then Goto(l, Opening(RemoveTemp(temp, None)))
    else if PathForKey(cfg.cacheRoot, key) in l.store.files then Goto(l, Opening(RemoveTemp(temp, Some(key))))
    else Goto(l, Opening(MakeBucket(temp, key)))
  }

  function OpenMkdir(cfg: Config, l: Local, a: Answer, temp: string, key: string): Local
    requires IsKey(key)
  {
    if a.fault then Goto(l, Opening(RemoveTemp(temp, None)))
    else Goto(l.(store := l.store.Mkdir(BucketPath(cfg.cacheRoot, key))), Opening(RenameTemp(temp, key)))
  }

  function OpenRename(cfg: Config, l: Local, a: Answer, temp: string, key: string): Local
    requires IsKey(key)
  {
    if a.fault || temp !in l.store.files || BucketPath(cfg.cacheRoot, key) !in l.store.dirs
    then Goto(l, Opening(RemoveTemp(temp, None)))
    else Goto(l.(store := l.store.Rename(temp, PathForKey(cfg.cacheRoot, key))), Opening(RemoveTemp(temp, Some(key))))
  }

  /** The deferred removal of the temporary file; its own failure is ignored. */
  function OpenRemove(l: Local, a: Answer, temp: string, put: Option<string>): Local {
    var l' := if a.fault then l else l.(store := l.store.Remove(temp));
    match put
    case Some(key) => Goto(l', Opening(PutHash(key)))
    case None => PutFailed(l')
  }

  function OpenPutHash(cfg: Config, l: Local, a: Answer, key: string): Local {
    if a.fault then Return(l, Error)
    else Goto(l.(table := UpdateHash(l.table, l.node.inode, cfg.affinity(key)), node := l.node.(hash := Some(key))),
              Opening(FindObject))
  }

  function OpenGet(cfg: Config, l: Local, a: Answer): Local {
    if l.node.hash == None || |l.node.hash.value| < 2 then Return(l, Panic)
    else if a.fault then Return(l, Error)
    else if PathForKey(cfg.cacheRoot, l.node.hash.value) in l.store.files then Goto(l, Opening(OpenObject))
    else Return(l, NoKey)
  }

  function OpenRead(cfg: Config, l: Local, a: Answer): Local {
    if l.node.hash == None || |l.node.hash.value| < 2 then Return(l, Panic)
    else
      var path := PathForKey(cfg.cacheRoot, l.node.hash.value);
      if a.fault then Return(l, Error)
      else if path in l.store.files then Return(l, HandleReply(l.store.files[path]))
      else Return(l, NoKey)
  }

  // ----- ReadDirAll -----

  function ReaddirOpen(l: Local, a: Answer): Local {
    var l' := CountRemote(l);
    if a.openOk then Goto(l', Listing(ReadEntries))
    else if l.node.direct && l.node.entries.Some? then Goto(l', Listing(SelectEntries))
    else Return(l', Error)
  }

  function NextEntry(l: Local, todo: seq<Listed>, done: seq<Entry>): Local {
    Goto(l, if todo == [] then Listing(PutEntries(done)) else Listing(SelectEntry(todo, done)))
  }

  function ReaddirRead(l: Local, a: Answer): Local {
    var l' := MoreRemote(l, 1);
    match a.listing
    case Some(listing) => NextEntry(l', listing, [])
    case None => Return(l', Error)
  }

  ghost function ReaddirSelect(l: Local, a: Answer, todo: seq<Listed>, done: seq<Entry>): Local
    requires todo != []
  {
    var path := Join(l.node.path, todo[0].name);
    if a.fault then Return(l, Error)
    else if HasPath(l.table, path) then
      NextEntry(l, todo[1..], done + [Entry(todo[0].name, IdOf(l.table, path), SqlTypeName(todo[0].modeType))])
    else Goto(l, Listing(InsertEntry(todo, done)))
  }

  function ReaddirInsert(l: Local, a: Answer, todo: seq<Listed>, done: seq<Entry>): Local
    requires todo != []
  {
    var path := Join(l.node.path, todo[0].name);
    var typeName := SqlTypeName(todo[0].modeType);
    if a.fault || !CanInsert(l.table, path, a.rowId) then Return(l, Error)
    else NextEntry(l.(table := InsertRow(l.table, path, typeName, a.rowId)), todo[1..],
                   done + [Entry(todo[0].name, a.rowId, typeName)])
  }

  function ReaddirPut(l: Local, a: Answer, done: seq<Entry>): Local {
    if a.fault then Return(l, Error)
    else Goto(l.(table := UpdateEntries(l.table, l.node.inode, Format(done))), Listing(SelectEntries))
  }

  function ReaddirGet(l: Local, a: Answer): Local {
    if a.fault || l.node.inode !in l.table then Return(l, Error)
    else
      match l.table[l.node.inode].dirEntries
      case None => Return(l.(node := l.node.(entries := Some(map[]))), EntriesReply({}))
      case Some(text) =>
        match Parse(text, map[])
        case Parsed(m) => Return(l.(node := l.node.(entries := Some(m))), EntriesReply(Dirents(m)))
        case Malformed => Return(l, Error)
        case IndexPanic => Return(l, Panic)
  }

  // ----- the machine -----

  /** The operation up to its first action. */
  function Begin(cfg: Config, op: Op, node: Node, table: Table, store: Store, acct: Acct): Local {
    var l := Local(node, Looking(EnsureRow("/", Directory)), table, store, acct);
    match op
    case Lookup(name) =>
      if !node.direct && name in node.rows
      then Return(l, NodeFor(cfg, node.path, node.below, node.rows[name], name))
      else Goto(l, Looking(Query(name)))
    case Attr =>
      if node.direct || node.info == None then Goto(l, Stating(CallLstat))
      else Return(CountHit(l), AttrReply(node.inode, node.info.value))
    case ReadDirAll =>
      if node.direct || node.entries == None then Goto(l, Listing(OpenDir))
      else Return(CountHit(l), EntriesReply(Dirents(node.entries.value)))
    case Readlink =>
      if node.direct || node.target == None then Goto(l, Linking(CallReadlink))
      else Return(CountHit(l), TargetReply(node.target.value))
    case Open =>
      if node.direct || node.hash == None then Goto(l, Opening(OpenRemote))
      else Goto(CountHit(l), Opening(FindObject))
    case Mount => l
  }

  /** The program counters the program can be at. */
  predicate WellFormed(pc: Pc) {
    match pc
    case Opening(op) => (op.CheckKey? || op.MakeBucket? || op.RenameTemp?) ==> IsKey(op.key)
    case Listing(rd) => (rd.SelectEntry? || rd.InsertEntry?) ==> rd.todo != []
    case _ => true
  }

  /** The counters only go up. */
  predicate Counts(before: Acct, after: Acct) {
    before.hit <= after.hit && before.miss <= after.miss && before.direct <= after.direct && before.remote <= after.remote
  }

  ghost function LookupStep(cfg: Config, l: Local, a: Answer, pc: LookupPc): (r: Local)
    ensures WellFormed(r.pc) && Counts(l.acct, r.acct)
  {
    match pc
    case Query(name) => LookupQuery(cfg, l, a, name)
    case AskDirect(name, cached) => LookupDirect(l, a, name, cached)
    case AskMiss(name) => LookupMiss(l, a, name)
    case Update(name, typeName) => LookupUpdate(l, a, name, typeName)
    case Insert(name, typeName) => LookupInsert(l, a, name, typeName)
    case Reload(name) => LookupReload(cfg, l, a, name)
    case EnsureRow(name, typeName) => RowQuery(cfg, l, a, name, typeName)
  }

  function AttrStep(l: Local, a: Answer, pc: AttrPc): (r: Local)
    ensures WellFormed(r.pc) && Counts(l.acct, r.acct)
  {
    match pc
    case CallLstat => AttrCall(l, a)
    case PutInfo(info) => AttrPut(l, a, info)
  }

  function ReadlinkStep(cfg: Config, l: Local, a: Answer, pc: ReadlinkPc): (r: Local)
    ensures WellFormed(r.pc) && Counts(l.acct, r.acct)
  {
    match pc
    case CallReadlink => ReadlinkCall(l, a)
    case PutTarget(target) => ReadlinkPut(cfg, l, a, target)
  }

  function OpenStep(cfg: Config, l: Local, a: Answer, pc: OpenPc): (r: Local)
    requires WellFormed(Opening(pc))
    ensures WellFormed(r.pc) && Counts(l.acct, r.acct)
  {
    match pc
    case OpenRemote => OpenSource(l, a)
    case CreateTemp => OpenTemp(cfg, l, a)
    case Fetch(temp) => OpenFetch(cfg, l, a, temp)
    case CheckKey(temp, key) => OpenHasKey(cfg, l, a, temp, key)
    case MakeBucket(temp, key) => OpenMkdir(cfg, l, a, temp, key)
    case RenameTemp(temp, key) => OpenRename(cfg, l, a, temp, key)
    case RemoveTemp(temp, put) => OpenRemove(l, a, temp, put)
    case PutHash(key) => OpenPutHash(cfg, l, a, key)
    case FindObject => OpenGet(cfg, l, a)
    case OpenObject => OpenRead(cfg, l, a)
  }

  ghost function ReaddirStep(l: Local, a: Answer, pc: ReaddirPc): (r: Local)
    requires WellFormed(Listing(pc))
    ensures WellFormed(r.pc) && Counts(l.acct, r.acct)
  {
    match pc
    case OpenDir => ReaddirOpen(l, a)
    case ReadEntries => ReaddirRead(l, a)
    case SelectEntry(todo, done) => ReaddirSelect(l, a, todo, done)
    case InsertEntry(todo, done) => ReaddirInsert(l, a, todo, done)
    case PutEntries(done) => ReaddirPut(l, a, done)
    case SelectEntries => ReaddirGet(l, a)
  }

  ghost function Step(cfg: Config, l: Local, a: Answer): (r: Local)
    requires WellFormed(l.pc)
    ensures WellFormed(r.pc) && Counts(l.acct, r.acct)
  {
    match l.pc
    case Looking(pc) => LookupStep(cfg, l, a, pc)
    case Stating(pc) => AttrStep(l, a, pc)
    case Linking(pc) => ReadlinkStep(cfg, l, a, pc)
    case Opening(pc) => OpenStep(cfg, l, a, pc)
    case Listing(pc) => ReaddirStep(l, a, pc)
    case Done(_) => l
  }
}
