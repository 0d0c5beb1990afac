/**
 What each operation is for, told from its answers: the reply, the table and the node
 that an operation ends with when nothing fails on this side and no other handler
 interferes, written out for every answer the remote tree can give.
 */
module Outcomes {
  import opened Wrappers
  import opened DirEntries
  import opened Metadata
  import opened Content
  import opened Handlers
  import opened Solo
  import Paths

  // ----- what the operations start from -----

  /** One row per path, ids in range, and every row can be read. */
  ghost predicate Readable(t: Table) {
    UniquePaths(t) && forall id :: id in t ==> 0 < id < ROWID_LIMIT && RowEntry(id, t[id]).Found?
  }

  /** Nothing fails on this side: statements and calls on the cache directory work, and new row ids can be used. */
  predicate Smooth(t: Table, taken: seq<Answer>) {
    (forall a :: a in taken ==> !a.fault && a.rowId !in t && 0 < a.rowId < ROWID_LIMIT) &&
    (forall i, j :: 0 <= i < j < |taken| ==> taken[i].rowId != taken[j].rowId)
  }

  // ----- rows and nodes, column by column -----

  predicate TypeOfMode(mode: FileMode, typeName: TypeName) {
    match mode.modeType
    case RegularType => typeName == File
    case DirType => typeName == Directory
    case SymlinkType => typeName == Symlink
  }

  /** c is what is remembered of the row. */
  predicate IsRow(id: nat, row: Row, c: CachedRow) {
    c.inode == id && c.typeName == row.typeName && c.hash == row.contentHash && c.target == row.target &&
    (match c.info
     case Some(i) => row.mode == Some(i.mode) && row.size == Some(i.size) && row.mtime == Some(i.mtime)
     case None => row.mode == None && row.size == None && row.mtime == None) &&
    (match row.dirEntries
     case Some(text) => c.entries.Some? && Parse(text, map[]) == Parsed(c.entries.value)
     case None => c.entries == None)
  }

  /** The reply for a remembered row: ENOENT for a whiteout, and otherwise a new node with its columns. */
  predicate AnswersRow(cfg: Config, dir: Node, name: string, c: CachedRow, reply: Reply) {
    if c.typeName == NoEntry then reply == NoEnt
    else
      reply.NodeReply? &&
      var n := reply.node;
      n.path == Paths.Join(dir.path, name) && n.below == Paths.Join(dir.below, name) && n.direct == cfg.direct(n.path) &&
      n.inode == c.inode && n.typeName == c.typeName && n.info == c.info && n.rows == map[] &&
      (match c.typeName
       case Directory => n.entries == c.entries && n.hash == None && n.target == None
       case File => n.entries == None && n.hash == c.hash && n.target == None
       case Symlink => n.entries == None && n.hash == None && n.target == c.target
       case NoEntry => false)
  }

  /** The lookup ends with the row of the name: it is the answer, and the directory remembers it. */
  ghost predicate EndsWithRow(cfg: Config, dir: Node, name: string, t: Table, l: Local) {
    var path := Paths.Join(dir.path, name);
    l.pc.Done? && l.table == t && HasPath(t, path) && name in l.node.rows &&
    l.node == dir.(rows := dir.rows[name := l.node.rows[name]]) &&
    IsRow(IdOf(t, path), t[IdOf(t, path)], l.node.rows[name]) &&
    AnswersRow(cfg, dir, name, l.node.rows[name], l.pc.reply)
  }

  /** The path has a row of the type: the row it had, with the new type, or else a new and empty one. */
  ghost predicate StoresType(t: Table, path: string, typeName: TypeName, t': Table) {
    HasPath(t', path) &&
    var id := IdOf(t', path);
    if HasPath(t, path) then id == IdOf(t, path) && t' == t[id := t[id].(typeName := typeName)]
    else id !in t && t' == t[id := Row(path, typeName, None, None, None, None, None, None)]
  }

  predicate Unchanged(l: Local, l': Local) {
    l'.table == l.table && l'.store == l.store && l'.node == l.node
  }

  // ----- running to the end -----

  lemma Once(cfg: Config, l: Local, taken: seq<Answer>)
    requires WellFormed(l.pc) && !l.pc.Done? && After(cfg, l, taken).pc.Done?
    ensures taken != [] && taken == [taken[0]] + taken[1..]
    ensures After(cfg, l, taken) == After(cfg, Step(cfg, l, taken[0]), taken[1..])
  {
  }

  lemma {:induction false} Rests(cfg: Config, l: Local, taken: seq<Answer>)
    requires l.pc.Done?
    ensures After(cfg, l, taken) == l
    decreases |taken|
  {
    if taken != [] {
      Rests(cfg, l, taken[1..]);
    }
  }

  /** An action after which the handler is done. */
  lemma Last(cfg: Config, l: Local, taken: seq<Answer>)
    requires WellFormed(l.pc) && !l.pc.Done? && After(cfg, l, taken).pc.Done?
    ensures taken != [] && (Step(cfg, l, taken[0]).pc.Done? ==> After(cfg, l, taken) == Step(cfg, l, taken[0]))
  {
    Once(cfg, l, taken);
    if Step(cfg, l, taken[0]).pc.Done? {
      Rests(cfg, Step(cfg, l, taken[0]), taken[1..]);
    }
  }

  lemma SmoothRest(t: Table, t': Table, taken: seq<Answer>)
    requires Smooth(t, taken) && taken != [] && t'.Keys <= t.Keys + {taken[0].rowId}
    ensures Smooth(t', taken[1..])
  {
    forall a | a in taken[1..]
      ensures a in taken && a.rowId != taken[0].rowId
    {
      var i :| 0 <= i < |taken[1..]| && taken[1..][i] == a;
      assert taken[i + 1] == a;
    }
  }

  // ----- Lookup -----

  lemma ReadsRow(t: Table, path: string)
    requires Readable(t) && HasPath(t, path)
    ensures SelectFull(t, path).Found? && IsRow(IdOf(t, path), t[IdOf(t, path)], SelectFull(t, path).row)
  {
  }

  lemma Resolved(cfg: Config, l: Local, name: string, dir: Node)
    requires Readable(l.table) && HasPath(l.table, Paths.Join(dir.path, name)) && l.node == dir
    ensures EndsWithRow(cfg, dir, name, l.table, Resolve(cfg, l, name, SelectFull(l.table, Paths.Join(dir.path, name)).row))
  {
    ReadsRow(l.table, Paths.Join(dir.path, name));
  }

  lemma ReloadIs(cfg: Config, l: Local, a: Answer, name: string, c: CachedRow)
    requires l.pc == Looking(Reload(name)) && !a.fault && SelectFull(l.table, Paths.Join(l.node.path, name)) == Found(c)
    ensures Step(cfg, l, a) == Resolve(cfg, l, name, c)
  {
  }

  lemma ReloadEnds(cfg: Config, l: Local, taken: seq<Answer>, name: string)
    requires l.pc == Looking(Reload(name)) && After(cfg, l, taken).pc.Done?
    requires Readable(l.table) && HasPath(l.table, Paths.Join(l.node.path, name)) && Smooth(l.table, taken)
    ensures var l' := After(cfg, l, taken);
            EndsWithRow(cfg, l.node, name, l.table, l') && l'.store == l.store && l'.acct == l.acct
  {
    Once(cfg, l, taken);
    assert taken[0] in taken;
    ReadsRow(l.table, Paths.Join(l.node.path, name));
    ReloadIs(cfg, l, taken[0], name, SelectFull(l.table, Paths.Join(l.node.path, name)).row);
    Resolved(cfg, l, name, l.node);
    Last(cfg, l, taken);
  }

  /** The operation has stored a type: a whiteout is answered at once, anything else from its row. */
  ghost predicate EndsStored(cfg: Config, dir: Node, name: string, t: Table, typeName: TypeName, l: Local) {
    StoresType(t, Paths.Join(dir.path, name), typeName, l.table) &&
    if typeName == NoEntry then l.pc == Done(NoEnt) && l.node == dir
    else EndsWithRow(cfg, dir, name, l.table, l) && l.pc.reply.NodeReply? && l.pc.reply.node.typeName == typeName
  }

  lemma InsertedIsReadable(t: Table, path: string, typeName: TypeName, id: nat)
    requires Readable(t) && CanInsert(t, path, id)
    ensures var t' := InsertRow(t, path, typeName, id);
            Readable(t') && HasPath(t', path) && IdOf(t', path) == id && StoresType(t, path, typeName, t')
  {
    var t' := InsertRow(t, path, typeName, id);
    assert t'[id].path == path;
  }

  lemma InsertEnds(cfg: Config, l: Local, taken: seq<Answer>, name: string, typeName: TypeName)
    requires l.pc == Looking(Insert(name, typeName)) && After(cfg, l, taken).pc.Done?
    requires Readable(l.table) && !HasPath(l.table, Paths.Join(l.node.path, name)) && Smooth(l.table, taken)
    ensures var l' := After(cfg, l, taken);
            EndsStored(cfg, l.node, name, l.table, typeName, l') && l'.store == l.store && l'.acct == l.acct
  {
    Once(cfg, l, taken);
    var a, path := taken[0], Paths.Join(l.node.path, name);
    assert a in taken;
    InsertedIsReadable(l.table, path, typeName, a.rowId);
    var t' := InsertRow(l.table, path, typeName, a.rowId);
    if typeName == NoEntry {
      Last(cfg, l, taken);
    } else {
      SmoothRest(l.table, t', taken);
      ReloadEnds(cfg, Step(cfg, l, a), taken[1..], name);
    }
  }

  lemma RetypedIsReadable(t: Table, path: string, typeName: TypeName)
    requires Readable(t) && HasPath(t, path)
    ensures var t' := UpdateType(t, path, typeName);
            Readable(t') && t'.Keys == t.Keys && HasPath(t', path) && StoresType(t, path, typeName, t')
  {
    var t', id := UpdateType(t, path, typeName), IdOf(t, path);
    assert t' == t[id := t[id].(typeName := typeName)];
    assert t'[id].path == path;
    assert RowEntry(id, t[id]).Found? ==> RowEntry(id, t'[id]).Found?;
  }

  lemma UpdateEnds(cfg: Config, l: Local, taken: seq<Answer>, name: string, typeName: TypeName)
    requires l.pc == Looking(Update(name, typeName)) && After(cfg, l, taken).pc.Done?
    requires Readable(l.table) && Smooth(l.table, taken)
    ensures var l' := After(cfg, l, taken);
            EndsStored(cfg, l.node, name, l.table, typeName, l') && l'.store == l.store && l'.acct == l.acct
  {
    Once(cfg, l, taken);
    var path := Paths.Join(l.node.path, name);
    RowsAffected(l.table, path);
    var l1 := Step(cfg, l, taken[0]);
    assert taken[0] in taken;
    if HasPath(l.table, path) {
      RetypedIsReadable(l.table, path, typeName);
      SmoothRest(l.table, l1.table, taken);
      if typeName == NoEntry {
        Last(cfg, l, taken);
      } else {
        ReloadEnds(cfg, l1, taken[1..], name);
      }
    } else {
      assert UpdateType(l.table, path, typeName) == l.table;
      SmoothRest(l.table, l.table, taken);
      InsertEnds(cfg, l1, taken[1..], name, typeName);
    }
  }

  /** Counted once as direct or as a miss, with one remote call. */
  predicate AskedOnce(direct: bool, acct: Acct, acct': Acct) {
    if direct then acct' == acct.(direct := acct.direct + 1, remote := acct.remote + 1)
    else acct' == acct.(miss := acct.miss + 1, remote := acct.remote + 1)
  }

  /** The entry's type is stored as the mode says, and the answer is its row. */
  ghost predicate EndsStoredAs(cfg: Config, dir: Node, name: string, t: Table, mode: FileMode, l: Local) {
    match mode.modeType
    case RegularType => EndsStored(cfg, dir, name, t, File, l)
    case DirType => EndsStored(cfg, dir, name, t, Directory, l)
    case SymlinkType => EndsStored(cfg, dir, name, t, Symlink, l)
  }

  /**
   A remembered row is answered at once, and a cached directory answers a known path from its
   row. Otherwise it is the remote tree that decides: what it finds is stored with the type it
   has there and answered; if it fails, a known row is answered, a missing entry of an
   unknown path is stored and answered as a whiteout, and anything else is an error.
   */
  ghost predicate LookupMeans(cfg: Config, dir: Node, name: string, t: Table, acct: Acct, taken: seq<Answer>, l: Local) {
    var path := Paths.Join(dir.path, name);
    l.pc.Done? &&
    if !dir.direct && name in dir.rows then
      l.table == t && l.node == dir && l.acct == acct && AnswersRow(cfg, dir, name, dir.rows[name], l.pc.reply)
    else if !dir.direct && HasPath(t, path) then
      EndsWithRow(cfg, dir, name, t, l) && l.acct == acct.(hit := acct.hit + 1)
    else
      |taken| >= 2 && AskedOnce(dir.direct, acct, l.acct) &&
      if taken[1].stat.StatOk? then EndsStoredAs(cfg, dir, name, t, taken[1].stat.info.mode, l)
      else if HasPath(t, path) then EndsWithRow(cfg, dir, name, t, l)
      else if taken[1].stat.StatNoEnt? then EndsStored(cfg, dir, name, t, NoEntry, l)
      else l.pc.reply == Error && l.table == t && l.node == dir
  }

  lemma MissEnds(cfg: Config, l: Local, taken: seq<Answer>, name: string)
    requires l.pc == Looking(AskMiss(name)) && After(cfg, l, taken).pc.Done? && !l.node.direct
    requires Readable(l.table) && !HasPath(l.table, Paths.Join(l.node.path, name)) && Smooth(l.table, taken)
    ensures var l' := After(cfg, l, taken);
            taken != [] && l'.store == l.store && AskedOnce(false, l.acct, l'.acct) &&
            if taken[0].stat.StatOk? then EndsStoredAs(cfg, l.node, name, l.table, taken[0].stat.info.mode, l')
            else if taken[0].stat.StatNoEnt? then EndsStored(cfg, l.node, name, l.table, NoEntry, l')
            else l'.pc == Done(Error) && l'.table == l.table && l'.node == l.node
  {
    Last(cfg, l, taken);
    Once(cfg, l, taken);
    SmoothRest(l.table, l.table, taken);
    var l1 := Step(cfg, l, taken[0]);
    if !taken[0].stat.StatErr? {
      InsertEnds(cfg, l1, taken[1..], name, l1.pc.lk.typeName);
    }
  }

  lemma DirectEnds(cfg: Config, l: Local, taken: seq<Answer>, name: string, cached: bool)
    requires l.pc == Looking(AskDirect(name, cached)) && After(cfg, l, taken).pc.Done? && l.node.direct
    requires Readable(l.table) && Smooth(l.table, taken) && cached == HasPath(l.table, Paths.Join(l.node.path, name))
    ensures var l' := After(cfg, l, taken);
            taken != [] && l'.store == l.store && AskedOnce(true, l.acct, l'.acct) &&
            if taken[0].stat.StatOk? then EndsStoredAs(cfg, l.node, name, l.table, taken[0].stat.info.mode, l')
            else if cached then EndsWithRow(cfg, l.node, name, l.table, l')
            else if taken[0].stat.StatNoEnt? then EndsStored(cfg, l.node, name, l.table, NoEntry, l')
            else l'.pc == Done(Error) && l'.table == l.table && l'.node == l.node
  {
    Last(cfg, l, taken);
    Once(cfg, l, taken);
    SmoothRest(l.table, l.table, taken);
    var l1 := Step(cfg, l, taken[0]);
    if taken[0].stat.StatOk? || (taken[0].stat.StatNoEnt? && !cached) {
      UpdateEnds(cfg, l1, taken[1..], name, l1.pc.lk.typeName);
    } else if cached {
      ReloadEnds(cfg, l1, taken[1..], name);
    }
  }

  lemma HitEnds(cfg: Config, l: Local, taken: seq<Answer>, name: string)
    requires l.pc == Looking(Query(name)) && After(cfg, l, taken).pc.Done? && !l.node.direct
    requires Readable(l.table) && HasPath(l.table, Paths.Join(l.node.path, name)) && Smooth(l.table, taken)
    ensures var l' := After(cfg, l, taken);
            EndsWithRow(cfg, l.node, name, l.table, l') && l'.store == l.store && l'.acct == l.acct.(hit := l.acct.hit + 1)
  {
    Once(cfg, l, taken);
    ReadsRow(l.table, Paths.Join(l.node.path, name));
    Resolved(cfg, CountHit(l), name, l.node);
    Last(cfg, l, taken);
  }

  /** Lookup on its own, with nothing failing on this side. */
  lemma LookupAnswers(cfg: Config, dir: Node, name: string, t: Table, st: Store, acct: Acct, taken: seq<Answer>)
    requires Readable(t) && Smooth(t, taken)
    requires After(cfg, Begin(cfg, Lookup(name), dir, t, st, acct), taken).pc.Done?
    ensures var l := After(cfg, Begin(cfg, Lookup(name), dir, t, st, acct), taken);
            LookupMeans(cfg, dir, name, t, acct, taken, l) && l.store == st
  {
    var l := Begin(cfg, Lookup(name), dir, t, st, acct);
    var path := Paths.Join(dir.path, name);
    if l.pc.Done? {
      Rests(cfg, l, taken);
    } else if !dir.direct && HasPath(t, path) {
      HitEnds(cfg, l, taken, name);
    } else {
      Once(cfg, l, taken);
      SmoothRest(t, t, taken);
      if HasPath(t, path) {
        ReadsRow(t, path);
      }
      if dir.direct {
        DirectEnds(cfg, Step(cfg, l, taken[0]), taken[1..], name, HasPath(t, path));
      } else {
        MissEnds(cfg, Step(cfg, l, taken[0]), taken[1..], name);
      }
    }
  }

  // ----- the root set-up -----

  /** "/" has a row of type directory, stored if need be, and the root node is made from it. */
  ghost predicate MountMeans(cfg: Config, t: Table, l: Local) {
    l.pc.Done? && l.pc.reply.NodeReply? && HasPath(l.table, "/") &&
    var n := l.pc.reply.node;
    n.path == "/" && n.below == Paths.Join(cfg.remoteDir, "/") && n.typeName == Directory &&
    n.direct == cfg.direct("/") && n.inode == IdOf(l.table, "/") && l.table[n.inode].typeName == Directory &&
    (l.table == t || StoresType(t, "/", Directory, l.table))
  }

  lemma RootNode(cfg: Config, t: Table, l: Local)
    requires EndsWithRow(cfg, MountParent(cfg), "/", l.table, l)
    requires l.table == t || StoresType(t, "/", Directory, l.table)
    requires HasPath(l.table, "/") ==> l.table[IdOf(l.table, "/")].typeName == Directory
    ensures MountMeans(cfg, t, l)
  {
    Paths.RootJoinsRoot();
  }

  /** Mounting on its own succeeds on a new cache directory and on one that has been used before. */
  lemma MountAnswers(cfg: Config, t: Table, st: Store, acct: Acct, taken: seq<Answer>)
    requires Readable(t) && Smooth(t, taken) && (HasPath(t, "/") ==> t[IdOf(t, "/")].typeName == Directory)
    requires After(cfg, Begin(cfg, Mount, MountParent(cfg), t, st, acct), taken).pc.Done?
    ensures var l := After(cfg, Begin(cfg, Mount, MountParent(cfg), t, st, acct), taken);
            MountMeans(cfg, t, l) && l.store == st && l.acct == acct
  {
    var l := Begin(cfg, Mount, MountParent(cfg), t, st, acct);
    Paths.RootJoinsRoot();
    Once(cfg, l, taken);
    assert taken[0] in taken;
    SmoothRest(t, t, taken);
    if HasPath(t, "/") {
      ReadsRow(t, "/");
    }
    var l1 := Step(cfg, l, taken[0]);
    if cfg.direct("/") {
      UpdateEnds(cfg, l1, taken[1..], "/", Directory);
    } else if HasPath(t, "/") {
      ReloadEnds(cfg, l1, taken[1..], "/");
    } else {
      InsertEnds(cfg, l1, taken[1..], "/", Directory);
    }
    RootNode(cfg, t, After(cfg, l, taken));
  }

  // ----- Attr and Readlink -----

  /**
   A cached node that knows its attributes answers with them. Otherwise the remote tree's are
   stored, remembered and answered, and if it fails a direct node answers with the
   ones it knows.
   */
  predicate AttrMeans(node: Node, t: Table, acct: Acct, taken: seq<Answer>, l: Local) {
    l.pc.Done? &&
    if !node.direct && node.info.Some? then
      l.table == t && l.node == node && l.acct == acct.(hit := acct.hit + 1) &&
      l.pc.reply == AttrReply(node.inode, node.info.value)
    else
      taken != [] && AskedOnce(node.direct, acct, l.acct) &&
      match taken[0].stat
      case StatOk(info) =>
        l.pc.reply == AttrReply(node.inode, info) && l.node == node.(info := Some(info)) &&
        (node.inode in t ==>
          l.table == t[node.inode := t[node.inode].(mode := Some(info.mode), size := Some(info.size), mtime := Some(info.mtime))])
      case _ =>
        l.table == t && l.node == node &&
        l.pc.reply == if node.direct && node.info.Some? then AttrReply(node.inode, node.info.value) else Error
  }

  lemma AttrAnswers(cfg: Config, node: Node, t: Table, st: Store, acct: Acct, taken: seq<Answer>)
    requires Smooth(t, taken) && After(cfg, Begin(cfg, Attr, node, t, st, acct), taken).pc.Done?
    ensures var l := After(cfg, Begin(cfg, Attr, node, t, st, acct), taken);
            AttrMeans(node, t, acct, taken, l) && l.store == st
  {
    var l := Begin(cfg, Attr, node, t, st, acct);
    if l.pc.Done? {
      Rests(cfg, l, taken);
    } else {
      Last(cfg, l, taken);
      Once(cfg, l, taken);
      if taken[0].stat.StatOk? {
        Last(cfg, Step(cfg, l, taken[0]), taken[1..]);
        assert taken[1..][0] in taken;
      }
    }
  }

  /** The same for the target of a link, which the table keeps in the form its text column gives it. */
  predicate ReadlinkMeans(cfg: Config, node: Node, t: Table, acct: Acct, taken: seq<Answer>, l: Local) {
    l.pc.Done? &&
    if !node.direct && node.target.Some? then
      l.table == t && l.node == node && l.acct == acct.(hit := acct.hit + 1) &&
      l.pc.reply == TargetReply(node.target.value)
    else
      taken != [] && AskedOnce(node.direct, acct, l.acct) &&
      match taken[0].target
      case Some(target) =>
        l.pc.reply == TargetReply(target) && l.node == node.(target := Some(target)) &&
        (node.inode in t ==> l.table == t[node.inode := t[node.inode].(target := Some(cfg.affinity(target)))])
      case None =>
        l.table == t && l.node == node &&
        l.pc.reply == if node.direct && node.target.Some? then TargetReply(node.target.value) else Error
  }

  lemma ReadlinkAnswers(cfg: Config, node: Node, t: Table, st: Store, acct: Acct, taken: seq<Answer>)
    requires Smooth(t, taken) && After(cfg, Begin(cfg, Readlink, node, t, st, acct), taken).pc.Done?
    ensures var l := After(cfg, Begin(cfg, Readlink, node, t, st, acct), taken);
            ReadlinkMeans(cfg, node, t, acct, taken, l) && l.store == st
  {
    var l := Begin(cfg, Readlink, node, t, st, acct);
    if l.pc.Done? {
      Rests(cfg, l, taken);
    } else {
      Last(cfg, l, taken);
      Once(cfg, l, taken);
      if taken[0].target.Some? {
        Last(cfg, Step(cfg, l, taken[0]), taken[1..]);
        assert taken[1..][0] in taken;
      }
    }
  }
}
