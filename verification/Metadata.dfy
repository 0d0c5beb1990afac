/**
 The metadata table: one row per known path, keyed by ROWID (which doubles as the
 inode number), and the effect of each SQL statement the program prepares.
 */
module Metadata {
  import opened Wrappers
  import opened DirEntries

  datatype FileMode = FileMode(modeType: ModeType, perm: nat)

  /** mtime is in nanoseconds since the epoch. */
  datatype FileInfo = FileInfo(mode: FileMode, size: int, mtime: int)

  /** A table row; None is the SQL NULL. */
  datatype Row = Row(
    path: string, typeName: TypeName,
    mode: Option<FileMode>, size: Option<int>, mtime: Option<int>,
    dirEntries: Option<string>, contentHash: Option<string>, target: Option<string>)

  type Table = map<nat, Row>

  const ROWID_LIMIT: nat := 0x8000_0000_0000_0000

  /** What GetFullEntry returns for a path. */
  datatype CachedRow = CachedRow(
    inode: nat, typeName: TypeName, info: Option<FileInfo>,
    entries: Option<EntryMap>, hash: Option<string>, target: Option<string>)

  /** Fatal stands for the program aborting: half-set file details, or a listing field out of range. */
  datatype FullEntry = NoRow | Found(row: CachedRow) | Corrupt | Fatal

  // ----- SELECT -----

  predicate HasPath(t: Table, path: string) {
    exists id :: id in t && t[id].path == path
  }

  ghost function IdOf(t: Table, path: string): (id: nat)
    requires HasPath(t, path)
    ensures id in t && t[id].path == path
  {
    var id :| id in t && t[id].path == path;
    id
  }

  function RowInfo(row: Row): Option<FileInfo> {
    if row.mode.Some? && row.size.Some? && row.mtime.Some?
    then Some(FileInfo(row.mode.value, row.size.value, row.mtime.value)) else None
  }

  /** All three columns of the file details are set, or none is. */
  predicate InfoComplete(row: Row) {
    row.mode.Some? == row.size.Some? == row.mtime.Some?
  }

  function RowEntry(id: nat, row: Row): FullEntry {
    if !InfoComplete(row) then Fatal
    else
      var bare := CachedRow(id, row.typeName, RowInfo(row), None, row.contentHash, row.target);
      match row.dirEntries
      case None => Found(bare)
      case Some(text) =>
        match Parse(text, map[])
        case Parsed(m) => Found(bare.(entries := Some(m)))
        case Malformed => Corrupt
        case IndexPanic => Fatal
  }

  ghost function SelectFull(t: Table, path: string): FullEntry {
    if HasPath(t, path) then RowEntry(IdOf(t, path), t[IdOf(t, path)]) else NoRow
  }

  // ----- INSERT and UPDATE -----

  function NewRow(path: string, typeName: TypeName): Row {
    Row(path, typeName, None, None, None, None, None, None)
  }

  /** The primary key on the path and the freshness and range of the row id. */
  predicate CanInsert(t: Table, path: string, id: nat) {
    !HasPath(t, path) && id !in t && 0 < id < ROWID_LIMIT
  }

  function InsertRow(t: Table, path: string, typeName: TypeName, id: nat): Table {
    t[id := NewRow(path, typeName)]
  }

  function Matching(t: Table, path: string): set<nat> {
    set id | id in t && t[id].path == path
  }

  function UpdateType(t: Table, path: string, typeName: TypeName): Table {
    map id | id in t :: if t[id].path == path then t[id].(typeName := typeName) else t[id]
  }

  function UpdateInfo(t: Table, id: nat, info: FileInfo): Table {
    if id in t
    then t[id := t[id].(mode := Some(info.mode), size := Some(info.size), mtime := Some(info.mtime))]
    else t
  }

  function UpdateHash(t: Table, id: nat, hash: string): Table {
    if id in t then t[id := t[id].(contentHash := Some(hash))] else t
  }

  function UpdateTarget(t: Table, id: nat, target: string): Table {
    if id in t then t[id := t[id].(target := Some(target))] else t
  }

  function UpdateEntries(t: Table, id: nat, text: string): Table {
    if id in t then t[id := t[id].(dirEntries := Some(text))] else t
  }

  // ----- facts -----

  ghost predicate UniquePaths(t: Table) {
    forall i, j :: i in t && j in t && t[i].path == t[j].path ==> i == j
  }

  /** With unique paths a SELECT by path finds the row that has it. */
  lemma SelectsRow(t: Table, id: nat)
    requires UniquePaths(t) && id in t
    ensures HasPath(t, t[id].path) && IdOf(t, t[id].path) == id
    ensures SelectFull(t, t[id].path) == RowEntry(id, t[id])
  {
  }

  /** An UPDATE by path affects one row when the path is known and none otherwise. */
  lemma RowsAffected(t: Table, path: string)
    requires UniquePaths(t)
    ensures |Matching(t, path)| == if HasPath(t, path) then 1 else 0
  {
    if HasPath(t, path) {
      assert Matching(t, path) == {IdOf(t, path)};
    } else {
      assert Matching(t, path) == {};
    }
  }
}
