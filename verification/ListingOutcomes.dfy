/**
 What ReadDirAll is for, told from its answers: the listing of the remote tree, with
 the inodes of the rows of its names, or what was stored of an earlier one.
 */
module ListingOutcomes {
  import opened Wrappers
  import opened DirEntries
  import opened Metadata
  import opened Content
  import opened Handlers
  import opened Solo
  import opened Outcomes
  import Paths
  import Text

  predicate EntryOfMode(m: ModeType, typeName: TypeName) {
    match m
    case RegularType => typeName == File
    case DirType => typeName == Directory
    case SymlinkType => typeName == Symlink
  }

  /** The valid entries of the map, and nothing else. */
  ghost predicate Lists(ds: set<Dirent>, m: EntryMap) {
    forall d: Dirent :: d in ds <==>
      d.name in m && m[d.name].valid && d.inode == m[d.name].inode && d.modeType == m[d.name].modeType
  }

  /** An empty row that has been made for a name of the listing, with its type. */
  predicate MadeFor(dir: Node, listing: seq<Listed>, row: Row) {
    exists i :: 0 <= i < |listing| &&
      row == Row(Paths.Join(dir.path, listing[i].name), row.typeName, None, None, None, None, None, None) &&
      EntryOfMode(listing[i].modeType, row.typeName)
  }

  /** The rows there were are as they were, and every other one has been made for a name of the listing. */
  ghost predicate RowsMade(dir: Node, listing: seq<Listed>, t: Table, t': Table) {
    (forall id :: id in t ==> id in t' && t'[id] == t[id]) &&
    (forall id :: id in t' && id !in t ==> MadeFor(dir, listing, t'[id]))
  }

  /** The entries are the listing's, each with the row of its path. */
  predicate EntriesOf(dir: Node, listing: seq<Listed>, t: Table, done: seq<Entry>) {
    |done| <= |listing| &&
    forall i :: 0 <= i < |done| ==>
      done[i].name == listing[i].name && EntryOfMode(listing[i].modeType, done[i].typeName) &&
      done[i].inode in t && t[done[i].inode].path == Paths.Join(dir.path, done[i].name)
  }

  predicate Storables(listing: seq<Listed>) {
    forall i :: 0 <= i < |listing| ==> EntryName(listing[i].name)
  }

  predicate DistinctNames(listing: seq<Listed>) {
    forall i, j :: 0 <= i < j < |listing| ==> listing[i].name != listing[j].name
  }

  /** The item has the inode of the row of its path, and its name and type are listed. */
  predicate Reflects(dir: Node, listing: seq<Listed>, t: Table, d: Dirent) {
    d.inode in t && t[d.inode].path == Paths.Join(dir.path, d.name) &&
    exists i :: 0 <= i < |listing| && listing[i] == Listed(d.name, d.modeType)
  }

  predicate Mentions(ds: set<Dirent>, name: string) {
    exists d :: d in ds && d.name == name
  }

  predicate OncePerName(ds: set<Dirent>) {
    forall d, d' :: d in ds && d' in ds && d.name == d'.name ==> d == d'
  }

  /** With distinct names, the item of a listed name has the listed type. */
  predicate TypesMatch(listing: seq<Listed>, ds: set<Dirent>) {
    forall d, i :: d in ds && 0 <= i < |listing| && listing[i].name == d.name ==> listing[i].modeType == d.modeType
  }

  /** Exactly the names of the listing, once each, with the inodes of their paths; and with their types if no name is listed twice. */
  predicate Mirrors(dir: Node, listing: seq<Listed>, t: Table, ds: set<Dirent>) {
    (forall d :: d in ds ==> Reflects(dir, listing, t, d)) &&
    (forall i :: 0 <= i < |listing| ==> Mentions(ds, listing[i].name)) &&
    OncePerName(ds) && (DistinctNames(listing) ==> TypesMatch(listing, ds))
  }

  // ----- from the entries to the reply -----

  lemma EntryKind(inode: nat, m: ModeType, typeName: TypeName)
    requires EntryOfMode(m, typeName)
    ensures EntryOfType(inode, typeName) == OneDirEntry(true, inode, m)
  {
  }

  /** Every entry of the map is the listing's, and every name of the listing has one. */
  predicate Collects(dir: Node, listing: seq<Listed>, t: Table, m: EntryMap) {
    (forall n :: n in m ==> m[n].valid && Reflects(dir, listing, t, Dirent(m[n].inode, n, m[n].modeType))) &&
    (forall i :: 0 <= i < |listing| ==> listing[i].name in m)
  }

  lemma CollectsAll(dir: Node, listing: seq<Listed>, t: Table, done: seq<Entry>)
    requires EntriesOf(dir, listing, t, done) && |done| == |listing|
    ensures Collects(dir, listing, t, Collect(done, map[]))
  {
    var m := Collect(done, map[]);
    CollectKeys(done, map[]);
    forall n | n in m
      ensures m[n].valid && Reflects(dir, listing, t, Dirent(m[n].inode, n, m[n].modeType))
    {
      var i :| 0 <= i < |done| && done[i].name == n && m[n] == EntryOfType(done[i].inode, done[i].typeName);
      EntryKind(done[i].inode, listing[i].modeType, done[i].typeName);
      assert listing[i] == Listed(n, m[n].modeType);
    }
    forall i | 0 <= i < |listing|
      ensures listing[i].name in m
    {
      assert done[i].name == listing[i].name;
    }
  }

  lemma ListsDirents(m: EntryMap)
    ensures Lists(Dirents(m), m) && OncePerName(Dirents(m))
  {
  }

  lemma TypesFollow(dir: Node, listing: seq<Listed>, t: Table, ds: set<Dirent>)
    requires (forall d :: d in ds ==> Reflects(dir, listing, t, d)) && DistinctNames(listing)
    ensures TypesMatch(listing, ds)
  {
    forall d, i | d in ds && 0 <= i < |listing| && listing[i].name == d.name
      ensures listing[i].modeType == d.modeType
    {
      assert Reflects(dir, listing, t, d);
      var j :| 0 <= j < |listing| && listing[j] == Listed(d.name, d.modeType);
      assert i == j;
    }
  }

  lemma CollectMirrors(dir: Node, listing: seq<Listed>, t: Table, m: EntryMap)
    requires Collects(dir, listing, t, m)
    ensures Mirrors(dir, listing, t, Dirents(m)) && Lists(Dirents(m), m)
  {
    var ds := Dirents(m);
    ListsDirents(m);
    forall d | d in ds
      ensures Reflects(dir, listing, t, d)
    {
      assert d == Dirent(m[d.name].inode, d.name, m[d.name].modeType);
    }
    forall i | 0 <= i < |listing|
      ensures Mentions(ds, listing[i].name)
    {
      var n := listing[i].name;
      assert Dirent(m[n].inode, n, m[n].modeType) in ds;
    }
    if DistinctNames(listing) {
      TypesFollow(dir, listing, t, ds);
    }
  }

  lemma StoredText(dir: Node, listing: seq<Listed>, t: Table, done: seq<Entry>)
    requires EntriesOf(dir, listing, t, done) && Storables(listing) && Readable(t)
    ensures Parse(Format(done), map[]) == Parsed(Collect(done, map[]))
  {
    forall i | 0 <= i < |done|
      ensures EntryName(done[i].name) && done[i].inode < Text.UINT64_LIMIT
    {
      assert listing[i].name == done[i].name;
    }
    FormatParse(done, map[]);
  }

  /** The directory's row has the text of a listing, and is otherwise as it was. */
  ghost predicate Records(dir: Node, t: Table, t': Table, m: EntryMap) {
    dir.inode in t && dir.inode in t' && t'[dir.inode].dirEntries.Some? &&
    t' == t[dir.inode := t[dir.inode].(dirEntries := t'[dir.inode].dirEntries)] &&
    Parse(t'[dir.inode].dirEntries.value, map[]) == Parsed(m)
  }

  /**
   The listing has been stored and answered: its names have rows, old or new ones, the
   directory's row has the listing, and the directory remembers what it answered.
   */
  ghost predicate EndsListed(dir: Node, listing: seq<Listed>, t: Table, l: Local) {
    l.pc.Done? && l.pc.reply.EntriesReply? && l.node.entries.Some? && l.node == dir.(entries := l.node.entries) &&
    Lists(l.pc.reply.dirents, l.node.entries.value) && Mirrors(dir, listing, l.table, l.pc.reply.dirents) &&
    exists made :: RowsMade(dir, listing, t, made) && Records(dir, made, l.table, l.node.entries.value)
  }

  lemma GetEnds(cfg: Config, l: Local, taken: seq<Answer>, text: string, m: EntryMap)
    requires l.pc == Listing(SelectEntries) && After(cfg, l, taken).pc.Done? && Smooth(l.table, taken)
    requires l.node.inode in l.table && l.table[l.node.inode].dirEntries == Some(text) && Parse(text, map[]) == Parsed(m)
    ensures After(cfg, l, taken) == l.(node := l.node.(entries := Some(m)), pc := Done(EntriesReply(Dirents(m))))
  {
    Last(cfg, l, taken);
    assert taken[0] in taken;
  }

  lemma MirrorsOn(dir: Node, listing: seq<Listed>, t: Table, t': Table, ds: set<Dirent>)
    requires Mirrors(dir, listing, t, ds) && (forall id :: id in t ==> id in t' && t'[id].path == t[id].path)
    ensures Mirrors(dir, listing, t', ds)
  {
    forall d | d in ds
      ensures Reflects(dir, listing, t', d)
    {
      assert Reflects(dir, listing, t, d);
    }
  }

  lemma PutIs(cfg: Config, l: Local, a: Answer, done: seq<Entry>)
    requires l.pc == Listing(PutEntries(done)) && !a.fault
    ensures Step(cfg, l, a) == l.(table := UpdateEntries(l.table, l.node.inode, Format(done)), pc := Listing(SelectEntries))
  {
  }

  lemma RecordsText(dir: Node, t: Table, text: string, m: EntryMap)
    requires dir.inode in t && Parse(text, map[]) == Parsed(m)
    ensures var t' := UpdateEntries(t, dir.inode, text);
            Records(dir, t, t', m) && t'[dir.inode].dirEntries == Some(text) && t'.Keys == t.Keys &&
            forall id :: id in t ==> id in t' && t'[id].path == t[id].path
  {
  }

  /** The table with the listing's text says what the listing said. */
  lemma PutMirrors(dir: Node, listing: seq<Listed>, t: Table, done: seq<Entry>)
    requires Storables(listing) && Readable(t) && dir.inode in t && EntriesOf(dir, listing, t, done) && |done| == |listing|
    ensures var t', m := UpdateEntries(t, dir.inode, Format(done)), Collect(done, map[]);
            Records(dir, t, t', m) && t'[dir.inode].dirEntries == Some(Format(done)) && t'.Keys == t.Keys &&
            Mirrors(dir, listing, t', Dirents(m)) && Lists(Dirents(m), m) && Parse(Format(done), map[]) == Parsed(m)
  {
    StoredText(dir, listing, t, done);
    RecordsText(dir, t, Format(done), Collect(done, map[]));
    CollectsAll(dir, listing, t, done);
    CollectMirrors(dir, listing, t, Collect(done, map[]));
    MirrorsOn(dir, listing, t, UpdateEntries(t, dir.inode, Format(done)), Dirents(Collect(done, map[])));
  }

  lemma PutEnds(cfg: Config, l: Local, taken: seq<Answer>, dir: Node, listing: seq<Listed>, t: Table, done: seq<Entry>)
    requires l.pc == Listing(PutEntries(done)) && After(cfg, l, taken).pc.Done? && Smooth(l.table, taken) && l.node == dir
    requires Storables(listing) && Readable(l.table) && dir.inode in t
    requires EntriesOf(dir, listing, l.table, done) && |done| == |listing| && RowsMade(dir, listing, t, l.table)
    ensures var l' := After(cfg, l, taken);
            EndsListed(dir, listing, t, l') && l'.store == l.store && l'.acct == l.acct
  {
    Once(cfg, l, taken);
    assert taken[0] in taken;
    PutIs(cfg, l, taken[0], done);
    PutMirrors(dir, listing, l.table, done);
    var l1 := Step(cfg, l, taken[0]);
    SmoothRest(l.table, l1.table, taken);
    GetEnds(cfg, l1, taken[1..], Format(done), Collect(done, map[]));
  }

  // ----- the loop over the listing -----

  lemma OneMade(dir: Node, listing: seq<Listed>, t: Table, t1: Table, k: nat, id: nat)
    requires k < |listing| && RowsMade(dir, listing, t, t1) && Readable(t1)
    requires CanInsert(t1, Paths.Join(dir.path, listing[k].name), id)
    ensures var t2 := InsertRow(t1, Paths.Join(dir.path, listing[k].name), SqlTypeName(listing[k].modeType), id);
            RowsMade(dir, listing, t, t2) && Readable(t2) && id in t2 && t2[id].path == Paths.Join(dir.path, listing[k].name)
  {
    var typeName := SqlTypeName(listing[k].modeType);
    var t2 := InsertRow(t1, Paths.Join(dir.path, listing[k].name), typeName, id);
    InsertedIsReadable(t1, Paths.Join(dir.path, listing[k].name), typeName, id);
    assert EntryOfMode(listing[k].modeType, t2[id].typeName);
    assert MadeFor(dir, listing, t2[id]);
  }

  lemma OneDone(dir: Node, listing: seq<Listed>, t1: Table, t2: Table, done: seq<Entry>, id: nat)
    requires EntriesOf(dir, listing, t1, done) && |done| < |listing|
    requires forall i :: i in t1 ==> i in t2 && t2[i] == t1[i]
    requires id in t2 && t2[id].path == Paths.Join(dir.path, listing[|done|].name)
    ensures EntriesOf(dir, listing, t2, done + [Entry(listing[|done|].name, id, SqlTypeName(listing[|done|].modeType))])
  {
  }

  /** The handler goes on with the next name of the listing, or stores the listing. */
  predicate AtEntry(l: Local, listing: seq<Listed>, done: seq<Entry>) {
    |done| <= |listing| &&
    l.pc == if |done| == |listing| then Listing(PutEntries(done)) else Listing(SelectEntry(listing[|done|..], done))
  }

  lemma {:induction false} EntriesEnd(cfg: Config, l: Local, taken: seq<Answer>, dir: Node, listing: seq<Listed>,
                                      t: Table, done: seq<Entry>)
    requires AtEntry(l, listing, done) && After(cfg, l, taken).pc.Done? && Smooth(l.table, taken) && l.node == dir
    requires Storables(listing) && Readable(l.table) && dir.inode in t
    requires EntriesOf(dir, listing, l.table, done) && RowsMade(dir, listing, t, l.table)
    ensures var l' := After(cfg, l, taken);
            EndsListed(dir, listing, t, l') && l'.store == l.store && l'.acct == l.acct
    decreases |listing| - |done|
  {
    if |done| == |listing| {
      PutEnds(cfg, l, taken, dir, listing, t, done);
    } else {
      Once(cfg, l, taken);
      SmoothRest(l.table, l.table, taken);
      var l1 := Step(cfg, l, taken[0]);
      assert taken[0] in taken;
      if HasPath(l.table, Paths.Join(dir.path, listing[|done|].name)) {
        KnownEntry(cfg, l, taken[0], dir, listing, done);
        EntriesEnd(cfg, l1, taken[1..], dir, listing, t,
                   done + [Entry(listing[|done|].name, IdOf(l.table, Paths.Join(dir.path, listing[|done|].name)),
                                 SqlTypeName(listing[|done|].modeType))]);
      } else {
        NewEntry(cfg, l, taken[0], dir, listing, done);
        Once(cfg, l1, taken[1..]);
        var a := taken[1..][0];
        assert a in taken[1..];
        var l2 := Step(cfg, l1, a);
        MadeEntry(cfg, l1, a, dir, listing, t, done);
        SmoothRest(l1.table, l2.table, taken[1..]);
        EntriesEnd(cfg, l2, taken[1..][1..], dir, listing, t,
                   done + [Entry(listing[|done|].name, a.rowId, SqlTypeName(listing[|done|].modeType))]);
      }
    }
  }

  lemma KnownEntry(cfg: Config, l: Local, a: Answer, dir: Node, listing: seq<Listed>, done: seq<Entry>)
    requires AtEntry(l, listing, done) && |done| < |listing| && l.node == dir && !a.fault
    requires EntriesOf(dir, listing, l.table, done) && HasPath(l.table, Paths.Join(dir.path, listing[|done|].name))
    ensures var id := IdOf(l.table, Paths.Join(dir.path, listing[|done|].name));
            var done' := done + [Entry(listing[|done|].name, id, SqlTypeName(listing[|done|].modeType))];
            var l' := Step(cfg, l, a);
            AtEntry(l', listing, done') && EntriesOf(dir, listing, l.table, done') && l' == l.(pc := l'.pc)
  {
    assert listing[|done|..][1..] == listing[|done| + 1..];
    OneDone(dir, listing, l.table, l.table, done, IdOf(l.table, Paths.Join(dir.path, listing[|done|].name)));
  }

  lemma NewEntry(cfg: Config, l: Local, a: Answer, dir: Node, listing: seq<Listed>, done: seq<Entry>)
    requires AtEntry(l, listing, done) && |done| < |listing| && l.node == dir && !a.fault
    requires !HasPath(l.table, Paths.Join(dir.path, listing[|done|].name))
    ensures Step(cfg, l, a) == l.(pc := Listing(InsertEntry(listing[|done|..], done)))
  {
  }

  lemma MadeEntry(cfg: Config, l: Local, a: Answer, dir: Node, listing: seq<Listed>, t: Table, done: seq<Entry>)
    requires |done| < |listing| && l.pc == Listing(InsertEntry(listing[|done|..], done)) && l.node == dir && !a.fault
    requires Readable(l.table) && EntriesOf(dir, listing, l.table, done) && RowsMade(dir, listing, t, l.table)
    requires CanInsert(l.table, Paths.Join(dir.path, listing[|done|].name), a.rowId)
    ensures var done' := done + [Entry(listing[|done|].name, a.rowId, SqlTypeName(listing[|done|].modeType))];
            var l' := Step(cfg, l, a);
            AtEntry(l', listing, done') && EntriesOf(dir, listing, l'.table, done') && RowsMade(dir, listing, t, l'.table) &&
            Readable(l'.table) && l'.table.Keys == l.table.Keys + {a.rowId} && l' == l.(table := l'.table, pc := l'.pc)
  {
    assert listing[|done|..][1..] == listing[|done| + 1..];
    OneMade(dir, listing, t, l.table, |done|, a.rowId);
    var t2 := InsertRow(l.table, Paths.Join(dir.path, listing[|done|].name), SqlTypeName(listing[|done|].modeType), a.rowId);
    OneDone(dir, listing, l.table, t2, done, a.rowId);
  }

  // ----- ReadDirAll -----

  /** The directory answers with the listing its row has, and remembers it; a row without one counts as empty. */
  ghost predicate EndsStoredListing(dir: Node, t: Table, l: Local) {
    l.pc.Done? && l.table == t && dir.inode in t && l.node.entries.Some? && l.node == dir.(entries := l.node.entries) &&
    (match t[dir.inode].dirEntries
     case Some(text) => Parse(text, map[]) == Parsed(l.node.entries.value)
     case None => l.node.entries.value == map[]) &&
    l.pc.reply.EntriesReply? && Lists(l.pc.reply.dirents, l.node.entries.value)
  }

  /** Every name that the remote tree lists can be stored. */
  predicate CanStore(listing: Option<seq<Listed>>) {
    listing.Some? ==> Storables(listing.value)
  }

  /** What the remote tree listed has been stored and answered, or reading it has failed. */
  ghost predicate EndsFetched(dir: Node, t: Table, listing: Option<seq<Listed>>, l: Local) {
    if listing.Some? then EndsListed(dir, listing.value, t, l)
    else l.pc == Done(Error) && l.table == t && l.node == dir
  }

  /**
   A cached directory that knows its listing answers with it. Otherwise the remote listing is
   stored and answered; if the remote directory cannot be opened, a direct directory
   that has been listed answers with what is stored, and anything else is an error.
   */
  ghost predicate ReaddirMeans(dir: Node, t: Table, acct: Acct, taken: seq<Answer>, l: Local) {
    l.pc.Done? &&
    if !dir.direct && dir.entries.Some? then
      l.table == t && l.node == dir && l.acct == acct.(hit := acct.hit + 1) &&
      l.pc.reply.EntriesReply? && Lists(l.pc.reply.dirents, dir.entries.value)
    else
      taken != [] &&
      if !taken[0].openOk then
        AskedOnce(dir.direct, acct, l.acct) &&
        if dir.direct && dir.entries.Some? then EndsStoredListing(dir, t, l)
        else l.pc.reply == Error && l.table == t && l.node == dir
      else
        |taken| >= 2 &&
        (CanStore(taken[1].listing) ==>
          EndsFetched(dir, t, taken[1].listing, l) && AskedOnce(dir.direct, acct.(remote := acct.remote + 1), l.acct))
  }

  lemma ReadEnds(cfg: Config, l: Local, taken: seq<Answer>)
    requires l.pc == Listing(ReadEntries) && After(cfg, l, taken).pc.Done? && Smooth(l.table, taken)
    requires Readable(l.table) && l.node.inode in l.table
    ensures var l' := After(cfg, l, taken);
            taken != [] &&
            (CanStore(taken[0].listing) ==>
              EndsFetched(l.node, l.table, taken[0].listing, l') && l'.acct == l.acct.(remote := l.acct.remote + 1))
  {
    Last(cfg, l, taken);
    Once(cfg, l, taken);
    if taken[0].listing.Some? && CanStore(taken[0].listing) {
      var listing := taken[0].listing.value;
      SmoothRest(l.table, l.table, taken);
      assert listing[0..] == listing;
      EntriesEnd(cfg, Step(cfg, l, taken[0]), taken[1..], l.node, listing, l.table, []);
    }
  }

  lemma FallbackEnds(cfg: Config, l: Local, taken: seq<Answer>)
    requires l.pc == Listing(SelectEntries) && After(cfg, l, taken).pc.Done? && Smooth(l.table, taken)
    requires Readable(l.table) && l.node.inode in l.table
    ensures var l' := After(cfg, l, taken);
            EndsStoredListing(l.node, l.table, l') && l'.store == l.store && l'.acct == l.acct
  {
    Last(cfg, l, taken);
    assert taken[0] in taken;
    assert RowEntry(l.node.inode, l.table[l.node.inode]).Found?;
  }

  /** Listing a directory never touches the store. */
  lemma {:induction false} ListingKeepsStore(cfg: Config, l: Local, taken: seq<Answer>)
    requires WellFormed(l.pc) && (l.pc.Listing? || l.pc.Done?)
    ensures After(cfg, l, taken).store == l.store
    decreases |taken|
  {
    if taken != [] {
      StepKeepsStore(cfg, l, taken[0]);
      ListingKeepsStore(cfg, Step(cfg, l, taken[0]), taken[1..]);
    }
  }

  lemma StepKeepsStore(cfg: Config, l: Local, a: Answer)
    requires WellFormed(l.pc) && (l.pc.Listing? || l.pc.Done?)
    ensures var l' := Step(cfg, l, a); l'.store == l.store && (l'.pc.Listing? || l'.pc.Done?)
  {
  }

  lemma OpenIs(cfg: Config, l: Local, a: Answer)
    requires l.pc == Listing(OpenDir) && a.openOk
    ensures var l' := Step(cfg, l, a);
            l' == l.(pc := Listing(ReadEntries), acct := l'.acct) && AskedOnce(l.node.direct, l.acct, l'.acct)
  {
  }

  lemma OneMoreAsked(direct: bool, acct: Acct, acct': Acct, acct'': Acct)
    requires AskedOnce(direct, acct, acct') && acct'' == acct'.(remote := acct'.remote + 1)
    ensures AskedOnce(direct, acct.(remote := acct.remote + 1), acct'')
  {
  }

  lemma OpenedEnds(cfg: Config, l: Local, taken: seq<Answer>)
    requires l.pc == Listing(OpenDir) && After(cfg, l, taken).pc.Done? && Smooth(l.table, taken)
    requires Readable(l.table) && l.node.inode in l.table && taken != [] && taken[0].openOk
    ensures var l' := After(cfg, l, taken);
            |taken| >= 2 &&
            (CanStore(taken[1].listing) ==>
              EndsFetched(l.node, l.table, taken[1].listing, l') &&
              AskedOnce(l.node.direct, l.acct.(remote := l.acct.remote + 1), l'.acct))
  {
    Once(cfg, l, taken);
    OpenIs(cfg, l, taken[0]);
    SmoothRest(l.table, l.table, taken);
    var l1 := Step(cfg, l, taken[0]);
    ReadEnds(cfg, l1, taken[1..]);
    if CanStore(taken[1].listing) {
      OneMoreAsked(l.node.direct, l.acct, l1.acct, After(cfg, l, taken).acct);
    }
  }

  /** ReadDirAll on its own, with nothing failing on this side, on any remote tree. */
  lemma ReaddirAnswers(cfg: Config, dir: Node, t: Table, st: Store, acct: Acct, taken: seq<Answer>)
    requires Readable(t) && Smooth(t, taken) && dir.inode in t
    requires After(cfg, Begin(cfg, ReadDirAll, dir, t, st, acct), taken).pc.Done?
    ensures var l := After(cfg, Begin(cfg, ReadDirAll, dir, t, st, acct), taken);
            ReaddirMeans(dir, t, acct, taken, l) && l.store == st
  {
    var l := Begin(cfg, ReadDirAll, dir, t, st, acct);
    ListingKeepsStore(cfg, l, taken);
    if l.pc.Done? {
      Rests(cfg, l, taken);
      ListsDirents(dir.entries.value);
    } else {
      Last(cfg, l, taken);
      if taken[0].openOk {
        OpenedEnds(cfg, l, taken);
      } else if dir.direct && dir.entries.Some? {
        Once(cfg, l, taken);
        SmoothRest(t, t, taken);
        FallbackEnds(cfg, Step(cfg, l, taken[0]), taken[1..]);
      }
    }
  }
}
