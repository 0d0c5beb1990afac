/**
 The text column that records a directory listing: one "name, inode, type"
 group per entry, fields separated by \x01 and entries by "/".
 */
module DirEntries {
  import opened Wrappers
  import Text
  import Paths

  /** The file type bits of os.FileMode for the three kinds of files that are supported. */
  datatype ModeType = RegularType | DirType | SymlinkType

  /** The values of the type column. */
  datatype TypeName = Directory | File | NoEntry | Symlink

  const ENTRY_SEPARATOR: char := '/'
  const FIELD_SEPARATOR: char := '\U{0001}'

  /** What the program knows about one name of a directory. */
  datatype OneDirEntry = OneDirEntry(valid: bool, inode: nat, modeType: ModeType)

  type EntryMap = map<string, OneDirEntry>

  /** One entry of a listing about to be stored. */
  datatype Entry = Entry(name: string, inode: nat, typeName: TypeName)

  function SqlTypeName(m: ModeType): TypeName {
    match m
    case RegularType => File
    case DirType => Directory
    case SymlinkType => Symlink
  }

  function TypeText(t: TypeName): string {
    match t
    case Directory => "directory"
    case File => "file"
    case NoEntry => "noentry"
    case Symlink => "symlink"
  }

  /** A name whose listing text can be read back. */
  predicate EntryName(n: string) {
    Paths.ProperName(n) && FIELD_SEPARATOR !in n
  }

  // ----- writing -----

  function FormatOne(e: Entry): string {
    e.name + [FIELD_SEPARATOR] + Text.Digits(e.inode) + [FIELD_SEPARATOR] + TypeText(e.typeName)
  }

  function FormatEach(es: seq<Entry>): (r: seq<string>)
    ensures |r| == |es|
    ensures forall i :: 0 <= i < |es| ==> r[i] == FormatOne(es[i])
  {
    if es == [] then [] else [FormatOne(es[0])] + FormatEach(es[1..])
  }

  function Format(es: seq<Entry>): string {
    Text.Join(FormatEach(es), ENTRY_SEPARATOR)
  }

  // ----- reading -----

  /** IndexPanic stands for the out-of-range access to a missing field. */
  datatype ParseResult = Parsed(entries: EntryMap) | Malformed | IndexPanic

  function EntryOfType(inode: nat, t: TypeName): OneDirEntry {
    match t
    case Directory => OneDirEntry(true, inode, DirType)
    case File => OneDirEntry(true, inode, RegularType)
    case NoEntry => OneDirEntry(false, inode, RegularType)
    case Symlink => OneDirEntry(true, inode, SymlinkType)
  }

  function TypeOfText(text: string): Option<TypeName> {
    if text == "directory" then Some(Directory)
    else if text == "file" then Some(File)
    else if text == "noentry" then Some(NoEntry)
    else if text == "symlink" then Some(Symlink)
    else None
  }

  function Add(m: EntryMap, inode: nat, basename: string, typeText: string): ParseResult {
    if basename in m then Parsed(m)
    else match TypeOfText(typeText)
      case None => Malformed
      case Some(t) => Parsed(m[basename := EntryOfType(inode, t)])
  }

  function ParseOne(one: string, m: EntryMap): ParseResult {
    var parts := Text.Split(one, FIELD_SEPARATOR);
    if |parts| < 2 then IndexPanic
    else match Text.ParseUint(parts[1])
      case None => Malformed
      case Some(inode) => if |parts| < 3 then IndexPanic else Add(m, inode, parts[0], parts[2])
  }

  function ParseParts(parts: seq<string>, m: EntryMap): ParseResult
    decreases |parts|
  {
    if parts == [] then Parsed(m)
    else match ParseOne(parts[0], m)
      case Parsed(m') => ParseParts(parts[1..], m')
      case bad => bad
  }

  function Parse(all: string, m: EntryMap): ParseResult {
    if all == "" then Parsed(m) else ParseParts(Text.Split(all, ENTRY_SEPARATOR), m)
  }

  /** A map of directory entries that is filled in place. */
  class DirEntryMap {
    var entries: EntryMap

    constructor ()
      ensures entries == map[]
    {
      entries := map[];
    }

    method AddDirEntry(inode: nat, basename: string, typeText: string) returns (ok: bool)
      modifies this
      ensures ok == Add(old(entries), inode, basename, typeText).Parsed?
      ensures ok ==> entries == Add(old(entries), inode, basename, typeText).entries
      ensures !ok ==> entries == old(entries)
    {
      if basename in entries {
        return true;
      }
      var dirEntry := OneDirEntry(false, inode, RegularType);
      if typeText == "directory" {
        dirEntry := dirEntry.(valid := true, modeType := DirType);
      } else if typeText == "file" {
        dirEntry := dirEntry.(valid := true, modeType := RegularType);
      } else if typeText == "noentry" {
        dirEntry := dirEntry.(valid := false);
      } else if typeText == "symlink" {
        dirEntry := dirEntry.(valid := true, modeType := SymlinkType);
      } else {
        return false;
      }
      entries := entries[basename := dirEntry];
      return true;
    }

    /** Entries read before an error stay in the map. */
    method ParseDirEntries(all: string) returns (r: ParseResult)
      modifies this
      ensures var spec := Parse(all, old(entries));
              if spec.Parsed? then r == spec && entries == spec.entries
              else r == spec && forall n :: n in old(entries) ==> n in entries && entries[n] == old(entries)[n]
    {
      if |all| == 0 {
        return Parsed(entries);
      }
      var ones := Text.Split(all, ENTRY_SEPARATOR);
      var i := 0;
      while i < |ones|
        invariant 0 <= i <= |ones|
        invariant ParseParts(ones[i..], entries) == ParseParts(ones, old(entries))
        invariant forall n :: n in old(entries) ==> n in entries && entries[n] == old(entries)[n]
      {
        assert ones[i..][1..] == ones[i + 1..];
        var parts := Text.Split(ones[i], FIELD_SEPARATOR);
        if |parts| < 2 {
          return IndexPanic;
        }
        var inode := Text.ParseUint(parts[1]);
        if inode == None {
          return Malformed;
        }
        if |parts| < 3 {
          return IndexPanic;
        }
        var ok := AddDirEntry(inode.value, parts[0], parts[2]);
        if !ok {
          return Malformed;
        }
        i := i + 1;
      }
      return Parsed(entries);
    }
  }

  // ----- what a stored listing means -----

  /** The map a listing denotes: the first entry of a name wins. */
  function Collect(es: seq<Entry>, m: EntryMap): EntryMap
    decreases |es|
  {
    if es == [] then m
    else
      var e := es[0];
      Collect(es[1..], if e.name in m then m else m[e.name := EntryOfType(e.inode, e.typeName)])
  }

  predicate Distinct(es: seq<Entry>) {
    forall i, j :: 0 <= i < j < |es| ==> es[i].name != es[j].name
  }

  predicate Storable(es: seq<Entry>) {
    forall i :: 0 <= i < |es| ==> Paths.ProperName(es[i].name) && es[i].inode < Text.UINT64_LIMIT
  }

  predicate SeparatorFree(es: seq<Entry>) {
    forall i :: 0 <= i < |es| ==> FIELD_SEPARATOR !in es[i].name
  }

  lemma TypeTextRoundTrip(t: TypeName)
    ensures TypeOfText(TypeText(t)) == Some(t)
    ensures FIELD_SEPARATOR !in TypeText(t) && ENTRY_SEPARATOR !in TypeText(t) && TypeText(t) != ""
  {
  }

  lemma FormatOneParts(e: Entry)
    requires FIELD_SEPARATOR !in e.name
    ensures Text.Split(FormatOne(e), FIELD_SEPARATOR) == [e.name, Text.Digits(e.inode), TypeText(e.typeName)]
  {
    var d, t := Text.Digits(e.inode), TypeText(e.typeName);
    TypeTextRoundTrip(e.typeName);
    Text.SplitPiece(e.name, FIELD_SEPARATOR);
    Text.SplitPiece(d, FIELD_SEPARATOR);
    Text.SplitPiece(t, FIELD_SEPARATOR);
    Text.SplitConcat(e.name + [FIELD_SEPARATOR] + d, t, FIELD_SEPARATOR);
    Text.SplitConcat(e.name, d, FIELD_SEPARATOR);
  }

  lemma FormatOneNoSlash(e: Entry)
    requires Paths.ProperName(e.name)
    ensures ENTRY_SEPARATOR !in FormatOne(e) && FormatOne(e) != ""
  {
    TypeTextRoundTrip(e.typeName);
  }

  lemma {:induction false} ParseFormatted(es: seq<Entry>, m: EntryMap)
    requires Storable(es) && SeparatorFree(es)
    ensures ParseParts(FormatEach(es), m) == Parsed(Collect(es, m))
    decreases |es|
  {
    if es != [] {
      var e := es[0];
      FormatOneParts(e);
      Text.ParseUintOfDigits(e.inode);
      TypeTextRoundTrip(e.typeName);
      assert FormatEach(es)[1..] == FormatEach(es[1..]);
      ParseFormatted(es[1..], if e.name in m then m else m[e.name := EntryOfType(e.inode, e.typeName)]);
    }
  }

  lemma FormatSplits(es: seq<Entry>)
    requires Storable(es) && es != []
    ensures Format(es) != "" && Text.Split(Format(es), ENTRY_SEPARATOR) == FormatEach(es)
  {
    var fs := FormatEach(es);
    forall i | 0 <= i < |fs|
      ensures ENTRY_SEPARATOR !in fs[i] && fs[i] != ""
    {
      FormatOneNoSlash(es[i]);
    }
    Text.SplitJoin(fs, ENTRY_SEPARATOR);
    assert fs[0] != "";
    assert |fs| > 1 ==> Format(es) == fs[0] + [ENTRY_SEPARATOR] + Text.Join(fs[1..], ENTRY_SEPARATOR);
  }

  /** Reading a stored listing on top of m adds exactly the listing's entries to m. */
  lemma FormatParse(es: seq<Entry>, m: EntryMap)
    requires Storable(es) && SeparatorFree(es)
    ensures Parse(Format(es), m) == Parsed(Collect(es, m))
  {
    if es != [] {
      FormatSplits(es);
      ParseFormatted(es, m);
    }
  }

  lemma {:induction false} CollectKeys(es: seq<Entry>, m: EntryMap)
    ensures forall n :: n in Collect(es, m) <==> n in m || exists i :: 0 <= i < |es| && es[i].name == n
    ensures forall n :: n in m ==> Collect(es, m)[n] == m[n]
    ensures forall n :: n in Collect(es, m) && n !in m ==>
              exists i :: 0 <= i < |es| && es[i].name == n && Collect(es, m)[n] == EntryOfType(es[i].inode, es[i].typeName)
    decreases |es|
  {
    if es != [] {
      var e := es[0];
      var m' := if e.name in m then m else m[e.name := EntryOfType(e.inode, e.typeName)];
      CollectKeys(es[1..], m');
      var r := Collect(es, m);
      assert r == Collect(es[1..], m');
      forall n | n in r
        ensures n in m || exists i :: 0 <= i < |es| && es[i].name == n
        ensures n !in m ==> exists i :: 0 <= i < |es| && es[i].name == n && r[n] == EntryOfType(es[i].inode, es[i].typeName)
      {
        if n !in m' {
          var i :| 0 <= i < |es[1..]| && es[1..][i].name == n && r[n] == EntryOfType(es[1..][i].inode, es[1..][i].typeName);
          assert es[i + 1] == es[1..][i];
        } else if n !in m {
          assert es[0].name == n;
        }
      }
      forall i | 0 <= i < |es|
        ensures es[i].name in r
      {
        if i > 0 {
          assert es[1..][i - 1] == es[i];
        }
      }
    }
  }

  /** A duplicate-free listing maps every name to its own inode and type, and nothing else. */
  lemma CollectDistinct(es: seq<Entry>)
    requires Distinct(es)
    ensures forall n :: n in Collect(es, map[]) <==> exists i :: 0 <= i < |es| && es[i].name == n
    ensures forall i :: 0 <= i < |es| ==>
              es[i].name in Collect(es, map[]) &&
              Collect(es, map[])[es[i].name] == EntryOfType(es[i].inode, es[i].typeName)
  {
    CollectKeys(es, map[]);
    var r := Collect(es, map[]);
    forall i | 0 <= i < |es|
      ensures es[i].name in r && r[es[i].name] == EntryOfType(es[i].inode, es[i].typeName)
    {
      var j :| 0 <= j < |es| && es[j].name == es[i].name && r[es[i].name] == EntryOfType(es[j].inode, es[j].typeName);
      assert i == j;
    }
  }

  /** Names read back never contain the field separator. */
  lemma {:induction false} ParsedNames(parts: seq<string>, m: EntryMap)
    requires ParseParts(parts, m).Parsed?
    ensures forall n :: n in ParseParts(parts, m).entries && n !in m ==> FIELD_SEPARATOR !in n
    decreases |parts|
  {
    if parts != [] {
      ParsedNames(parts[1..], ParseOne(parts[0], m).entries);
    }
  }

  /**
   Storing and reading back a listing gives every name its row id and type
   exactly when no name contains the field separator, which is never escaped.
   */
  lemma RoundTripIff(es: seq<Entry>)
    requires Storable(es) && Distinct(es)
    ensures Parse(Format(es), map[]) == Parsed(Collect(es, map[])) <==> SeparatorFree(es)
  {
    if SeparatorFree(es) {
      FormatParse(es, map[]);
    } else {
      var i :| 0 <= i < |es| && FIELD_SEPARATOR in es[i].name;
      CollectDistinct(es);
      FormatSplits(es);
      if Parse(Format(es), map[]) == Parsed(Collect(es, map[])) {
        ParsedNames(FormatEach(es), map[]);
        assert false;
      }
    }
  }

  /** A listing of one file called "a\x01b" does not survive the round trip. */
  lemma SeparatorInNameBreaks()
    ensures var es := [Entry("a\U{0001}b", 2, File)];
            Storable(es) && Distinct(es) && Parse(Format(es), map[]) != Parsed(Collect(es, map[]))
  {
    var es := [Entry("a\U{0001}b", 2, File)];
    assert es[0].name[1] == FIELD_SEPARATOR;
    RoundTripIff(es);
  }

  /** The text of an empty directory is empty, and only that one is. */
  lemma EmptyListing(es: seq<Entry>)
    requires Storable(es)
    ensures Format(es) == "" <==> es == []
  {
    if es != [] {
      FormatSplits(es);
    }
  }
}
