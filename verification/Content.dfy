/**
 The content-addressed object store: keys, object paths, the files of the cache
 directory, and the copy loop that feeds a file and a digest at the same time.
 */
module Content {
  import opened Wrappers
  import Paths

  newtype byte = x: int | 0 <= x < 256
  type Bytes = seq<byte>

  // ----- keys -----

  /** Keys are digests of 16 bytes in hexadecimal. */
  const DIGEST_SIZE: nat := 16

  type Digest = b: Bytes | |b| == DIGEST_SIZE witness seq(DIGEST_SIZE, _ => 0)

  function HexDigit(n: int): (c: char)
    requires 0 <= n < 16
    ensures '0' <= c <= '9' || 'a' <= c <= 'f'
  {
    "0123456789abcdef"[n]
  }

  function Hex(b: Bytes): (s: string)
    ensures |s| == 2 * |b|
    ensures forall i :: 0 <= i < |s| ==> '0' <= s[i] <= '9' || 'a' <= s[i] <= 'f'
  {
    if b == [] then ""
    else [HexDigit(b[0] as int / 16), HexDigit(b[0] as int % 16)] + Hex(b[1..])
  }

  predicate IsKey(k: string) {
    |k| == 2 * DIGEST_SIZE && forall i :: 0 <= i < |k| ==> '0' <= k[i] <= '9' || 'a' <= k[i] <= 'f'
  }

  function KeyOf(d: Digest): (k: string)
    ensures IsKey(k)
  {
    Hex(d)
  }

  /** A byte has two digits, the high one first. */
  lemma {:induction false} HexAt(b: Bytes, i: nat)
    requires i < |b|
    ensures Hex(b)[2 * i] == "0123456789abcdef"[b[i] as int / 16] && Hex(b)[2 * i + 1] == "0123456789abcdef"[b[i] as int % 16]
    decreases i
  {
    var rest := b[1..];
    var pair := [HexDigit(b[0] as int / 16), HexDigit(b[0] as int % 16)];
    assert Hex(b) == pair + Hex(rest);
    if i > 0 {
      HexAt(rest, i - 1);
      assert rest[i - 1] == b[i];
      InTail(pair, Hex(rest), 2 * i);
      InTail(pair, Hex(rest), 2 * i + 1);
    }
  }

  lemma InTail(pair: string, rest: string, k: nat)
    requires |pair| == 2 <= k < |rest| + 2
    ensures (pair + rest)[k] == rest[k - 2]
  {
  }

  lemma HexDigitInjective(m: int, n: int)
    requires 0 <= m < 16 && 0 <= n < 16 && HexDigit(m) == HexDigit(n)
    ensures m == n
  {
    var digits := "0123456789abcdef";
    assert forall i, j :: 0 <= i < j < 16 ==> digits[i] != digits[j];
  }

  lemma {:induction false} HexInjective(a: Bytes, b: Bytes)
    requires Hex(a) == Hex(b)
    ensures a == b
  {
    assert |a| == |b|;
    if a != [] {
      var x, y := a[0] as int, b[0] as int;
      assert Hex(a)[0] == HexDigit(x / 16) && Hex(b)[0] == HexDigit(y / 16);
      assert Hex(a)[1] == HexDigit(x % 16) && Hex(b)[1] == HexDigit(y % 16);
      HexDigitInjective(x / 16, y / 16);
      HexDigitInjective(x % 16, y % 16);
      assert Hex(a)[2..] == Hex(a[1..]) && Hex(b)[2..] == Hex(b[1..]);
      HexInjective(a[1..], b[1..]);
      assert a == [a[0]] + a[1..] && b == [b[0]] + b[1..];
    }
  }

  // ----- file names in the cache directory -----

  function BucketForKey(key: string): string
    requires |key| >= 2
  {
    key[0..2]
  }

  function BucketPath(root: string, key: string): string
    requires |key| >= 2
  {
    Paths.Join(root, BucketForKey(key))
  }

  function PathForKey(root: string, key: string): string
    requires |key| >= 2
  {
    Paths.Join(root, BucketForKey(key) + "/" + key)
  }

  function TempPath(root: string, suffix: string): string {
    Paths.Join(root, "partial" + suffix)
  }

  function MetadataPath(root: string): string {
    Paths.Join(root, "metadata.db")
  }

  /** The path names something directly inside the cache directory. */
  predicate TopLevel(root: string, path: string) {
    |Paths.Components(path)| == |Paths.Components(root)| + 1
  }

  lemma KeyIsName(key: string)
    requires IsKey(key)
    ensures Paths.ProperName(key) && Paths.ProperName(BucketForKey(key))
  {
    assert BucketForKey(key)[0] == key[0];
  }

  lemma PathForKeyComponents(root: string, key: string)
    requires root != "" && IsKey(key)
    ensures Paths.Components(PathForKey(root, key)) == Paths.Components(root) + [key[..2], key]
    ensures PathForKey(root, key) == Paths.Join(BucketPath(root, key), key)
  {
    var b := BucketForKey(key);
    KeyIsName(key);
    Paths.JoinName(root, b);
    Paths.JoinName(BucketPath(root, key), key);
    Paths.JoinComponents(root, b + "/" + key);
    Paths.Text.SplitConcat(b, key, '/');
    Paths.Text.SplitPiece(b, '/');
    Paths.Text.SplitPiece(key, '/');
    var r, cs := Paths.Rooted(root), Paths.Components(root);
    assert b + "/" + key == b + ['/'] + key;
    assert Paths.Text.Split(b + "/" + key, '/') == [b, key];
    assert Paths.Normalize(r, cs, [b, key]) == Paths.Normalize(r, cs + [b], [key]);
    assert Paths.Normalize(r, cs + [b], [key]) == cs + [b] + [key];
    assert cs + [b] + [key] == cs + [b, key];
    Paths.JoinComponents(BucketPath(root, key), key);
  }

  lemma PathForKeyInjective(root: string, key1: string, key2: string)
    requires root != "" && IsKey(key1) && IsKey(key2)
    requires PathForKey(root, key1) == PathForKey(root, key2)
    ensures key1 == key2
  {
    PathForKeyComponents(root, key1);
    PathForKeyComponents(root, key2);
    var n := |Paths.Components(root)|;
    assert (Paths.Components(root) + [BucketForKey(key1), key1])[n + 1] == key1;
    assert (Paths.Components(root) + [BucketForKey(key2), key2])[n + 1] == key2;
  }

  /** Objects never share a path with temporary files or with the metadata database. */
  lemma ObjectsApart(root: string, key: string, path: string)
    requires root != "" && IsKey(key) && TopLevel(root, path)
    ensures PathForKey(root, key) != path
  {
    PathForKeyComponents(root, key);
  }

  lemma TempTopLevel(root: string, suffix: string)
    requires root != "" && '/' !in suffix
    ensures TopLevel(root, TempPath(root, suffix)) && TopLevel(root, MetadataPath(root))
    ensures TempPath(root, suffix) != MetadataPath(root)
  {
    var name := "partial" + suffix;
    assert name[0] == 'p';
    Paths.JoinName(root, name);
    Paths.JoinName(root, "metadata.db");
    var n := |Paths.Components(root)|;
    assert (Paths.Components(root) + [name])[n] == name;
    assert (Paths.Components(root) + ["metadata.db"])[n] == "metadata.db";
  }

  // ----- the cache directory -----

  /** The files with their contents, the directories, and the temporary names handed out so far. */
  datatype Store = Store(files: map<string, Bytes>, dirs: set<string>, used: set<string>)
  {
    function Write(path: string, data: Bytes): Store { this.(files := files[path := data]) }

    function CreateTemp(path: string): Store { this.(files := files[path := []], used := used + {path}) }

    function Mkdir(path: string): Store { this.(dirs := dirs + {path}) }

    function Remove(path: string): Store { this.(files := files - {path}) }

    function Rename(from: string, to: string): Store
      requires from in files
    {
      this.(files := files[to := files[from]] - (if from == to then {} else {from}))
    }
  }

  predicate HasObject(root: string, st: Store, key: string) {
    IsKey(key) && PathForKey(root, key) in st.files
  }

  // ----- the copy loop -----

  datatype ReadEnd = More | Eof | ReadFails

  /** What one turn of the loop sees: the bytes read, how the read ended, and how the write went. */
  datatype Turn = Turn(data: Bytes, end: ReadEnd, wrote: nat, writeFails: bool)

  datatype CopyError = WriteError | ShortWrite | ReadError

  datatype CopyResult = CopyResult(first: Bytes, second: Bytes, written: nat, err: Option<CopyError>)

  function Written(t: Turn): nat {
    if t.wrote <= |t.data| then t.wrote else |t.data|
  }

  /** A sink in memory; the file sink can stop early, the digest never does. */
  class Sink {
    var data: Bytes

    constructor ()
      ensures data == []
    {
      data := [];
    }

    method Write(p: Bytes, limit: nat) returns (n: nat)
      modifies this
      ensures n == if limit <= |p| then limit else |p|
      ensures data == old(data) + p[..n]
    {
      n := if limit <= |p| then limit else |p|;
      data := data + p[..n];
    }
  }

  /** What the copy loop does with the turns it is given; a source without more turns is at its end. */
  function Copy(turns: seq<Turn>, first: Bytes, second: Bytes, written: nat): CopyResult
    decreases |turns|
  {
    if turns == [] then CopyResult(first, second, written, None)
    else
      var t := turns[0];
      var n := Written(t);
      var first', written' := first + t.data[..n], written + n;
      if |t.data| > 0 && t.writeFails then CopyResult(first', second, written', Some(WriteError))
      else if n != |t.data| then CopyResult(first', second, written', Some(ShortWrite))
      else
        var second' := second + t.data;
        match t.end
        case Eof => CopyResult(first', second', written', None)
        case ReadFails => CopyResult(first', second', written', Some(ReadError))
        case More => Copy(turns[1..], first', second', written')
  }

  method Copy2(dst1: Sink, dst2: Sink, turns: seq<Turn>) returns (written: nat, err: Option<CopyError>)
    requires dst1 != dst2
    modifies dst1, dst2
    ensures CopyResult(dst1.data, dst2.data, written, err) == Copy(turns, old(dst1.data), old(dst2.data), 0)
  {
    written, err := 0, None;
    var i := 0;
    while i < |turns|
      invariant 0 <= i <= |turns| && err == None
      invariant Copy(turns[i..], dst1.data, dst2.data, written) == Copy(turns, old(dst1.data), old(dst2.data), 0)
    {
      assert turns[i..][1..] == turns[i + 1..];
      var t := turns[i];
      var nr := |t.data|;
      ghost var first, second := dst1.data, dst2.data;
      assert first + [] == first && second + [] == second && t.data[..nr] == t.data;
      if nr > 0 {
        var nw := dst1.Write(t.data, t.wrote);
        if nw > 0 {
          written := written + nw;
        }
        if t.writeFails {
          err := Some(WriteError);
          break;
        }
        if nr != nw {
          err := Some(ShortWrite);
          break;
        }
        var _ := dst2.Write(t.data, nr);
      }
      if t.end == Eof {
        break;
      }
      if t.end == ReadFails {
        err := Some(ReadError);
        break;
      }
      i := i + 1;
    }
  }

  /** Everything the source hands out before it ends or fails. */
  function Delivered(turns: seq<Turn>): Bytes
    decreases |turns|
  {
    if turns == [] then []
    else turns[0].data + (if turns[0].end == More then Delivered(turns[1..]) else [])
  }

  function SourceFails(turns: seq<Turn>): bool
    decreases |turns|
  {
    turns != [] && (turns[0].end == ReadFails || (turns[0].end == More && SourceFails(turns[1..])))
  }

  lemma Append(a: Bytes, b: Bytes, c: Bytes)
    ensures a + b + c == a + (b + c)
  {
  }

  /** Every write of the loop takes all bytes it is given. */
  predicate WritesComplete(turns: seq<Turn>)
    decreases |turns|
  {
    turns == [] ||
    ((turns[0].data == [] || (!turns[0].writeFails && turns[0].wrote >= |turns[0].data|)) &&
     (turns[0].end == More ==> WritesComplete(turns[1..])))
  }

  /** The copy succeeds exactly when the source ends without failing and all writes are complete. */
  lemma {:induction false} CopySucceedsIff(turns: seq<Turn>, first: Bytes, second: Bytes, written: nat)
    ensures Copy(turns, first, second, written).err == None <==> !SourceFails(turns) && WritesComplete(turns)
    decreases |turns|
  {
    if turns != [] && turns[0].end == More {
      var t := turns[0];
      CopySucceedsIff(turns[1..], first + t.data[..Written(t)], second + t.data, written + Written(t));
    }
  }

  lemma {:induction false} CopyGrowth(turns: seq<Turn>, first: Bytes, second: Bytes, written: nat)
    returns (g1: Bytes, g2: Bytes)
    ensures var r := Copy(turns, first, second, written);
            && r.first == first + g1 && r.second == second + g2 && r.written == written + |g1|
            && g1 <= Delivered(turns) && g2 <= g1
            && (r.err == None ==> g1 == g2 == Delivered(turns) && !SourceFails(turns))
    decreases |turns|
  {
    if turns == [] {
      g1, g2 := [], [];
    } else {
      var t := turns[0];
      var n := Written(t);
      if (|t.data| > 0 && t.writeFails) || n != |t.data| {
        g1, g2 := t.data[..n], [];
      } else {
        assert t.data[..n] == t.data;
        g1, g2 := t.data, t.data;
        if t.end == More {
          var h1, h2 := CopyGrowth(turns[1..], first + t.data, second + t.data, written + n);
          g1, g2 := t.data + h1, t.data + h2;
          Append(first, t.data, h1);
          Append(second, t.data, h2);
        }
      }
    }
  }

  /**
   The copy is a faithful tee for any chunking: on success both sinks grew by the
   whole source; on an error the first grew by a prefix of the source and the second
   by a prefix of that; the count is always the growth of the first. It succeeds exactly
   when the source does not fail and every write is complete.
   */
  lemma CopyIsTee(turns: seq<Turn>, first: Bytes, second: Bytes, written: nat)
    ensures var r := Copy(turns, first, second, written);
            && first <= r.first && second <= r.second
            && r.written == written + |r.first| - |first|
            && r.first[|first|..] <= Delivered(turns)
            && r.second[|second|..] <= r.first[|first|..]
            && (r.err == None ==> r.first == first + Delivered(turns) && r.second == second + Delivered(turns))
            && (r.err == None <==> !SourceFails(turns) && WritesComplete(turns))
  {
    var g1, g2 := CopyGrowth(turns, first, second, written);
    CopySucceedsIff(turns, first, second, written);
    assert (first + g1)[|first|..] == g1 && (second + g2)[|second|..] == g2;
  }
}
