/**
 Go's path/filepath on Unix: Clean and Join, and the facts the file system
 relies on: joining a canonical directory with a valid name is injective, and a
 node's path inside the mount point and its path below the remote directory
 always carry the same components.
 */
module Paths {
  import Text

  // ----- the program's operations -----

  function Push(rooted: bool, out: seq<string>, part: string): seq<string> {
    if part == "" || part == "." then out
    else if part == ".." then
      if |out| > 0 && out[|out| - 1] != ".." then out[..|out| - 1]
      else if rooted then out
      else out + [part]
    else out + [part]
  }

  function Normalize(rooted: bool, out: seq<string>, parts: seq<string>): seq<string>
    decreases |parts|
  {
    if parts == [] then out else Normalize(rooted, Push(rooted, out, parts[0]), parts[1..])
  }

  function Render(rooted: bool, comps: seq<string>): string {
    if rooted then "/" + Text.Join(comps, '/')
    else if comps == [] then "."
    else Text.Join(comps, '/')
  }

  predicate Rooted(p: string) {
    p != "" && p[0] == '/'
  }

  /** The components of a path once ".", ".." and repeated separators are resolved. */
  function Components(p: string): seq<string> {
    Normalize(Rooted(p), [], Text.Split(p, '/'))
  }

  function Clean(p: string): string {
    if p == "" then "." else Render(Rooted(p), Components(p))
  }

  function Join(dir: string, name: string): string {
    if dir == "" then (if name == "" then "" else Clean(name))
    else Clean(dir + "/" + name)
  }

  // ----- what the callers guarantee -----

  /** A file name the kernel can pass to Lookup or a directory can list. */
  predicate ProperName(n: string) {
    n != "" && n != "." && n != ".." && '/' !in n
  }

  /** A path of the form every node of the mount point has. */
  predicate Canonical(p: string) {
    Rooted(p) && Clean(p) == p
  }

  /** The remote path that belongs to a path of the mount point. */
  function Below(remoteDir: string, p: string): string {
    Join(remoteDir, p)
  }

  // ----- proofs -----

  /** Component lists that Normalize leaves alone. */
  predicate Normal(rooted: bool, cs: seq<string>) {
    (forall i :: 0 <= i < |cs| ==> cs[i] != "" && cs[i] != "." && '/' !in cs[i]) &&
    (rooted ==> forall i :: 0 <= i < |cs| ==> cs[i] != "..") &&
    (forall i, j :: 0 <= i < j < |cs| && cs[j] == ".." ==> cs[i] == "..")
  }

  lemma {:induction false} NormalizeIsNormal(rooted: bool, out: seq<string>, parts: seq<string>)
    requires Normal(rooted, out)
    requires forall i :: 0 <= i < |parts| ==> '/' !in parts[i]
    ensures Normal(rooted, Normalize(rooted, out, parts))
    decreases |parts|
  {
    if parts != [] {
      assert '/' !in parts[0];
      NormalizeIsNormal(rooted, Push(rooted, out, parts[0]), parts[1..]);
    }
  }

  lemma {:induction false} NormalizeConcat(rooted: bool, out: seq<string>, a: seq<string>, b: seq<string>)
    ensures Normalize(rooted, out, a + b) == Normalize(rooted, Normalize(rooted, out, a), b)
    decreases |a|
  {
    if a == [] {
      assert a + b == b;
    } else {
      assert (a + b)[1..] == a[1..] + b;
      NormalizeConcat(rooted, Push(rooted, out, a[0]), a[1..], b);
    }
  }

  lemma {:induction false} NormalizeFixed(rooted: bool, out: seq<string>, cs: seq<string>)
    requires Normal(rooted, out + cs)
    ensures Normalize(rooted, out, cs) == out + cs
    decreases |cs|
  {
    if cs == [] {
      assert out + cs == out;
    } else {
      assert (out + cs)[|out|] == cs[0];
      if cs[0] == ".." && |out| > 0 {
        assert (out + cs)[|out| - 1] == "..";
      }
      assert (out + [cs[0]]) + cs[1..] == out + cs;
      NormalizeFixed(rooted, out + [cs[0]], cs[1..]);
    }
  }

  lemma ComponentsNormal(p: string)
    ensures Normal(Rooted(p), Components(p))
  {
    NormalizeIsNormal(Rooted(p), [], Text.Split(p, '/'));
  }

  lemma RenderRooted(rooted: bool, cs: seq<string>)
    requires Normal(rooted, cs)
    ensures Render(rooted, cs) != "" && Rooted(Render(rooted, cs)) == rooted
  {
    if !rooted && cs != [] {
      var s := Text.Join(cs, '/');
      assert s[0] == cs[0][0];
      assert '/' !in cs[0] && cs[0][0] in cs[0];
    }
  }

  lemma ComponentsRender(rooted: bool, cs: seq<string>)
    requires Normal(rooted, cs)
    ensures Components(Render(rooted, cs)) == cs
  {
    RenderRooted(rooted, cs);
    var s := Render(rooted, cs);
    if cs == [] {
      if rooted {
        Text.SplitConcat("", "", '/');
        assert s == "" + ['/'] + "";
        assert Text.Split(s, '/') == ["", ""];
        assert Normalize(true, [], ["", ""]) == Normalize(true, [], [""]) == [];
      } else {
        Text.SplitPiece(".", '/');
        assert Normalize(false, [], ["."]) == [];
      }
    } else {
      Text.SplitJoin(cs, '/');
      assert [] + cs == cs;
      NormalizeFixed(rooted, [], cs);
      if rooted {
        Text.SplitConcat("", Text.Join(cs, '/'), '/');
        assert s == "" + ['/'] + Text.Join(cs, '/');
        assert ([""] + cs)[1..] == cs;
        assert Text.Split(s, '/') == [""] + cs;
      }
    }
  }

  /** Clean is idempotent and keeps the components. */
  lemma CleanIdempotent(p: string)
    ensures Clean(Clean(p)) == Clean(p)
    ensures p != "" ==> Components(Clean(p)) == Components(p) && Rooted(Clean(p)) == Rooted(p)
  {
    if p == "" {
      ComponentsRender(false, []);
      assert Render(false, []) == ".";
    } else {
      ComponentsNormal(p);
      RenderRooted(Rooted(p), Components(p));
      ComponentsRender(Rooted(p), Components(p));
    }
  }

  /** Joining appends the second path's parts to the components of the first one. */
  lemma JoinComponents(dir: string, name: string)
    requires dir != ""
    ensures Components(Join(dir, name)) == Normalize(Rooted(dir), Components(dir), Text.Split(name, '/'))
    ensures Rooted(Join(dir, name)) == Rooted(dir) && Join(dir, name) != ""
    ensures Clean(Join(dir, name)) == Join(dir, name)
    ensures Join(dir, name) == Render(Rooted(dir), Components(Join(dir, name)))
  {
    var p := dir + "/" + name;
    assert p == dir + ['/'] + name;
    assert p[0] == dir[0];
    Text.SplitConcat(dir, name, '/');
    NormalizeConcat(Rooted(dir), [], Text.Split(dir, '/'), Text.Split(name, '/'));
    CleanIdempotent(p);
    ComponentsNormal(p);
    RenderRooted(Rooted(p), Components(p));
  }

  /** One more separator and part. */
  lemma ComponentsMore(dir: string, part: string)
    requires '/' !in part
    ensures Components(dir + "/" + part) == Push(Rooted(dir + "/"), Normalize(Rooted(dir + "/"), [], Text.Split(dir, '/')), part)
  {
    var r := Rooted(dir + "/");
    assert dir + "/" + part == dir + ['/'] + part;
    Text.SplitConcat(dir, part, '/');
    Text.SplitPiece(part, '/');
    NormalizeConcat(r, [], Text.Split(dir, '/'), [part]);
    assert Normalize(r, Normalize(r, [], Text.Split(dir, '/')), [part]) ==
           Push(r, Normalize(r, [], Text.Split(dir, '/')), part);
  }

  /**
   What the special parts mean: a name goes one level down and ".." back up again, "." and repeated
   separators go nowhere, nothing is above the root, and a relative path keeps
   the ".." it starts with.
   */
  lemma PartsMean(dir: string, name: string)
    requires dir != "" && ProperName(name)
    ensures Components(dir + "/" + name) == Components(dir) + [name]
    ensures Components(dir + "/" + name + "/..") == Components(dir)
    ensures Components(dir + "/.") == Components(dir) && Components(dir + "/") == Components(dir)
    ensures Components(dir) == [] ==> Components(dir + "/..") == if Rooted(dir) then [] else [".."]
  {
    assert dir + "/" + "." == dir + "/.";
    assert dir + "/" + "" == dir + "/";
    assert dir + "/" + ".." == dir + "/..";
    ComponentsMore(dir, name);
    ComponentsMore(dir, ".");
    ComponentsMore(dir, "");
    ComponentsMore(dir, "..");
    var sub := dir + "/" + name;
    assert sub + "/" + ".." == dir + "/" + name + "/..";
    ComponentsMore(sub, "..");
    assert Normalize(Rooted(dir), [], Text.Split(sub, '/')) == Components(dir) + [name];
  }

  lemma JoinName(dir: string, name: string)
    requires dir != "" && ProperName(name)
    ensures Components(Join(dir, name)) == Components(dir) + [name]
    ensures Rooted(Join(dir, name)) == Rooted(dir) && Join(dir, name) != ""
    ensures Clean(Join(dir, name)) == Join(dir, name)
  {
    JoinComponents(dir, name);
    Text.SplitPiece(name, '/');
    assert Normalize(Rooted(dir), Components(dir), [name]) == Components(dir) + [name];
  }

  /** Every child of a canonical directory is canonical and is not the root. */
  lemma JoinCanonical(dir: string, name: string)
    requires Canonical(dir) && ProperName(name)
    ensures Canonical(Join(dir, name))
    ensures Join(dir, name) != "/"
  {
    JoinName(dir, name);
    RootComponents();
  }

  lemma RootComponents()
    ensures Canonical("/") && Components("/") == []
  {
    ComponentsRender(true, []);
    assert Render(true, []) == "/";
  }

  lemma RootJoinsRoot()
    ensures Join("/", "/") == "/"
  {
    RootComponents();
    JoinComponents("/", "/");
    assert "/" == "" + ['/'] + "";
    Text.SplitConcat("", "", '/');
    assert Text.Split("/", '/') == ["", ""];
    assert Normalize(true, [], ["", ""]) == Normalize(true, [], [""]) == [];
  }

  lemma JoinInjective(dir1: string, name1: string, dir2: string, name2: string)
    requires Canonical(dir1) && Canonical(dir2) && ProperName(name1) && ProperName(name2)
    requires Join(dir1, name1) == Join(dir2, name2)
    ensures dir1 == dir2 && name1 == name2
  {
    JoinName(dir1, name1);
    JoinName(dir2, name2);
    var c1, c2 := Components(dir1), Components(dir2);
    var both := c1 + [name1];
    assert both == c2 + [name2];
    assert |c1| == |c2|;
    assert both[..|c1|] == c1 && both[..|c2|] == c2;
    assert both[|c1|] == name1 && both[|c2|] == name2;
  }

  /** The remote path has the remote directory's components followed by those of the path. */
  lemma BelowComponents(remoteDir: string, p: string)
    requires remoteDir != "" && Canonical(p)
    ensures Components(Below(remoteDir, p)) == Components(remoteDir) + Components(p)
    ensures Rooted(Below(remoteDir, p)) == Rooted(remoteDir)
    ensures Below(remoteDir, p) == Render(Rooted(remoteDir), Components(remoteDir) + Components(p))
    ensures Below(remoteDir, p) != ""
  {
    JoinComponents(remoteDir, p);
    var cs := Components(p);
    var base := Components(remoteDir);
    ComponentsNormal(p);
    ComponentsNormal(remoteDir);
    assert p == Render(true, cs);
    assert p == "" + ['/'] + Text.Join(cs, '/');
    Text.SplitConcat("", Text.Join(cs, '/'), '/');
    var r := Rooted(remoteDir);
    var rest := Text.Split(Text.Join(cs, '/'), '/');
    assert Text.Split(p, '/') == [""] + rest;
    assert ([""] + rest)[1..] == rest;
    assert Normalize(r, base, Text.Split(p, '/')) == Normalize(r, base, rest);
    if cs == [] {
      assert rest == [""];
      assert Normalize(r, base, rest) == base;
      assert base + cs == base;
    } else {
      Text.SplitJoin(cs, '/');
      NormalizeFixed(r, base, cs);
    }
  }

  /** Descending by one name on both sides keeps the two paths in step. */
  lemma BelowJoin(remoteDir: string, p: string, name: string)
    requires remoteDir != "" && Canonical(p) && ProperName(name)
    ensures Join(Below(remoteDir, p), name) == Below(remoteDir, Join(p, name))
  {
    JoinCanonical(p, name);
    JoinName(p, name);
    BelowComponents(remoteDir, p);
    BelowComponents(remoteDir, Join(p, name));
    JoinName(Below(remoteDir, p), name);
    assert Components(remoteDir) + Components(p) + [name] == Components(remoteDir) + Components(Join(p, name));
  }
}
