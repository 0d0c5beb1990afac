/**
 A handler running on its own: the machine of Handlers fed with a stream of
 answers. This is what the methods of the file system classes are proved against.
 */
module Solo {
  import opened Wrappers
  import opened Handlers
  import Paths

  /** The paths the next action asks the remote tree for. */
  function AskedBy(l: Local): seq<string> {
    match l.pc
    case Looking(lk) => if lk.AskDirect? || lk.AskMiss? then [Paths.Join(l.node.below, lk.name)] else []
    case Stating(at) => if at.CallLstat? then [l.node.below] else []
    case Linking(rl) => if rl.CallReadlink? then [l.node.below] else []
    case Opening(op) => if op.OpenRemote? then [l.node.below] else []
    case Listing(rd) => if rd.OpenDir? then [l.node.below] else []
    case Done(_) => []
  }

  /** Where the handler gets with the given answers. */
  ghost function After(cfg: Config, l: Local, taken: seq<Answer>): (r: Local)
    requires WellFormed(l.pc)
    ensures WellFormed(r.pc)
    decreases |taken|
  {
    if taken == [] then l else After(cfg, Step(cfg, l, taken[0]), taken[1..])
  }

  /** The remote paths it asks for on the way. */
  ghost function Asked(cfg: Config, l: Local, taken: seq<Answer>): seq<string>
    requires WellFormed(l.pc)
    decreases |taken|
  {
    if taken == [] then [] else AskedBy(l) + Asked(cfg, Step(cfg, l, taken[0]), taken[1..])
  }

  /** One more answer. */
  lemma {:induction false} AfterMore(cfg: Config, l: Local, taken: seq<Answer>, a: Answer)
    requires WellFormed(l.pc)
    ensures After(cfg, l, taken + [a]) == Step(cfg, After(cfg, l, taken), a)
    decreases |taken|
  {
    var all := taken + [a];
    if taken == [] {
      assert all[1..] == [];
      assert After(cfg, Step(cfg, l, a), []) == Step(cfg, l, a);
    } else {
      assert all[1..] == taken[1..] + [a] && all[0] == taken[0];
      AfterMore(cfg, Step(cfg, l, taken[0]), taken[1..], a);
    }
  }

  lemma {:induction false} AskedMore(cfg: Config, l: Local, taken: seq<Answer>, a: Answer)
    requires WellFormed(l.pc)
    ensures Asked(cfg, l, taken + [a]) == Asked(cfg, l, taken) + AskedBy(After(cfg, l, taken))
    decreases |taken|
  {
    var all := taken + [a];
    if taken == [] {
      assert all[1..] == [];
    } else {
      assert all[1..] == taken[1..] + [a] && all[0] == taken[0];
      AskedMore(cfg, Step(cfg, l, taken[0]), taken[1..], a);
    }
  }

  /** h is where l got with the answers taken since position from, asking for the given paths. */
  ghost predicate Tracks(cfg: Config, l: Local, taken: seq<Answer>, from: nat, h: Local, asked: seq<string>) {
    WellFormed(l.pc) && from <= |taken| &&
    h == After(cfg, l, taken[from..]) && asked == Asked(cfg, l, taken[from..])
  }

  lemma TracksStart(cfg: Config, l: Local, taken: seq<Answer>)
    requires WellFormed(l.pc)
    ensures Tracks(cfg, l, taken, |taken|, l, [])
  {
    assert taken[|taken|..] == [];
  }

  lemma TracksMore(cfg: Config, l: Local, taken: seq<Answer>, from: nat, h: Local, asked: seq<string>, a: Answer)
    requires Tracks(cfg, l, taken, from, h, asked)
    ensures WellFormed(h.pc) && Tracks(cfg, l, taken + [a], from, Step(cfg, h, a), asked + AskedBy(h))
  {
    assert (taken + [a])[from..] == taken[from..] + [a];
    AfterMore(cfg, l, taken[from..], a);
    AskedMore(cfg, l, taken[from..], a);
  }

  /** An action that asks the remote tree for nothing. */
  lemma TracksQuietly(cfg: Config, l: Local, taken: seq<Answer>, from: nat, h: Local, asked: seq<string>, a: Answer)
    requires Tracks(cfg, l, taken, from, h, asked) && AskedBy(h) == []
    ensures WellFormed(h.pc) && Tracks(cfg, l, taken + [a], from, Step(cfg, h, a), asked)
  {
    TracksMore(cfg, l, taken, from, h, asked, a);
    assert asked + [] == asked;
  }
}
