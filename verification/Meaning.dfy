/**
 What the operations mean, together: every operation that runs on its own and meets no
 failure on this side does what its outcome says, and every operation comes to an end.
 */
module Meaning {
  import opened Wrappers
  import opened DirEntries
  import opened Metadata
  import opened Content
  import opened Handlers
  import opened Solo
  import opened Outcomes
  import opened ListingOutcomes
  import opened OpenOutcomes

  /** A call of an operation on a node, and the state it starts in. */
  datatype Call = Call(op: Op, node: Node, table: Table, store: Store, acct: Acct)

  /** The handler of the call before its first action; the root set-up has a node of its own. */
  function Start(cfg: Config, c: Call): Local {
    Begin(cfg, c.op, if c.op.Mount? then MountParent(cfg) else c.node, c.table, c.store, c.acct)
  }

  /** What the call has done with the given answers, if the table can be read and nothing failed on this side. */
  ghost predicate Means(cfg: Config, c: Call, taken: seq<Answer>, l: Local) {
    Readable(c.table) && Smooth(c.table, taken) ==>
      match c.op
      case Lookup(name) => LookupMeans(cfg, c.node, name, c.table, c.acct, taken, l)
      case Attr => AttrMeans(c.node, c.table, c.acct, taken, l)
      case ReadDirAll => c.node.inode in c.table ==> ReaddirMeans(c.node, c.table, c.acct, taken, l)
      case Readlink => ReadlinkMeans(cfg, c.node, c.table, c.acct, taken, l)
      case Open => cfg.cacheRoot != "" ==> OpenMeans(cfg, c.node, c.table, c.store, c.acct, taken, l)
      case Mount =>
        (HasPath(c.table, "/") ==> c.table[IdOf(c.table, "/")].typeName == Directory) ==> MountMeans(cfg, c.table, l)
  }

  /** Every operation does what it means, with any answers. */
  lemma CallMeans(cfg: Config, c: Call, taken: seq<Answer>)
    requires After(cfg, Start(cfg, c), taken).pc.Done?
    ensures Means(cfg, c, taken, After(cfg, Start(cfg, c), taken))
  {
    if Readable(c.table) && Smooth(c.table, taken) {
      match c.op
      case Lookup(name) => LookupAnswers(cfg, c.node, name, c.table, c.store, c.acct, taken);
      case Attr => AttrAnswers(cfg, c.node, c.table, c.store, c.acct, taken);
      case ReadDirAll =>
        if c.node.inode in c.table {
          ReaddirAnswers(cfg, c.node, c.table, c.store, c.acct, taken);
        }
      case Readlink => ReadlinkAnswers(cfg, c.node, c.table, c.store, c.acct, taken);
      case Open =>
        if cfg.cacheRoot != "" {
          OpenAnswers(cfg, c.node, c.table, c.store, c.acct, taken);
        }
      case Mount =>
        if HasPath(c.table, "/") ==> c.table[IdOf(c.table, "/")].typeName == Directory {
          MountAnswers(cfg, c.table, c.store, c.acct, taken);
        }
    }
  }

  // ----- what the remote tree is asked for -----

  /** The path of the remote tree that the call is about. */
  function RemotePath(c: Call): string {
    match c.op
    case Lookup(name) => Paths.Join(c.node.below, name)
    case _ => c.node.below
  }

  /** The remote tree is asked for that path, once, if it is called at all. */
  predicate AsksRight(c: Call, asked: seq<string>, l: Local) {
    asked == if l.acct.remote > c.acct.remote then [RemotePath(c)] else []
  }

  /** The handler has not called the remote tree yet, and will ask for this path if it does. */
  predicate MayAsk(l: Local, path: string) {
    match l.pc
    case Looking(lk) => (lk.Query? || lk.AskDirect? || lk.AskMiss?) && path == Paths.Join(l.node.below, lk.name)
    case Stating(at) => at.CallLstat? && path == l.node.below
    case Linking(rl) => rl.CallReadlink? && path == l.node.below
    case Opening(o) => o.OpenRemote? && path == l.node.below
    case Listing(rd) => rd.OpenDir? && path == l.node.below
    case Done(_) => false
  }

  predicate AsksNoMore(pc: Pc) {
    match pc
    case Looking(lk) => !lk.Query? && !lk.AskDirect? && !lk.AskMiss?
    case Stating(at) => !at.CallLstat?
    case Linking(rl) => !rl.CallReadlink?
    case Opening(o) => !o.OpenRemote?
    case Listing(rd) => !rd.OpenDir?
    case Done(_) => true
  }

  /** The path is still to be asked for after the action, or has been by the action. */
  predicate AskStep(l: Local, l': Local, path: string) {
    if MayAsk(l', path) then AskedBy(l) == [] && l'.acct.remote == l.acct.remote
    else if l'.acct.remote > l.acct.remote then AsksNoMore(l'.pc) && AskedBy(l) == [path]
    else l'.pc.Done? && l'.acct.remote == l.acct.remote && AskedBy(l) == []
  }

  lemma LookupAsks(cfg: Config, l: Local, a: Answer, path: string)
    requires l.pc.Looking? && MayAsk(l, path)
    ensures AskStep(l, LookupStep(cfg, l, a, l.pc.lk), path)
  {
  }

  lemma OtherAsks(cfg: Config, l: Local, a: Answer, path: string)
    requires WellFormed(l.pc) && !l.pc.Looking? && MayAsk(l, path)
    ensures AskStep(l, Step(cfg, l, a), path)
  {
  }

  lemma StepAsks(cfg: Config, l: Local, a: Answer, path: string)
    requires WellFormed(l.pc) && MayAsk(l, path)
    ensures AskStep(l, Step(cfg, l, a), path)
  {
    if l.pc.Looking? {
      LookupAsks(cfg, l, a, path);
    } else {
      OtherAsks(cfg, l, a, path);
    }
  }

  lemma LookupAsksNoMore(cfg: Config, l: Local, a: Answer)
    requires l.pc.Looking? && AsksNoMore(l.pc)
    ensures AsksNoMore(LookupStep(cfg, l, a, l.pc.lk).pc)
  {
  }

  lemma OpenAsksNoMore(cfg: Config, l: Local, a: Answer)
    requires l.pc.Opening? && WellFormed(l.pc) && AsksNoMore(l.pc)
    ensures AsksNoMore(OpenStep(cfg, l, a, l.pc.op).pc)
  {
  }

  lemma ReaddirAsksNoMore(l: Local, a: Answer)
    requires l.pc.Listing? && WellFormed(l.pc) && AsksNoMore(l.pc)
    ensures AsksNoMore(ReaddirStep(l, a, l.pc.rd).pc)
  {
  }

  lemma StepAsksNoMore(cfg: Config, l: Local, a: Answer)
    requires WellFormed(l.pc) && AsksNoMore(l.pc)
    ensures AskedBy(l) == [] && AsksNoMore(Step(cfg, l, a).pc)
  {
    match l.pc
    case Looking(_) => LookupAsksNoMore(cfg, l, a);
    case Opening(_) => OpenAsksNoMore(cfg, l, a);
    case Listing(_) => ReaddirAsksNoMore(l, a);
    case _ =>
  }

  lemma {:induction false} NoMoreAsked(cfg: Config, l: Local, taken: seq<Answer>)
    requires WellFormed(l.pc) && AsksNoMore(l.pc)
    ensures Asked(cfg, l, taken) == []
    decreases |taken|
  {
    if taken != [] {
      StepAsksNoMore(cfg, l, taken[0]);
      NoMoreAsked(cfg, Step(cfg, l, taken[0]), taken[1..]);
    }
  }

  lemma {:induction false} AcctGrows(cfg: Config, l: Local, taken: seq<Answer>)
    requires WellFormed(l.pc)
    ensures Counts(l.acct, After(cfg, l, taken).acct)
    decreases |taken|
  {
    if taken != [] {
      AcctGrows(cfg, Step(cfg, l, taken[0]), taken[1..]);
    }
  }

  lemma {:induction false} AskedOnceFor(cfg: Config, l: Local, taken: seq<Answer>, path: string)
    requires WellFormed(l.pc) && MayAsk(l, path) && After(cfg, l, taken).pc.Done?
    ensures Asked(cfg, l, taken) == if After(cfg, l, taken).acct.remote > l.acct.remote then [path] else []
    decreases |taken|
  {
    Once(cfg, l, taken);
    var l1 := Step(cfg, l, taken[0]);
    StepAsks(cfg, l, taken[0], path);
    if MayAsk(l1, path) {
      AskedOnceFor(cfg, l1, taken[1..], path);
    } else {
      NoMoreAsked(cfg, l1, taken[1..]);
      AcctGrows(cfg, l1, taken[1..]);
      if l1.pc.Done? {
        Rests(cfg, l1, taken[1..]);
      }
    }
  }

  /** Operations on what is known, and the root set-up, never call the remote tree. */
  predicate NeverAsks(pc: Pc) {
    pc.Done? || (pc.Looking? && AsksNoMore(pc)) || (pc.Opening? && (pc.op.FindObject? || pc.op.OpenObject?))
  }

  lemma StepNeverAsks(cfg: Config, l: Local, a: Answer)
    requires WellFormed(l.pc) && NeverAsks(l.pc)
    ensures var l' := Step(cfg, l, a); NeverAsks(l'.pc) && l'.acct.remote == l.acct.remote
  {
    match l.pc
    case Looking(_) =>
      var l' := LookupStep(cfg, l, a, l.pc.lk);
      assert NeverAsks(l'.pc) && l'.acct.remote == l.acct.remote;
    case Opening(_) =>
    case Done(_) =>
  }

  lemma {:induction false} NeverAsked(cfg: Config, l: Local, taken: seq<Answer>)
    requires WellFormed(l.pc) && NeverAsks(l.pc)
    ensures Asked(cfg, l, taken) == [] && After(cfg, l, taken).acct.remote == l.acct.remote
    decreases |taken|
  {
    if taken != [] {
      StepNeverAsks(cfg, l, taken[0]);
      NeverAsked(cfg, Step(cfg, l, taken[0]), taken[1..]);
    }
  }

  lemma BeginAsks(cfg: Config, c: Call)
    ensures var l := Start(cfg, c);
            l.acct.remote == c.acct.remote && (MayAsk(l, RemotePath(c)) || NeverAsks(l.pc))
  {
  }

  /** Every operation asks the remote tree for its own path, and only if it counts a remote call. */
  lemma CallAsks(cfg: Config, c: Call, taken: seq<Answer>)
    requires After(cfg, Start(cfg, c), taken).pc.Done?
    ensures AsksRight(c, Asked(cfg, Start(cfg, c), taken), After(cfg, Start(cfg, c), taken))
  {
    BeginAsks(cfg, c);
    if MayAsk(Start(cfg, c), RemotePath(c)) {
      AskedOnceFor(cfg, Start(cfg, c), taken, RemotePath(c));
    } else {
      NeverAsked(cfg, Start(cfg, c), taken);
    }
  }

  // ----- every operation ends -----

  /** An upper bound on the actions left, when remote listings have at most n names. */
  function Rank(pc: Pc, n: nat): nat {
    match pc
    case Looking(lk) =>
      (match lk
       case Query(_) => 5
       case EnsureRow(_, _) => 4
       case AskDirect(_, _) => 4
       case AskMiss(_) => 4
       case Update(_, _) => 3
       case Insert(_, _) => 2
       case Reload(_) => 1)
    case Stating(at) => if at.CallLstat? then 2 else 1
    case Linking(rl) => if rl.CallReadlink? then 2 else 1
    case Opening(o) =>
      (match o
       case OpenRemote => 10
       case CreateTemp => 9
       case Fetch(_) => 8
       case CheckKey(_, _) => 7
       case MakeBucket(_, _) => 6
       case RenameTemp(_, _) => 5
       case RemoveTemp(_, _) => 4
       case PutHash(_) => 3
       case FindObject => 2
       case OpenObject => 1)
    case Listing(rd) =>
      (match rd
       case OpenDir => 2 * n + 4
       case ReadEntries => 2 * n + 3
       case SelectEntry(todo, _) => 2 * |todo| + 2
       case InsertEntry(todo, _) => 2 * |todo| + 1
       case PutEntries(_) => 2
       case SelectEntries => 1)
    case Done(_) => 0
  }

  predicate ListsAtMost(a: Answer, n: nat) {
    a.listing.Some? ==> |a.listing.value| <= n
  }

  lemma LookupRank(cfg: Config, l: Local, a: Answer, n: nat)
    requires l.pc.Looking?
    ensures Rank(LookupStep(cfg, l, a, l.pc.lk).pc, n) < Rank(l.pc, n)
  {
  }

  lemma OpenRank(cfg: Config, l: Local, a: Answer, n: nat)
    requires l.pc.Opening? && WellFormed(l.pc)
    ensures Rank(OpenStep(cfg, l, a, l.pc.op).pc, n) < Rank(l.pc, n)
  {
    if l.pc.op.OpenRemote? || l.pc.op.CreateTemp? || l.pc.op.Fetch? || l.pc.op.CheckKey? {
      FetchRank(cfg, l, a, n);
    } else {
      ServeRank(cfg, l, a, n);
    }
  }

  lemma FetchRank(cfg: Config, l: Local, a: Answer, n: nat)
    requires l.pc.Opening? && WellFormed(l.pc)
    requires l.pc.op.OpenRemote? || l.pc.op.CreateTemp? || l.pc.op.Fetch? || l.pc.op.CheckKey?
    ensures Rank(OpenStep(cfg, l, a, l.pc.op).pc, n) < Rank(l.pc, n)
  {
  }

  lemma ServeRank(cfg: Config, l: Local, a: Answer, n: nat)
    requires l.pc.Opening? && WellFormed(l.pc)
    requires !l.pc.op.OpenRemote? && !l.pc.op.CreateTemp? && !l.pc.op.Fetch? && !l.pc.op.CheckKey?
    ensures Rank(OpenStep(cfg, l, a, l.pc.op).pc, n) < Rank(l.pc, n)
  {
  }

  lemma ReaddirRank(l: Local, a: Answer, n: nat)
    requires l.pc.Listing? && WellFormed(l.pc) && ListsAtMost(a, n)
    ensures Rank(ReaddirStep(l, a, l.pc.rd).pc, n) < Rank(l.pc, n)
  {
  }

  /** Every action brings the operation closer to its end, whatever the action meets. */
  lemma StepRank(cfg: Config, l: Local, a: Answer, n: nat)
    requires WellFormed(l.pc) && !l.pc.Done? && ListsAtMost(a, n)
    ensures Rank(Step(cfg, l, a).pc, n) < Rank(l.pc, n)
  {
    match l.pc
    case Looking(_) => LookupRank(cfg, l, a, n);
    case Opening(_) => OpenRank(cfg, l, a, n);
    case Listing(_) => ReaddirRank(l, a, n);
    case _ =>
  }

  /** With enough answers every operation is done. */
  lemma {:induction false} Ends(cfg: Config, l: Local, taken: seq<Answer>, n: nat)
    requires WellFormed(l.pc) && (forall a :: a in taken ==> ListsAtMost(a, n)) && |taken| >= Rank(l.pc, n)
    ensures After(cfg, l, taken).pc.Done?
    decreases |taken|
  {
    if l.pc.Done? {
      Rests(cfg, l, taken);
    } else {
      assert taken[0] in taken;
      StepRank(cfg, l, taken[0], n);
      Ends(cfg, Step(cfg, l, taken[0]), taken[1..], n);
    }
  }
}
