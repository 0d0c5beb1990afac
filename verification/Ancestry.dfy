/**
 The rows of the table form a tree: every row but the root's has the row of the
 directory above it, so a path that has a row can be walked to from the root.
 */
module Ancestry {
  import opened Wrappers
  import opened DirEntries
  import opened Metadata
  import opened Content
  import opened Handlers
  import opened Paths
  import opened Structure
  import opened StructureSteps
  import opened Runs
  import opened Safety
  import opened Guarantees
  import opened Persistence
  import opened Offline

  /** The directory has a row, of type directory unless the path may be retyped. */
  ghost predicate HasDirectory(cfg: Config, t: Table, dir: string) {
    HasPath(t, dir) && (Pinned(cfg, dir) ==> t[IdOf(t, dir)].typeName == Directory)
  }

  ghost predicate RowRooted(cfg: Config, t: Table, row: Row) {
    var cs := Components(row.path);
    if cs == [] then row.typeName == Directory else HasDirectory(cfg, t, PathOf(cs[..|cs| - 1]))
  }

  ghost predicate TableRooted(cfg: Config, t: Table) {
    forall id :: id in t ==> RowRooted(cfg, t, t[id])
  }

  // ----- how a step changes the tree of rows -----

  lemma DirectoryStays(cfg: Config, t: Table, t': Table, dir: string)
    requires HasDirectory(cfg, t, dir) && Grows(cfg, t, t') && UniquePaths(t')
    ensures HasDirectory(cfg, t', dir)
  {
    assert Kept(cfg, t[IdOf(t, dir)], t'[IdOf(t, dir)]);
  }

  /** Old rows stay rooted if the root keeps its type. */
  lemma OldRowsRooted(cfg: Config, t: Table, t': Table, id: nat)
    requires TableRooted(cfg, t) && Grows(cfg, t, t') && UniquePaths(t') && id in t
    requires Components(t[id].path) == [] ==> t'[id].typeName == Directory
    ensures RowRooted(cfg, t', t'[id])
  {
    var cs := Components(t[id].path);
    assert Kept(cfg, t[id], t'[id]) && RowRooted(cfg, t, t[id]);
    if cs != [] {
      DirectoryStays(cfg, t, t', PathOf(cs[..|cs| - 1]));
    }
  }

  /** The same rows with the same types, whatever the other columns are. */
  ghost predicate SameTypes(t: Table, t': Table) {
    t'.Keys == t.Keys && forall id :: id in t ==> t'[id].path == t[id].path && t'[id].typeName == t[id].typeName
  }

  lemma SameTypesRooted(cfg: Config, t: Table, t': Table)
    requires TableRooted(cfg, t) && SameTypes(t, t') && Grows(cfg, t, t') && UniquePaths(t')
    ensures TableRooted(cfg, t')
  {
    forall id | id in t'
      ensures RowRooted(cfg, t', t'[id])
    {
      assert RowRooted(cfg, t, t[id]);
      OldRowsRooted(cfg, t, t', id);
    }
  }

  /** A child of a directory node, or the root as a directory. */
  ghost predicate Grounded(cfg: Config, t: Table, st: Store, op: Op, node: Node, name: string, typeName: TypeName) {
    if op.Mount? then node.path == "/" && name == "/" && typeName == Directory
    else NodeOK(cfg, t, st, node) && node.typeName == Directory && ProperName(name)
  }

  lemma ChildRooted(cfg: Config, t: Table, st: Store, t': Table, op: Op, node: Node, name: string, row: Row)
    requires Grounded(cfg, t, st, op, node, name, row.typeName) && row.path == Join(node.path, name)
    requires Grows(cfg, t, t') && UniquePaths(t')
    ensures RowRooted(cfg, t', row)
  {
    if op.Mount? {
      RootJoinsRoot();
      RootComponents();
    } else {
      JoinName(node.path, name);
      assert (Components(node.path) + [name])[..|Components(node.path)|] == Components(node.path);
      assert Kept(cfg, t[node.inode], t'[node.inode]);
    }
  }

  lemma InsertRooted(cfg: Config, t: Table, st: Store, op: Op, node: Node, name: string, typeName: TypeName, id: nat)
    requires TableRooted(cfg, t) && Grounded(cfg, t, st, op, node, name, typeName)
    requires CanInsert(t, Join(node.path, name), id)
    requires var t' := InsertRow(t, Join(node.path, name), typeName, id); Grows(cfg, t, t') && UniquePaths(t')
    ensures TableRooted(cfg, InsertRow(t, Join(node.path, name), typeName, id))
  {
    var t' := InsertRow(t, Join(node.path, name), typeName, id);
    ChildRooted(cfg, t, st, t', op, node, name, t'[id]);
    forall i | i in t'
      ensures RowRooted(cfg, t', t'[i])
    {
      if i != id {
        assert RowRooted(cfg, t, t[i]) && t'[i] == t[i];
        OldRowsRooted(cfg, t, t', i);
      }
    }
  }

  lemma RetypeRooted(cfg: Config, t: Table, st: Store, op: Op, node: Node, name: string, typeName: TypeName)
    requires TableRooted(cfg, t) && Grounded(cfg, t, st, op, node, name, typeName)
    requires var t' := UpdateType(t, Join(node.path, name), typeName); Grows(cfg, t, t') && UniquePaths(t')
    ensures TableRooted(cfg, UpdateType(t, Join(node.path, name), typeName))
  {
    var path := Join(node.path, name);
    var t' := UpdateType(t, path, typeName);
    forall i | i in t'
      ensures RowRooted(cfg, t', t'[i])
    {
      if t[i].path == path {
        ChildRooted(cfg, t, st, t', op, node, name, t'[i]);
      } else {
        assert RowRooted(cfg, t, t[i]) && t'[i] == t[i];
        OldRowsRooted(cfg, t, t', i);
      }
    }
  }

  // ----- the steps -----

  /** The action inserts or retypes the row of this name. */
  function Writes(pc: Pc): Option<(string, TypeName)> {
    match pc
    case Looking(lk) =>
      if lk.Update? || lk.Insert? then Some((lk.name, lk.typeName)) else None
    case Listing(rd) =>
      if rd.InsertEntry? && rd.todo != [] then Some((rd.todo[0].name, SqlTypeName(rd.todo[0].modeType))) else None
    case _ => None
  }

  lemma QuietLookup(cfg: Config, l: Local, a: Answer)
    requires l.pc.Looking? && Writes(l.pc) == None
    ensures LookupStep(cfg, l, a, l.pc.lk).table == l.table
  {
  }

  lemma QuietOpen(cfg: Config, l: Local, a: Answer)
    requires l.pc.Opening? && WellFormed(l.pc)
    ensures SameTypes(l.table, OpenStep(cfg, l, a, l.pc.op).table)
  {
  }

  lemma QuietReaddir(l: Local, a: Answer)
    requires l.pc.Listing? && WellFormed(l.pc) && Writes(l.pc) == None
    ensures SameTypes(l.table, ReaddirStep(l, a, l.pc.rd).table)
  {
  }

  lemma QuietStep(cfg: Config, l: Local, a: Answer)
    requires WellFormed(l.pc) && Writes(l.pc) == None
    ensures SameTypes(l.table, Step(cfg, l, a).table)
  {
    match l.pc
    case Looking(_) => QuietLookup(cfg, l, a);
    case Opening(_) => QuietOpen(cfg, l, a);
    case Listing(_) => QuietReaddir(l, a);
    case _ =>
  }

  /** What a writing action does to the table. */
  lemma WritingStep(cfg: Config, l: Local, a: Answer, name: string, typeName: TypeName)
    requires WellFormed(l.pc) && Writes(l.pc) == Some((name, typeName))
    ensures var path, t' := Join(l.node.path, name), Step(cfg, l, a).table;
            t' == l.table || (l.pc.Looking? && l.pc.lk.Update? && t' == UpdateType(l.table, path, typeName)) ||
            (CanInsert(l.table, path, a.rowId) && t' == InsertRow(l.table, path, typeName, a.rowId))
  {
  }

  lemma GroundedLookup(cfg: Config, t: Table, st: Store, op: Op, node: Node, lk: LookupPc)
    requires HolderOK(cfg, t, st, op, node) && LookupOK(cfg, t, op, node, lk) && (lk.Update? || lk.Insert?)
    requires op.Mount? || Applicable(op, node)
    ensures Grounded(cfg, t, st, op, node, lk.name, lk.typeName)
  {
  }

  lemma GroundedInsert(cfg: Config, t: Table, st: Store, node: Node, todo: seq<Listed>, done: seq<Entry>)
    requires NodeOK(cfg, t, st, node) && node.typeName == Directory && Doable(t, node, todo, done) && todo != []
    ensures Grounded(cfg, t, st, ReadDirAll, node, todo[0].name, SqlTypeName(todo[0].modeType))
  {
  }

  lemma GroundedStep(cfg: Config, op: Op, l: Local)
    requires LocalOK(cfg, op, l) && (op.Mount? || Applicable(op, l.node)) && Writes(l.pc).Some?
    ensures Grounded(cfg, l.table, l.store, op, l.node, Writes(l.pc).value.0, Writes(l.pc).value.1)
  {
    if l.pc.Looking? {
      GroundedLookup(cfg, l.table, l.store, op, l.node, l.pc.lk);
    } else {
      GroundedInsert(cfg, l.table, l.store, l.node, l.pc.rd.todo, l.pc.rd.done);
    }
  }

  lemma WrittenRooted(cfg: Config, op: Op, l: Local, a: Answer, t': Table)
    requires WellFormed(l.pc) && t' == Step(cfg, l, a).table && TableRooted(cfg, l.table) && Writes(l.pc).Some?
    requires Grounded(cfg, l.table, l.store, op, l.node, Writes(l.pc).value.0, Writes(l.pc).value.1)
    requires Grows(cfg, l.table, t') && UniquePaths(t')
    ensures TableRooted(cfg, t')
  {
    var (name, typeName) := Writes(l.pc).value;
    WritingStep(cfg, l, a, name, typeName);
    if t' == UpdateType(l.table, Join(l.node.path, name), typeName) {
      RetypeRooted(cfg, l.table, l.store, op, l.node, name, typeName);
    } else if t' != l.table {
      InsertRooted(cfg, l.table, l.store, op, l.node, name, typeName, a.rowId);
    }
  }

  lemma StepRooted(cfg: Config, op: Op, l: Local, a: Answer, t': Table)
    requires LocalOK(cfg, op, l) && (op.Mount? || Applicable(op, l.node)) && TableRooted(cfg, l.table)
    requires t' == Step(cfg, l, a).table && Grows(cfg, l.table, t') && UniquePaths(t')
    ensures TableRooted(cfg, t')
  {
    if Writes(l.pc).Some? {
      GroundedStep(cfg, op, l);
      WrittenRooted(cfg, op, l, a, t');
    } else {
      QuietStep(cfg, l, a);
      SameTypesRooted(cfg, l.table, t');
    }
  }

  // ----- runs -----

  lemma ActTable(cfg: Config, s: State, pid: nat, a: Answer)
    requires Runnable(s, pid)
    ensures Next(cfg, s, Act(pid, a)).table == Step(cfg, LocalOf(s, s.procs[pid]), a).table
  {
    var p := s.procs[pid];
    var l := Step(cfg, LocalOf(s, p), a);
    SettledTable(s, pid, p.nid, p.op, l, Plus(s.total, p.acct, l.acct));
  }

  lemma ActReady(cfg: Config, s: State, pid: nat)
    requires Inv(cfg, s) && Locks(s) && pid in s.procs
    ensures var p := s.procs[pid];
            LocalOK(cfg, p.op, LocalOf(s, p)) && (p.op.Mount? || Applicable(p.op, p.node))
  {
    assert ProcOK(cfg, s.table, s.store, s.procs[pid]) && Held(s, s.procs[pid]);
  }

  lemma ActRooted(cfg: Config, s: State, pid: nat, a: Answer, s': State)
    requires Inv(cfg, s) && Locks(s) && TableRooted(cfg, s.table) && Runnable(s, pid)
    requires Advances(cfg, s, s') && s'.table == Step(cfg, LocalOf(s, s.procs[pid]), a).table
    ensures TableRooted(cfg, s'.table)
  {
    ActReady(cfg, s, pid);
    StepRooted(cfg, s.procs[pid].op, LocalOf(s, s.procs[pid]), a, s'.table);
  }

  lemma SettledTable(s: State, pid: nat, nid: Option<nat>, op: Op, l: Local, total: Acct)
    ensures Settle(s, pid, nid, op, l, total).table == l.table
  {
  }

  lemma BeginTable(cfg: Config, op: Op, node: Node, t: Table, st: Store)
    ensures Begin(cfg, op, node, t, st, ZERO).table == t
  {
  }

  lemma QuietEvent(cfg: Config, s: State, ev: Event)
    requires !ev.Act?
    ensures Next(cfg, s, ev).table == s.table
  {
    match ev
    case Start(pid, nid, op) =>
      if nid in s.nodes {
        var l := Begin(cfg, op, s.nodes[nid], s.table, s.store, ZERO);
        BeginTable(cfg, op, s.nodes[nid], s.table, s.store);
        SettledTable(s, pid, Some(nid), op, l, Plus(s.total, ZERO, l.acct));
      }
    case StartMount(pid) =>
      BeginTable(cfg, Mount, MountParent(cfg), s.table, s.store);
      SettledTable(s, pid, None, Mount, Begin(cfg, Mount, MountParent(cfg), s.table, s.store, ZERO), s.total);
    case _ =>
  }

  lemma {:induction false} ExecRooted(cfg: Config, s: State, evs: seq<Event>)
    requires WfConfig(cfg) && Inv(cfg, s) && Locks(s) && TableRooted(cfg, s.table) && WfEvents(evs)
    ensures TableRooted(cfg, Exec(cfg, s, evs).table)
    decreases |evs|
  {
    if evs != [] {
      assert WfEvent(evs[0]);
      var s' := Next(cfg, s, evs[0]);
      NextOK(cfg, s, evs[0]);
      NextLocks(cfg, s, evs[0]);
      if evs[0].Act? && Runnable(s, evs[0].pid) {
        ActTable(cfg, s, evs[0].pid, evs[0].answer);
        ActRooted(cfg, s, evs[0].pid, evs[0].answer, s');
      } else if !evs[0].Act? {
        QuietEvent(cfg, s, evs[0]);
      }
      ExecRooted(cfg, s', evs[1..]);
    }
  }

  /** In every reachable state the rows form a tree. */
  lemma ReachableRooted(cfg: Config, evs: seq<Event>)
    requires WfConfig(cfg) && WfEvents(evs)
    ensures TableRooted(cfg, Exec(cfg, INITIAL, evs).table)
  {
    InitialOK(cfg);
    ExecRooted(cfg, INITIAL, evs);
  }

  // ----- the way from the root -----

  /** All directories above the path are cached. */
  predicate Sheltered(cfg: Config, cs: seq<string>) {
    ProperNames(cs) && forall i :: 0 <= i < |cs| ==> !cfg.direct(PathOf(cs[..i]))
  }

  lemma ShelteredIsPinned(cfg: Config, cs: seq<string>)
    requires Sheltered(cfg, cs)
    ensures Pinned(cfg, PathOf(cs)) == (cs != [])
  {
    PathOfComponents(cs);
  }

  lemma ParentRow(cfg: Config, t: Table, cs: seq<string>)
    requires TableRooted(cfg, t) && ProperNames(cs) && cs != [] && HasPath(t, PathOf(cs))
    ensures HasDirectory(cfg, t, PathOf(cs[..|cs| - 1]))
  {
    PathOfComponents(cs);
    assert RowRooted(cfg, t, t[IdOf(t, PathOf(cs))]);
  }

  lemma RootRow(cfg: Config, t: Table)
    requires TableRooted(cfg, t) && HasPath(t, PathOf([]))
    ensures t[IdOf(t, PathOf([]))].typeName == Directory
  {
    PathOfComponents([]);
    assert RowRooted(cfg, t, t[IdOf(t, PathOf([]))]);
  }

  /** Every directory above a known path is known, and is a directory. */
  lemma {:induction false} AboveKnown(cfg: Config, t: Table, cs: seq<string>, i: nat)
    requires TableRooted(cfg, t) && Sheltered(cfg, cs) && HasPath(t, PathOf(cs)) && i < |cs|
    ensures HasPath(t, PathOf(cs[..i])) && t[IdOf(t, PathOf(cs[..i]))].typeName == Directory
    decreases |cs|
  {
    var dir := cs[..|cs| - 1];
    assert cs[..i] == if i < |dir| then dir[..i] else dir;
    DirectlyAbove(cfg, t, cs, dir);
    if i < |dir| {
      AboveKnown(cfg, t, dir, i);
    }
  }

  lemma DirectlyAbove(cfg: Config, t: Table, cs: seq<string>, dir: seq<string>)
    requires TableRooted(cfg, t) && Sheltered(cfg, cs) && HasPath(t, PathOf(cs)) && cs != [] && dir == cs[..|cs| - 1]
    ensures Sheltered(cfg, dir) && HasPath(t, PathOf(dir)) && t[IdOf(t, PathOf(dir))].typeName == Directory
  {
    ParentRow(cfg, t, cs);
    ShelteredPrefix(cfg, cs, |cs| - 1);
    ShelteredDirectory(cfg, t, dir);
  }

  lemma ShelteredDirectory(cfg: Config, t: Table, cs: seq<string>)
    requires TableRooted(cfg, t) && Sheltered(cfg, cs) && HasDirectory(cfg, t, PathOf(cs))
    ensures t[IdOf(t, PathOf(cs))].typeName == Directory
  {
    if cs == [] {
      RootRow(cfg, t);
    } else {
      ShelteredIsPinned(cfg, cs);
    }
  }

  lemma ShelteredPrefix(cfg: Config, cs: seq<string>, i: nat)
    requires Sheltered(cfg, cs) && i <= |cs|
    ensures Sheltered(cfg, cs[..i])
  {
    forall k | 0 <= k < i
      ensures !cfg.direct(PathOf(cs[..i][..k]))
    {
      assert cs[..i][..k] == cs[..k];
    }
  }

  /** A path with a row that is no whiteout can be walked to, if it and everything above it is cached. */
  lemma RowsAreKnown(cfg: Config, t: Table, cs: seq<string>)
    requires TableRooted(cfg, t) && Sheltered(cfg, cs) && !cfg.direct(PathOf(cs)) && HasPath(t, PathOf(cs))
    requires t[IdOf(t, PathOf(cs))].typeName != NoEntry
    ensures Known(cfg, t, cs)
  {
    forall i | 0 <= i < |cs|
      ensures HasPath(t, PathOf(cs[..i])) && t[IdOf(t, PathOf(cs[..i]))].typeName == Directory && !cfg.direct(PathOf(cs[..i]))
    {
      AboveKnown(cfg, t, cs, i);
    }
  }
}
