/**
 What Open is for, told from its answers: the bytes the remote file delivers in this
 call, kept as an object, or else the object of the last hash.
 */
module OpenOutcomes {
  import opened Wrappers
  import opened DirEntries
  import opened Metadata
  import opened Content
  import opened Handlers
  import opened Solo
  import opened Outcomes
  import Structure

  /** The name can be that of a new temporary file. */
  predicate FreshTemp(cfg: Config, st: Store, suffix: string) {
    '/' !in suffix && TempPath(cfg.cacheRoot, suffix) !in st.files && TempPath(cfg.cacheRoot, suffix) !in st.used
  }

  /** What the path of a key leads to once data has been put under it. */
  function ObjectFor(st: Store, path: string, data: Bytes): Bytes {
    if path in st.files then st.files[path] else data
  }

  /**
   The delivered bytes are in the store under their digest, unless an object was there
   already; that object is answered, and the row and the node have the digest.
   */
  predicate EndsPut(cfg: Config, node: Node, t: Table, st: Store, data: Bytes, l: Local) {
    var key := KeyFor(cfg, data);
    var path := PathForKey(cfg.cacheRoot, key);
    l.pc == Done(HandleReply(ObjectFor(st, path, data))) && l.node == node.(hash := Some(key)) &&
    l.store.files == st.files[path := ObjectFor(st, path, data)] &&
    (node.inode in t ==> l.table == t[node.inode := t[node.inode].(contentHash := Some(cfg.affinity(key)))])
  }

  /** The object of the hash that a direct node knows is answered; without one it is an error. */
  predicate EndsFallback(cfg: Config, node: Node, t: Table, st: Store, l: Local) {
    if node.direct && node.hash.Some? then
      HasObject(cfg.cacheRoot, st, node.hash.value) ==>
        l.pc == Done(HandleReply(st.files[PathForKey(cfg.cacheRoot, node.hash.value)])) &&
        l.table == t && l.node == node && l.store.files == st.files
    else l.pc == Done(Error) && l.table == t && l.node == node && l.store.files == st.files
  }

  predicate OpenCounted(direct: bool, acct: Acct, acct': Acct) {
    acct'.hit == acct.hit && acct'.remote > acct.remote &&
    if direct then acct'.direct == acct.direct + 1 && acct'.miss == acct.miss
    else acct'.miss == acct.miss + 1 && acct'.direct == acct.direct
  }

  /**
   A cached file that knows its hash answers with its object. Any other file is fetched: if
   the remote file can be opened and delivers all its bytes, and they can be written, they
   are put and answered; otherwise a direct file falls back on the hash it knows.
   */
  predicate OpenMeans(cfg: Config, node: Node, t: Table, st: Store, acct: Acct, taken: seq<Answer>, l: Local) {
    l.pc.Done? &&
    if !node.direct && node.hash.Some? then
      HasObject(cfg.cacheRoot, st, node.hash.value) ==>
        l.pc == Done(HandleReply(st.files[PathForKey(cfg.cacheRoot, node.hash.value)])) &&
        l.table == t && l.node == node && l.store == st && l.acct == acct.(hit := acct.hit + 1)
    else
      taken != [] && OpenCounted(node.direct, acct, l.acct) &&
      if !taken[0].openOk then EndsFallback(cfg, node, t, st, l)
      else
        |taken| >= 2 &&
        if !FreshTemp(cfg, st, taken[1].suffix) then EndsFallback(cfg, node, t, st, l)
        else
          |taken| >= 3 &&
          if SourceFails(taken[2].turns) || !WritesComplete(taken[2].turns) then EndsFallback(cfg, node, t, st, l)
          else EndsPut(cfg, node, t, st, Delivered(taken[2].turns), l)
  }

  // ----- from the hash on -----

  lemma FindEnds(cfg: Config, l: Local, taken: seq<Answer>, h: string)
    requires l.pc == Opening(FindObject) && l.node.hash == Some(h) && HasObject(cfg.cacheRoot, l.store, h)
    requires After(cfg, l, taken).pc.Done? && Smooth(l.table, taken)
    ensures After(cfg, l, taken) == l.(pc := Done(HandleReply(l.store.files[PathForKey(cfg.cacheRoot, h)])))
  {
    Once(cfg, l, taken);
    assert taken[0] in taken;
    var l1 := Step(cfg, l, taken[0]);
    assert l1 == l.(pc := Opening(OpenObject));
    Last(cfg, l1, taken[1..]);
    assert taken[1..][0] in taken;
  }

  lemma PutHashIs(cfg: Config, l: Local, a: Answer, key: string)
    requires l.pc == Opening(PutHash(key)) && !a.fault
    ensures var l' := Step(cfg, l, a);
            l' == l.(table := l'.table, node := l.node.(hash := Some(key)), pc := Opening(FindObject)) &&
            l'.table.Keys == l.table.Keys &&
            (l.node.inode in l.table ==>
              l'.table == l.table[l.node.inode := l.table[l.node.inode].(contentHash := Some(cfg.affinity(key)))])
  {
  }

  lemma PutHashEnds(cfg: Config, l: Local, taken: seq<Answer>, key: string)
    requires l.pc == Opening(PutHash(key)) && HasObject(cfg.cacheRoot, l.store, key)
    requires After(cfg, l, taken).pc.Done? && Smooth(l.table, taken)
    ensures var l' := After(cfg, l, taken);
            l'.pc == Done(HandleReply(l.store.files[PathForKey(cfg.cacheRoot, key)])) && l'.store == l.store &&
            l'.node == l.node.(hash := Some(key)) &&
            (l.node.inode in l.table ==>
              l'.table == l.table[l.node.inode := l.table[l.node.inode].(contentHash := Some(cfg.affinity(key)))])
  {
    Once(cfg, l, taken);
    assert taken[0] in taken;
    PutHashIs(cfg, l, taken[0], key);
    SmoothRest(l.table, Step(cfg, l, taken[0]).table, taken);
    FindEnds(cfg, Step(cfg, l, taken[0]), taken[1..], key);
  }

  // ----- from the temporary file to the hash -----

  /** The file holds the delivered bytes and is the only difference to the store there was. */
  predicate Holds(cfg: Config, st: Store, l: Local, temp: string, data: Bytes) {
    TopLevel(cfg.cacheRoot, temp) && temp !in st.files && l.store.files == st.files[temp := data]
  }

  /** What is left after the removal of the temporary file. */
  predicate Placed(cfg: Config, st: Store, l: Local, temp: string, data: Bytes) {
    var path := PathForKey(cfg.cacheRoot, KeyFor(cfg, data));
    path in l.store.files && l.store.files - {temp} == st.files[path := ObjectFor(st, path, data)] && path != temp
  }

  lemma RemoveIs(cfg: Config, l: Local, a: Answer, temp: string, put: Option<string>)
    requires l.pc == Opening(RemoveTemp(temp, put)) && !a.fault
    ensures Step(cfg, l, a) ==
            var l1 := l.(store := l.store.Remove(temp));
            if put.Some? then Goto(l1, Opening(PutHash(put.value))) else PutFailed(l1)
  {
  }

  lemma PlacedEnds(cfg: Config, l: Local, taken: seq<Answer>, st: Store, temp: string, data: Bytes)
    requires l.pc == Opening(RemoveTemp(temp, Some(KeyFor(cfg, data)))) && Placed(cfg, st, l, temp, data)
    requires After(cfg, l, taken).pc.Done? && Smooth(l.table, taken)
    ensures EndsPut(cfg, l.node, l.table, st, data, After(cfg, l, taken))
  {
    Once(cfg, l, taken);
    assert taken[0] in taken;
    RemoveIs(cfg, l, taken[0], temp, Some(KeyFor(cfg, data)));
    SmoothRest(l.table, l.table, taken);
    PutHashEnds(cfg, Step(cfg, l, taken[0]), taken[1..], KeyFor(cfg, data));
  }

  lemma RenameIs(cfg: Config, l: Local, a: Answer, temp: string, key: string)
    requires IsKey(key) && l.pc == Opening(RenameTemp(temp, key)) && !a.fault
    requires temp in l.store.files && BucketPath(cfg.cacheRoot, key) in l.store.dirs
    ensures Step(cfg, l, a) ==
            l.(store := l.store.Rename(temp, PathForKey(cfg.cacheRoot, key)), pc := Opening(RemoveTemp(temp, Some(key))))
  {
  }

  lemma RenamePlaces(cfg: Config, st: Store, l: Local, temp: string, data: Bytes)
    requires Holds(cfg, st, l, temp, data) && cfg.cacheRoot != "" && PathForKey(cfg.cacheRoot, KeyFor(cfg, data)) !in st.files
    ensures Placed(cfg, st, l.(store := l.store.Rename(temp, PathForKey(cfg.cacheRoot, KeyFor(cfg, data)))), temp, data)
  {
    var path := PathForKey(cfg.cacheRoot, KeyFor(cfg, data));
    ObjectsApart(cfg.cacheRoot, KeyFor(cfg, data), temp);
    assert l.store.Rename(temp, path).files - {temp} == st.files[path := data];
  }

  lemma RenameEnds(cfg: Config, l: Local, taken: seq<Answer>, st: Store, temp: string, data: Bytes)
    requires l.pc == Opening(RenameTemp(temp, KeyFor(cfg, data))) && Holds(cfg, st, l, temp, data) && cfg.cacheRoot != ""
    requires BucketPath(cfg.cacheRoot, KeyFor(cfg, data)) in l.store.dirs
    requires PathForKey(cfg.cacheRoot, KeyFor(cfg, data)) !in st.files
    requires After(cfg, l, taken).pc.Done? && Smooth(l.table, taken)
    ensures EndsPut(cfg, l.node, l.table, st, data, After(cfg, l, taken))
  {
    Once(cfg, l, taken);
    assert taken[0] in taken;
    RenameIs(cfg, l, taken[0], temp, KeyFor(cfg, data));
    RenamePlaces(cfg, st, l, temp, data);
    SmoothRest(l.table, l.table, taken);
    PlacedEnds(cfg, Step(cfg, l, taken[0]), taken[1..], st, temp, data);
  }

  lemma BucketIs(cfg: Config, l: Local, a: Answer, temp: string, key: string)
    requires IsKey(key) && l.pc == Opening(MakeBucket(temp, key)) && !a.fault
    ensures Step(cfg, l, a) ==
            l.(store := l.store.Mkdir(BucketPath(cfg.cacheRoot, key)), pc := Opening(RenameTemp(temp, key)))
  {
  }

  lemma BucketEnds(cfg: Config, l: Local, taken: seq<Answer>, st: Store, temp: string, data: Bytes)
    requires l.pc == Opening(MakeBucket(temp, KeyFor(cfg, data))) && Holds(cfg, st, l, temp, data) && cfg.cacheRoot != ""
    requires PathForKey(cfg.cacheRoot, KeyFor(cfg, data)) !in st.files
    requires After(cfg, l, taken).pc.Done? && Smooth(l.table, taken)
    ensures EndsPut(cfg, l.node, l.table, st, data, After(cfg, l, taken))
  {
    Once(cfg, l, taken);
    assert taken[0] in taken;
    BucketIs(cfg, l, taken[0], temp, KeyFor(cfg, data));
    SmoothRest(l.table, l.table, taken);
    RenameEnds(cfg, Step(cfg, l, taken[0]), taken[1..], st, temp, data);
  }

  lemma CheckIs(cfg: Config, l: Local, a: Answer, temp: string, key: string)
    requires IsKey(key) && l.pc == Opening(CheckKey(temp, key)) && !a.fault
    ensures Step(cfg, l, a) ==
            l.(pc := Opening(if PathForKey(cfg.cacheRoot, key) in l.store.files then RemoveTemp(temp, Some(key))
                             else MakeBucket(temp, key)))
  {
  }

  lemma CheckEnds(cfg: Config, l: Local, taken: seq<Answer>, st: Store, temp: string, data: Bytes)
    requires l.pc == Opening(CheckKey(temp, KeyFor(cfg, data))) && Holds(cfg, st, l, temp, data) && cfg.cacheRoot != ""
    requires After(cfg, l, taken).pc.Done? && Smooth(l.table, taken)
    ensures EndsPut(cfg, l.node, l.table, st, data, After(cfg, l, taken))
  {
    Once(cfg, l, taken);
    assert taken[0] in taken;
    var key := KeyFor(cfg, data);
    CheckIs(cfg, l, taken[0], temp, key);
    ObjectsApart(cfg.cacheRoot, key, temp);
    SmoothRest(l.table, l.table, taken);
    if PathForKey(cfg.cacheRoot, key) in st.files {
      assert l.store.files - {temp} == st.files;
      PlacedEnds(cfg, Step(cfg, l, taken[0]), taken[1..], st, temp, data);
    } else {
      BucketEnds(cfg, Step(cfg, l, taken[0]), taken[1..], st, temp, data);
    }
  }

  // ----- giving up -----

  /** The handler has given up on the remote file. */
  predicate GivenUp(l: Local) {
    l.pc == if l.node.direct && l.node.hash.Some? then Opening(FindObject) else Done(Error)
  }

  lemma GivenUpEnds(cfg: Config, l: Local, taken: seq<Answer>, st: Store)
    requires GivenUp(l) && l.store.files == st.files && After(cfg, l, taken).pc.Done? && Smooth(l.table, taken)
    ensures EndsFallback(cfg, l.node, l.table, st, After(cfg, l, taken))
  {
    if l.pc.Done? {
      Rests(cfg, l, taken);
    } else if HasObject(cfg.cacheRoot, st, l.node.hash.value) {
      FindEnds(cfg, l, taken, l.node.hash.value);
    }
  }

  lemma DropEnds(cfg: Config, l: Local, taken: seq<Answer>, st: Store, temp: string)
    requires l.pc == Opening(RemoveTemp(temp, None)) && temp !in st.files && l.store.files - {temp} == st.files
    requires After(cfg, l, taken).pc.Done? && Smooth(l.table, taken)
    ensures EndsFallback(cfg, l.node, l.table, st, After(cfg, l, taken))
  {
    Once(cfg, l, taken);
    assert taken[0] in taken;
    RemoveIs(cfg, l, taken[0], temp, None);
    SmoothRest(l.table, l.table, taken);
    GivenUpEnds(cfg, Step(cfg, l, taken[0]), taken[1..], st);
  }

  // ----- from the remote file to the temporary one -----

  lemma FetchIs(cfg: Config, l: Local, a: Answer, temp: string)
    requires l.pc == Opening(Fetch(temp))
    ensures var l' := Step(cfg, l, a);
            temp in l'.store.files && l'.store == l.store.Write(temp, l'.store.files[temp]) &&
            l' == l.(store := l'.store, acct := l'.acct, pc := l'.pc) &&
            if SourceFails(a.turns) || !WritesComplete(a.turns) then l'.pc == Opening(RemoveTemp(temp, None))
            else l'.pc == Opening(CheckKey(temp, KeyFor(cfg, Delivered(a.turns)))) && l'.store.files[temp] == Delivered(a.turns)
  {
    CopyIsTee(a.turns, [], [], 0);
  }

  lemma HoldsWritten(cfg: Config, st: Store, l: Local, l': Local, temp: string, data: Bytes)
    requires Holds(cfg, st, l, temp, []) && l'.store == l.store.Write(temp, data)
    ensures Holds(cfg, st, l', temp, data) && l'.store.files - {temp} == st.files
  {
  }

  lemma FetchEnds(cfg: Config, l: Local, taken: seq<Answer>, st: Store, temp: string)
    requires l.pc == Opening(Fetch(temp)) && Holds(cfg, st, l, temp, []) && cfg.cacheRoot != ""
    requires After(cfg, l, taken).pc.Done? && Smooth(l.table, taken)
    ensures var l' := After(cfg, l, taken);
            taken != [] &&
            if SourceFails(taken[0].turns) || !WritesComplete(taken[0].turns) then EndsFallback(cfg, l.node, l.table, st, l')
            else EndsPut(cfg, l.node, l.table, st, Delivered(taken[0].turns), l')
  {
    Once(cfg, l, taken);
    FetchIs(cfg, l, taken[0], temp);
    SmoothRest(l.table, l.table, taken);
    var l1 := Step(cfg, l, taken[0]);
    HoldsWritten(cfg, st, l, l1, temp, l1.store.files[temp]);
    if SourceFails(taken[0].turns) || !WritesComplete(taken[0].turns) {
      DropEnds(cfg, l1, taken[1..], st, temp);
    } else {
      CheckEnds(cfg, l1, taken[1..], st, temp, Delivered(taken[0].turns));
    }
  }

  lemma TempIs(cfg: Config, l: Local, a: Answer)
    requires l.pc == Opening(CreateTemp) && !a.fault
    ensures var temp := TempPath(cfg.cacheRoot, a.suffix);
            Step(cfg, l, a) == if FreshTemp(cfg, l.store, a.suffix) then l.(store := l.store.CreateTemp(temp), pc := Opening(Fetch(temp)))
                               else PutFailed(l)
  {
  }

  lemma TempEnds(cfg: Config, l: Local, taken: seq<Answer>)
    requires l.pc == Opening(CreateTemp) && cfg.cacheRoot != "" && After(cfg, l, taken).pc.Done? && Smooth(l.table, taken)
    ensures var l' := After(cfg, l, taken);
            taken != [] &&
            if !FreshTemp(cfg, l.store, taken[0].suffix) then EndsFallback(cfg, l.node, l.table, l.store, l')
            else
              |taken| >= 2 &&
              if SourceFails(taken[1].turns) || !WritesComplete(taken[1].turns) then EndsFallback(cfg, l.node, l.table, l.store, l')
              else EndsPut(cfg, l.node, l.table, l.store, Delivered(taken[1].turns), l')
  {
    Once(cfg, l, taken);
    assert taken[0] in taken;
    TempIs(cfg, l, taken[0]);
    SmoothRest(l.table, l.table, taken);
    var l1 := Step(cfg, l, taken[0]);
    if FreshTemp(cfg, l.store, taken[0].suffix) {
      TempTopLevel(cfg.cacheRoot, taken[0].suffix);
      FetchEnds(cfg, l1, taken[1..], l.store, TempPath(cfg.cacheRoot, taken[0].suffix));
    } else {
      GivenUpEnds(cfg, l1, taken[1..], l.store);
    }
  }

  // ----- Open -----

  lemma SourceIs(cfg: Config, l: Local, a: Answer)
    requires l.pc == Opening(OpenRemote)
    ensures var l' := Step(cfg, l, a);
            OpenCounted(l.node.direct, l.acct, l'.acct) &&
            l' == l.(acct := l'.acct, pc := l'.pc) && (if a.openOk then l'.pc == Opening(CreateTemp) else GivenUp(l'))
  {
  }

  /** After the first action an Open counts nothing more but remote calls. */
  predicate SameCounts(acct: Acct, acct': Acct) {
    acct'.hit == acct.hit && acct'.miss == acct.miss && acct'.direct == acct.direct && acct'.remote >= acct.remote
  }

  lemma StepKeepsCounts(cfg: Config, l: Local, a: Answer)
    requires WellFormed(l.pc) && (l.pc.Done? || (l.pc.Opening? && !l.pc.op.OpenRemote?))
    ensures var l' := Step(cfg, l, a);
            SameCounts(l.acct, l'.acct) && (l'.pc.Done? || (l'.pc.Opening? && !l'.pc.op.OpenRemote?))
  {
  }

  lemma {:induction false} KeepsCounts(cfg: Config, l: Local, taken: seq<Answer>)
    requires WellFormed(l.pc) && (l.pc.Done? || (l.pc.Opening? && !l.pc.op.OpenRemote?))
    ensures SameCounts(l.acct, After(cfg, l, taken).acct)
    decreases |taken|
  {
    if taken != [] {
      StepKeepsCounts(cfg, l, taken[0]);
      KeepsCounts(cfg, Step(cfg, l, taken[0]), taken[1..]);
    }
  }

  /** Open on its own, with nothing failing on this side, on any remote tree. */
  lemma OpenAnswers(cfg: Config, node: Node, t: Table, st: Store, acct: Acct, taken: seq<Answer>)
    requires cfg.cacheRoot != "" && Smooth(t, taken) && After(cfg, Begin(cfg, Open, node, t, st, acct), taken).pc.Done?
    ensures OpenMeans(cfg, node, t, st, acct, taken, After(cfg, Begin(cfg, Open, node, t, st, acct), taken))
  {
    var l := Begin(cfg, Open, node, t, st, acct);
    if !node.direct && node.hash.Some? {
      if HasObject(cfg.cacheRoot, st, node.hash.value) {
        FindEnds(cfg, l, taken, node.hash.value);
      }
    } else {
      Once(cfg, l, taken);
      SourceIs(cfg, l, taken[0]);
      SmoothRest(t, t, taken);
      var l1 := Step(cfg, l, taken[0]);
      KeepsCounts(cfg, l1, taken[1..]);
      if taken[0].openOk {
        TempEnds(cfg, l1, taken[1..]);
      } else {
        GivenUpEnds(cfg, l1, taken[1..], st);
      }
    }
  }

  /**
   The bytes answered after a fetch have the digest of the bytes delivered, and are these
   bytes if and only if no other object with that digest was there.
   */
  lemma FetchedBytes(cfg: Config, node: Node, t: Table, st: Store, data: Bytes, l: Local)
    requires EndsPut(cfg, node, t, st, data, l) && Structure.StoreOK(cfg, st)
    ensures l.pc.reply.HandleReply? && KeyFor(cfg, l.pc.reply.data) == KeyFor(cfg, data)
    ensures l.pc.reply.data == data <==>
              (HasObject(cfg.cacheRoot, st, KeyFor(cfg, data)) ==> st.files[PathForKey(cfg.cacheRoot, KeyFor(cfg, data))] == data)
  {
    var key := KeyFor(cfg, data);
    assert HasObject(cfg.cacheRoot, st, key) ==> KeyFor(cfg, st.files[PathForKey(cfg.cacheRoot, key)]) == key;
  }
}
