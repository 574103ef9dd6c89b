/** What the commit of each command leaves behind. */
module BrokerEffects {
  import opened Core
  import opened OnDiskIterators
  import opened DatabaseStates
  import opened Broker
  import opened BrokerInvariants
  import opened BrokerSteps
  import opened BrokerChoice
  import opened BrokerResponse
  import opened BrokerSafety
  import opened BrokerCompaction

  /** The worker has succeeded, and its reply is about to be handled. */
  ghost predicate Succeeded(s: Sys, w: string) {
    Finished(s, w) && s.workers[w].task.value.phase.ok
  }

  ghost function CommandOf(s: Sys, w: string): Command
    requires Finished(s, w)
  {
    s.workers[w].task.value.spec.command
  }

  ghost function ChangesOf(s: Sys, w: string): seq<Change>
    requires Finished(s, w)
  {
    s.workers[w].task.value.phase.changes
  }

  /** The garbage collection leaves the working datasets as the commit left them. */
  lemma WorkingAsCommitted(s: Sys, w: string)
    requires Inv(s) && Finished(s, w)
    ensures var db, db' := Committed(s, w), ResponseStep(s, w).db;
      && DbOk(db) && db'.working == db.working && db'.iterators == db.iterators
      && forall h :: h in db.working ==> h in db.objects && h in db'.objects && db'.objects[h] == db.objects[h]
  {
    CommittedOk(s, w);
    HeldExist(s, w);
    assert DbParts(Committed(s, w));
    CollectKept(Committed(s, w), HeldWithout(s, w));
    CollectExactly(Committed(s, w), HeldWithout(s, w));
  }

  // ----- new result lists -----

  /**
   * A select that succeeded leaves its list behind: the iterator is there, is the list that was stored,
   * and nothing of it has been read or delivered. All other iterators stay as they are.
   */
  lemma SelectAsRequested(s: Sys, w: string)
    requires Inv(s) && Succeeded(s, w) && CommandOf(s, w).SelectInto?
    ensures exists n :: ChangesOf(s, w) == [NewIterator(n)] && ListIsThere(s, ResponseStep(s, w), n)
  {
    var t := s.workers[w].task.value;
    assert TaskOk(s.db, t, s.workers[w].snap);
    var n :| t.phase.changes == [NewIterator(n)];
    assert NewIterator(n) in t.phase.changes;
    NewListCommitted(s.db, t, n);
    WorkingAsCommitted(s, w);
    assert ListIsThere(s, ResponseStep(s, w), n);
  }

  ghost predicate ListIsThere(s: Sys, s': Sys, n: string) {
    && n in s.db.stored && IdOf(n) !in s.db.iterators
    && s'.db.iterators == s.db.iterators[IdOf(n) := s.db.stored[n]]
    && s.db.stored[n].fileOffset == 0 && s.db.stored[n].byteOffset == 0
    && s'.delivered == s.delivered[IdOf(n) := []]
  }

  lemma NewListCommitted(db: Db, t: Task, n: string)
    requires t.phase.Done? && t.phase.changes == [NewIterator(n)] && n in db.stored && IdOf(n) !in db.iterators
    ensures Commit(db, t.spec.id, t.phase.changes).iterators == db.iterators[IdOf(n) := db.stored[n]]
  {
    var changes := t.phase.changes;
    assert ApplyAll(db, changes, 1) == Apply(ApplyAll(db, changes, 0), changes[0]) == Apply(db, changes[0]);
  }

  // ----- drops -----

  /** After an explicit drop exactly the datasets that are not called so are in use, in their order. */
  lemma DropAsRequested(s: Sys, w: string, h: Handle)
    requires Inv(s) && Succeeded(s, w) && CommandOf(s, w).DropDataset?
    ensures var db' := ResponseStep(s, w).db;
      && (h in db'.working <==> h in s.db.working && h in s.db.objects && !s.db.objects[h].IsCalled(CommandOf(s, w).dataset))
      && (h in db'.working ==> h in db'.objects && db'.objects[h] == s.db.objects[h])
  {
    var t := s.workers[w].task.value;
    assert TaskOk(s.db, t, s.workers[w].snap);
    assert DbParts(s.db);
    DropCommitted(s.db, t);
    WorkingAsCommitted(s, w);
    var x := t.spec.command.dataset;
    WithoutExactly(s.db.objects, s.db.working, |s.db.working|, x, h);
    assert s.db.working[..|s.db.working|] == s.db.working;
  }

  lemma DropCommitted(db: Db, t: Task)
    requires t.phase.Done? && t.spec.command.DropDataset? && t.phase.changes == [Drop(t.spec.command.dataset)]
    ensures var db' := Commit(db, t.spec.id, t.phase.changes);
      && db'.objects == db.objects
      && db'.working == Without(db.objects, db.working, |db.working|, t.spec.command.dataset)
  {
    var changes := t.phase.changes;
    assert ApplyAll(db, changes, 1) == Apply(ApplyAll(db, changes, 0), changes[0]) == Apply(db, changes[0]);
  }

  // ----- new datasets -----

  /** The dataset called `x` is new and in use. */
  ghost predicate IsNew(db: Db, db': Db, h: Handle, x: string) {
    h in db'.working && h in db'.objects && h !in db.objects && db'.objects[h].name == x
  }

  ghost predicate HasNew(db: Db, db': Db, x: string) {
    exists h :: IsNew(db, db', h, x)
  }

  /** After the first `n` changes the old datasets are in use, and behind them exactly the inserted ones. */
  ghost predicate CreatedUpTo(db: Db, changes: seq<Change>, n: nat, db': Db)
    requires n <= |changes|
  {
    && |db.working| <= |db'.working| && db'.working[..|db.working|] == db.working
    && (forall i :: |db.working| <= i < |db'.working| ==>
          && db'.working[i] in db'.objects && db'.working[i] !in db.objects
          && Insert(db'.objects[db'.working[i]].name) in changes[..n])
    && (forall x :: Insert(x) in changes[..n] ==> HasNew(db, db', x))
  }

  lemma LoadKeepsNew(db: Db, db': Db, x: string, y: string)
    requires DbOk(db') && x in db'.disk && HasNew(db, db', y)
    ensures HasNew(db, LoadDataset(db', x), y)
  {
    assert DbParts(db');
    var h :| IsNew(db, db', h, y);
    assert IsNew(db, LoadDataset(db', x), h, y);
  }

  lemma CreatedLoad(db: Db, changes: seq<Change>, n: nat, db': Db)
    requires n < |changes| && changes[n].Insert? && changes[n].name in db'.disk && CreatedUpTo(db, changes, n, db')
    requires DbOk(db') && forall h :: h in db.objects ==> h in db'.objects
    ensures CreatedUpTo(db, changes, n + 1, LoadDataset(db', changes[n].name))
  {
    assert DbParts(db');
    var x := changes[n].name;
    var db'' := LoadDataset(db', x);
    PrefixMore(changes, n);
    assert db'.disk[x].name == x;
    assert IsNew(db, db'', db'.next, x);
    forall y | Insert(y) in changes[..n + 1] ensures HasNew(db, db'', y) {
      if y != x {
        LoadKeepsNew(db, db', x, y);
      }
    }
  }

  lemma CreatedToggle(db: Db, changes: seq<Change>, n: nat, db': Db)
    requires n < |changes| && changes[n].ToggleTaint? && CreatedUpTo(db, changes, n, db')
    ensures CreatedUpTo(db, changes, n + 1, Toggle(db', changes[n].id, changes[n].taint))
  {
    var db'' := Toggle(db', changes[n].id, changes[n].taint);
    PrefixMore(changes, n);
    forall h | h in db'.objects ensures h in db''.objects && db''.objects[h].name == db'.objects[h].name {
    }
    forall y | Insert(y) in changes[..n + 1] ensures HasNew(db, db'', y) {
      assert HasNew(db, db', y);
      var h :| IsNew(db, db', h, y);
      assert IsNew(db, db'', h, y);
    }
  }

  lemma CreatedNext(a: Authority, db: Db, changes: seq<Change>, n: nat, db': Db)
    requires CanApply(a, db, changes) && n < |changes| && (changes[n].Insert? || changes[n].ToggleTaint?)
    requires Reached(a, db, changes, n, db') && CreatedUpTo(db, changes, n, db')
    ensures CreatedUpTo(db, changes, n + 1, Apply(db', changes[n]))
  {
    assert EvolvesParts(a, db, db');
    assert Permits(a, changes[n]);
    if changes[n].Insert? {
      assert changes[n].name in db.disk && changes[n].name in db'.disk;
      CreatedLoad(db, changes, n, db');
    } else {
      CreatedToggle(db, changes, n, db');
    }
  }

  lemma {:induction false} CreatedAll(a: Authority, db: Db, changes: seq<Change>, n: nat)
    requires DbOk(db) && CanApply(a, db, changes) && n <= |changes|
    requires forall i :: 0 <= i < n ==> changes[i].Insert? || changes[i].ToggleTaint?
    ensures CreatedUpTo(db, changes, n, ApplyAll(db, changes, n))
  {
    if n > 0 {
      CreatedAll(a, db, changes, n - 1);
      CreatedApplied(a, db, changes, n - 1);
    } else {
      NothingCreated(db, changes);
    }
  }

  lemma NothingCreated(db: Db, changes: seq<Change>)
    ensures CreatedUpTo(db, changes, 0, db)
  {
  }

  lemma CreatedApplied(a: Authority, db: Db, changes: seq<Change>, n: nat)
    requires DbOk(db) && CanApply(a, db, changes) && n < |changes| && (changes[n].Insert? || changes[n].ToggleTaint?)
    requires CreatedUpTo(db, changes, n, ApplyAll(db, changes, n))
    ensures CreatedUpTo(db, changes, n + 1, ApplyAll(db, changes, n + 1))
  {
    ApplyAllEvolves(a, db, changes, n);
    CreatedNext(a, db, changes, n, ApplyAll(db, changes, n));
  }

  /** A new dataset is the one on disk, apart from taints. */
  lemma NewIsStored(a: Authority, db: Db, db': Db, h: Handle)
    requires DbOk(db') && Evolves(a, db, db') && h in db'.objects && h !in db.objects
    ensures var x := db'.objects[h].name; x in db.disk && db'.objects[h] == db.disk[x].(taints := db'.objects[h].taints)
  {
    assert DbParts(db') && EvolvesParts(a, db, db');
  }

  /** The new datasets in use are those inserted, as they are on disk. */
  ghost predicate InsertsAreThere(db: Db, db': Db, changes: seq<Change>) {
    && (forall h :: h in db'.working && h !in db.working ==>
          && h in db'.objects && h !in db.objects
          && var x := db'.objects[h].name;
            Insert(x) in changes && x in db.disk && db'.objects[h] == db.disk[x].(taints := db'.objects[h].taints))
    && (forall x :: Insert(x) in changes ==> exists h :: IsNew(db, db', h, x))
  }

  /**
   * After an index command the datasets that were in use still are, in their order, and after them
   * exactly the ones that the worker has written, with the files that it has given them.
   */
  lemma IndexAsRequested(s: Sys, w: string)
    requires Inv(s) && Succeeded(s, w) && CommandOf(s, w).Index?
    ensures var db, db' := s.db, ResponseStep(s, w).db;
      && |db.working| <= |db'.working| && db'.working[..|db.working|] == db.working
      && InsertsAreThere(db, db', ChangesOf(s, w))
  {
    var t := s.workers[w].task.value;
    assert TaskOk(s.db, t, s.workers[w].snap);
    CommittedOk(s, w);
    CreatedAll(AuthorityOf(t), s.db, t.phase.changes, |t.phase.changes|);
    WorkingAsCommitted(s, w);
    IndexedStay(s.db, t, ResponseStep(s, w).db, ApplyAll(s.db, t.phase.changes, |t.phase.changes|));
  }

  lemma InTail(a: seq<Handle>, b: seq<Handle>, h: Handle) returns (i: nat)
    requires |a| <= |b| && b[..|a|] == a && h in b && h !in a
    ensures |a| <= i < |b| && b[i] == h
  {
    i :| i < |b| && b[i] == h;
    assert h !in b[..|a|];
  }

  lemma IndexedStay(db: Db, t: Task, db': Db, applied: Db)
    requires t.phase.Done? && CreatedUpTo(db, t.phase.changes, |t.phase.changes|, applied)
    requires DbOk(db) && DbOk(applied) && Evolves(AuthorityOf(t), db, applied)
    requires db'.working == applied.working
    requires forall h :: h in applied.working ==> h in applied.objects && h in db'.objects && db'.objects[h] == applied.objects[h]
    ensures |db.working| <= |db'.working| && db'.working[..|db.working|] == db.working
    ensures InsertsAreThere(db, db', t.phase.changes)
  {
    var changes := t.phase.changes;
    assert changes[..|changes|] == changes;
    forall h | h in db'.working && h !in db.working
      ensures h in db'.objects && h !in db.objects && Insert(db'.objects[h].name) in changes
      ensures var x := db'.objects[h].name; x in db.disk && db'.objects[h] == db.disk[x].(taints := db'.objects[h].taints)
    {
      var i := InTail(db.working, db'.working, h);
      NewIsStored(AuthorityOf(t), db, applied, h);
    }
    forall x | Insert(x) in changes ensures exists h :: IsNew(db, db', h, x) {
      assert HasNew(db, applied, x);
      var h :| IsNew(db, applied, h, x);
      assert IsNew(db, db', h, x);
    }
  }

  /** An old dataset stays in use exactly if it is not called `x`. */
  lemma OldDropped(a: Authority, db: Db, before: Db, x: string, h: Handle)
    requires DbOk(db) && Evolves(a, db, before) && h in db.working && h in before.working
    ensures h in db.objects && (h in DropWorking(before, x).working <==> !db.objects[h].IsCalled(x))
  {
    assert DbParts(db) && EvolvesParts(a, db, before);
    WithoutExactly(before.objects, before.working, |before.working|, x, h);
    assert before.working[..|before.working|] == before.working;
  }

  /** All new datasets stay in use. */
  lemma NewNotDropped(db: Db, changes: seq<Change>, before: Db, x: string, h: Handle)
    requires changes != [] && CreatedUpTo(db, changes, |changes| - 1, before) && DbOk(before)
    requires OtherIds(changes, x) && '.' !in x && h !in db.working
    ensures h in DropWorking(before, x).working <==> h in before.working
  {
    WithoutExactly(before.objects, before.working, |before.working|, x, h);
    assert before.working[..|before.working|] == before.working;
    if h in before.working {
      NewIsNotCalled(db, changes, before, x, h);
    }
  }

  lemma LastApplied(db: Db, changes: seq<Change>, x: string)
    requires changes != [] && changes[|changes| - 1] == Drop(x)
    ensures ApplyAll(db, changes, |changes|) == DropWorking(ApplyAll(db, changes, |changes| - 1), x)
  {
  }

  /** Dropping afterwards takes out what is called so. */
  lemma ReindexApplied(db: Db, changes: seq<Change>, before: Db, x: string, a: Authority)
    requires changes != [] && CreatedUpTo(db, changes, |changes| - 1, before)
    requires DbOk(db) && DbOk(before) && Evolves(a, db, before) && OtherIds(changes, x) && '.' !in x
    ensures var applied := DropWorking(before, x);
      && (forall h :: h in db.working ==> h in db.objects && (h in applied.working <==> !db.objects[h].IsCalled(x)))
      && (forall h :: h !in db.working ==> (h in applied.working <==> h in before.working))
  {
    forall h | h in db.working ensures h in db.objects && (h in DropWorking(before, x).working <==> !db.objects[h].IsCalled(x)) {
      assert h in before.working[..|db.working|];
      OldDropped(a, db, before, x, h);
    }
    forall h | h !in db.working ensures h in DropWorking(before, x).working <==> h in before.working {
      NewNotDropped(db, changes, before, x, h);
    }
  }

  lemma NewIsNotCalled(db: Db, changes: seq<Change>, before: Db, x: string, h: Handle)
    requires changes != [] && CreatedUpTo(db, changes, |changes| - 1, before) && DbOk(before)
    requires OtherIds(changes, x) && '.' !in x && h in before.working && h !in db.working
    ensures h in before.objects && !before.objects[h].IsCalled(x)
  {
    assert DbParts(before);
    var i := InTail(db.working, before.working, h);
    var init := changes[..|changes| - 1];
    var k :| 0 <= k < |init| && init[k] == Insert(before.objects[h].name);
    assert changes[k] == init[k];
    IdIsNoName(before.objects[h].name, x);
  }

  /**
   * After a reindex command the old dataset is no longer in use, all others that were are, and the new
   * ones are exactly those that the worker has written.
   */
  lemma ReindexAsRequested(s: Sys, w: string)
    requires Inv(s) && Succeeded(s, w) && CommandOf(s, w).Reindex?
    ensures var db, db' := s.db, ResponseStep(s, w).db;
      && (forall h :: h in db.working ==>
            h in db.objects && (h in db'.working <==> !db.objects[h].IsCalled(CommandOf(s, w).dataset)))
      && InsertsAreThere(db, db', ChangesOf(s, w))
  {
    var t := s.workers[w].task.value;
    assert TaskOk(s.db, t, s.workers[w].snap);
    WorkingAsCommitted(s, w);
    ReindexCommitted(s.db, t, ResponseStep(s, w).db);
  }

  lemma ReindexCommitted(db: Db, t: Task, db': Db)
    requires DbOk(db) && t.phase.Done? && t.spec.command.Reindex? && CanApply(AuthorityOf(t), db, t.phase.changes)
    requires var cs := t.phase.changes; cs != [] && cs[|cs| - 1] == Drop(t.spec.command.dataset) && OnlyCreates(cs[..|cs| - 1])
    requires OtherIds(t.phase.changes, t.spec.command.dataset) && '.' !in t.spec.command.dataset
    requires var applied := ApplyAll(db, t.phase.changes, |t.phase.changes|);
      && db'.working == applied.working
      && forall h :: h in applied.working ==> h in applied.objects && h in db'.objects && db'.objects[h] == applied.objects[h]
    ensures forall h :: h in db.working ==>
      h in db.objects && (h in db'.working <==> !db.objects[h].IsCalled(t.spec.command.dataset))
    ensures InsertsAreThere(db, db', t.phase.changes)
  {
    var changes, a, x := t.phase.changes, AuthorityOf(t), t.spec.command.dataset;
    var n := |changes| - 1;
    var before := ApplyAll(db, changes, n);
    forall i | 0 <= i < n ensures changes[i].Insert? || changes[i].ToggleTaint? {
      assert changes[..n][i] == changes[i];
    }
    CreatedAll(a, db, changes, n);
    ApplyAllEvolves(a, db, changes, n);
    LastApplied(db, changes, x);
    ReindexApplied(db, changes, before, x, a);
    ReindexedStay(db, t, db', before, DropWorking(before, x));
  }

  lemma ReindexedStay(db: Db, t: Task, db': Db, before: Db, applied: Db)
    requires t.phase.Done? && t.phase.changes != [] && t.phase.changes[|t.phase.changes| - 1].Drop?
    requires CreatedUpTo(db, t.phase.changes, |t.phase.changes| - 1, before)
    requires DbOk(db) && DbOk(before) && Evolves(AuthorityOf(t), db, before)
    requires applied.objects == before.objects && forall h :: h !in db.working ==> (h in applied.working <==> h in before.working)
    requires db'.working == applied.working
    requires forall h :: h in applied.working ==> h in applied.objects && h in db'.objects && db'.objects[h] == applied.objects[h]
    ensures InsertsAreThere(db, db', t.phase.changes)
  {
    assert DbParts(db);
    var changes, n := t.phase.changes, |t.phase.changes| - 1;
    assert changes == changes[..n] + [changes[n]];
    forall h | h in db'.working && h !in db.working
      ensures h in db'.objects && h !in db.objects && Insert(db'.objects[h].name) in changes
      ensures var x := db'.objects[h].name; x in db.disk && db'.objects[h] == db.disk[x].(taints := db'.objects[h].taints)
    {
      var i := InTail(db.working, before.working, h);
      NewIsStored(AuthorityOf(t), db, before, h);
    }
    forall x | Insert(x) in changes ensures exists h :: IsNew(db, db', h, x) {
      assert Insert(x) in changes[..n];
      assert HasNew(db, before, x);
      var h :| IsNew(db, before, h, x);
      assert h !in db.working;
      assert IsNew(db, db', h, x);
    }
  }

  // ----- compactions -----

  /** The new dataset has the files of the merged ones, one after the other, and their taints and types. */
  ghost predicate Replaces(db: Db, db': Db, hs: seq<Handle>, new': Handle) {
    && new' in db'.working && new' in db'.objects && new' !in db.objects
    && db'.objects[new'].files == FilesOf(db.objects, hs, |hs|)
    && forall h :: h in hs ==>
         h in db.objects && db'.objects[new'].taints == db.objects[h].taints && db'.objects[new'].types == db.objects[h].types
  }

  lemma MergedLoaded(db: Db, hs: seq<Handle>, changes: seq<Change>, name: string)
    requires DbOk(db) && NoRepeats(hs) && forall h :: h in hs ==> h in db.objects
    requires |Drops(db.objects, hs, |hs|)| == |hs| && changes == Drops(db.objects, hs, |hs|) + [Insert(name)]
    requires name in db.disk && db.disk[name].files == FilesOf(db.objects, hs, |hs|) && Inherits(db.objects, hs, db.disk[name])
    ensures exists n :: Replaces(db, ApplyAll(db, changes, |changes|), hs, n)
  {
    assert changes[..|hs|] == Drops(db.objects, hs, |hs|);
    DropsApplied(db, hs, changes, |hs|);
    var db' := ApplyAll(db, changes, |hs|);
    assert DroppedParts(db, hs, |hs|, db');
    assert DbParts(db');
    assert ApplyAll(db, changes, |hs| + 1) == Apply(db', changes[|hs|]) == LoadDataset(db', name);
    assert Replaces(db, LoadDataset(db', name), hs, db'.next);
  }

  lemma CompactionLoads(db: Db, snap: Snapshot, spec: TaskSpec, changes: seq<Change>)
    requires DbOk(db) && Compacted(db, snap, spec.locks, changes) && LocksFit(spec) && spec.command.Compact?
    requires |Locked(db.objects, snap.datasets, spec.locks, |spec.locks|).value| >= 2
    ensures exists n :: Replaces(db, ApplyAll(db, changes, |changes|), Locked(db.objects, snap.datasets, spec.locks, |spec.locks|).value, n)
  {
    var hs := Locked(db.objects, snap.datasets, spec.locks, |spec.locks|).value;
    MergedDistinct(db, snap, spec);
    DropsAt(db.objects, hs, |hs|, 0);
    MergedLoaded(db, hs, changes, changes[|changes| - 1].name);
  }

  /** A compaction of two or more datasets replaces them by one of the same taints and types. */
  lemma CompactionAsRequested(s: Sys, w: string) returns (n: Handle)
    requires Inv(s) && Succeeded(s, w) && Compacts(s, w) && Merged(s, w).Some? && |Merged(s, w).value| >= 2
    ensures Replaces(s.db, ResponseStep(s, w).db, Merged(s, w).value, n)
  {
    var t, snap := s.workers[w].task.value, s.workers[w].snap;
    assert TaskOk(s.db, t, snap);
    CompactionLoads(s.db, snap, t.spec, t.phase.changes);
    WorkingAsCommitted(s, w);
    n :| Replaces(s.db, ApplyAll(s.db, t.phase.changes, |t.phase.changes|), Merged(s, w).value, n);
  }

  /**
   * In every run: when a compaction of two or more datasets is committed, the new dataset has their
   * files, their taints and their index types, whatever was done meanwhile.
   */
  lemma CompactionsInherit(run: seq<Sys>, i: nat, w: string) returns (n: Handle)
    requires i < |run| - 1 && IsRun(run) && Initial(run[0])
    requires Succeeded(run[i], w) && run[i + 1] == ResponseStep(run[i], w)
    requires Compacts(run[i], w) && Merged(run[i], w).Some? && |Merged(run[i], w).value| >= 2
    ensures Replaces(run[i].db, run[i + 1].db, Merged(run[i], w).value, n)
  {
    InitialHolds(run[0]);
    RunKeeps(run, i);
    n := CompactionAsRequested(run[i], w);
  }

  // ----- commands that change nothing -----

  /** A failed command, and one that only reads, leave datasets and iterators as they are. */
  lemma NothingRequested(s: Sys, w: string)
    requires Inv(s) && Finished(s, w) && (!s.workers[w].task.value.phase.ok || CommandOf(s, w).ReadOnly?)
    ensures var s' := ResponseStep(s, w);
      && s'.db.working == s.db.working && s'.db.iterators == s.db.iterators && s'.delivered == s.delivered
      && forall h :: h in s.db.working ==> h in s.db.objects && h in s'.db.objects && s'.db.objects[h] == s.db.objects[h]
  {
    assert TaskOk(s.db, s.workers[w].task.value, s.workers[w].snap);
    WorkingAsCommitted(s, w);
  }
}
