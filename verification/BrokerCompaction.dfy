/** Compactions neither lose nor duplicate files. */
module BrokerCompaction {
  import opened Core
  import opened DatabaseStates
  import opened Broker
  import opened BrokerInvariants
  import opened BrokerSteps
  import opened BrokerChoice
  import opened BrokerResponse
  import opened BrokerSafety

  // ----- the files of the working datasets -----

  lemma {:induction false} FilesPrefix(objects: map<Handle, Dataset>, a: seq<Handle>, b: seq<Handle>, n: nat)
    requires n <= |a|
    ensures FilesOf(objects, a + b, n) == FilesOf(objects, a, n)
  {
    if n > 0 {
      FilesPrefix(objects, a, b, n - 1);
      assert (a + b)[n - 1] == a[n - 1];
    }
  }

  /** The files of some datasets, each as often as it occurs. */
  ghost function Bag(objects: map<Handle, Dataset>, hs: seq<Handle>): multiset<Bytes> {
    multiset(FilesOf(objects, hs, |hs|))
  }

  lemma BagMore(objects: map<Handle, Dataset>, hs: seq<Handle>, h: Handle)
    requires h in objects
    ensures Bag(objects, hs + [h]) == Bag(objects, hs) + multiset(objects[h].files)
  {
    FilesPrefix(objects, hs, [h], |hs|);
    assert FilesOf(objects, hs + [h], |hs| + 1) == FilesOf(objects, hs, |hs|) + objects[h].files;
  }

  lemma FilesMore(objects: map<Handle, Dataset>, hs: seq<Handle>, n: nat)
    requires n < |hs| && hs[n] in objects
    ensures multiset(FilesOf(objects, hs, n + 1)) == multiset(FilesOf(objects, hs, n)) + multiset(objects[hs[n]].files)
  {
  }

  /** The files come in the order of the datasets. */
  lemma FilesInOrder(objects: map<Handle, Dataset>, hs: seq<Handle>, n: nat)
    requires n < |hs| && hs[n] in objects
    ensures FilesOf(objects, hs, n + 1) == FilesOf(objects, hs, n) + objects[hs[n]].files
  {
  }

  /** How often the name `f` occurs in the first `n` datasets. */
  ghost function Count(objects: map<Handle, Dataset>, hs: seq<Handle>, n: nat, f: Bytes): nat
    requires n <= |hs|
  {
    if n == 0 then 0 else Count(objects, hs, n - 1, f) + CountIn(objects, hs[n - 1], f)
  }

  ghost function CountIn(objects: map<Handle, Dataset>, h: Handle, f: Bytes): nat {
    if h in objects then multiset(objects[h].files)[f] else 0
  }

  lemma {:induction false} CountIs(objects: map<Handle, Dataset>, hs: seq<Handle>, n: nat, f: Bytes)
    requires n <= |hs|
    ensures multiset(FilesOf(objects, hs, n))[f] == Count(objects, hs, n, f)
  {
    if n > 0 {
      CountIs(objects, hs, n - 1, f);
    }
  }

  lemma {:induction false} CountPrefix(objects: map<Handle, Dataset>, a: seq<Handle>, b: seq<Handle>, n: nat, f: Bytes)
    requires n <= |a|
    ensures Count(objects, a + b, n, f) == Count(objects, a, n, f)
  {
    if n > 0 {
      CountPrefix(objects, a, b, n - 1, f);
      assert (a + b)[n - 1] == a[n - 1];
    }
  }

  /** The dataset called `x` is `h` and no other. */
  ghost predicate OnlyOne(objects: map<Handle, Dataset>, hs: seq<Handle>, x: string, h: Handle) {
    forall g :: g in hs ==> g in objects && (objects[g].IsCalled(x) <==> g == h)
  }

  /** How often `f` occurs in the datasets that are left. */
  ghost function CountLeft(objects: map<Handle, Dataset>, hs: seq<Handle>, n: nat, x: string, f: Bytes): nat
    requires n <= |hs|
  {
    Count(objects, Without(objects, hs, n, x), |Without(objects, hs, n, x)|, f)
  }

  lemma LeftMore(objects: map<Handle, Dataset>, hs: seq<Handle>, n: nat, x: string, f: Bytes)
    requires n < |hs| && hs[n] in objects
    ensures CountLeft(objects, hs, n + 1, x, f)
         == CountLeft(objects, hs, n, x, f) + (if objects[hs[n]].IsCalled(x) then 0 else CountIn(objects, hs[n], f))
  {
    var rest := Without(objects, hs, n, x);
    CountPrefix(objects, rest, [hs[n]], |rest|, f);
    assert rest + [] == rest;
  }

  /** Taking out the one dataset called `x` takes out its files. */
  lemma {:induction false} WithoutCount(objects: map<Handle, Dataset>, hs: seq<Handle>, n: nat, x: string, h: Handle, f: Bytes)
    requires n <= |hs| && NoRepeats(hs) && h in objects && OnlyOne(objects, hs, x, h)
    ensures Count(objects, hs, n, f) == CountLeft(objects, hs, n, x, f) + (if h in hs[..n] then CountIn(objects, h, f) else 0)
  {
    if n > 0 {
      WithoutCount(objects, hs, n - 1, x, h, f);
      OnceIn(hs, n - 1, h);
      assert hs[n - 1] in hs;
      WithoutCountMore(objects, hs, n - 1, x, h, f);
    }
  }

  lemma WithoutCountMore(objects: map<Handle, Dataset>, hs: seq<Handle>, n: nat, x: string, h: Handle, f: Bytes)
    requires n < |hs| && hs[n] in objects && (objects[hs[n]].IsCalled(x) <==> hs[n] == h)
    requires (h in hs[..n + 1] <==> h in hs[..n] || h == hs[n]) && (h == hs[n] ==> h !in hs[..n])
    requires Count(objects, hs, n, f) == CountLeft(objects, hs, n, x, f) + (if h in hs[..n] then CountIn(objects, h, f) else 0)
    ensures Count(objects, hs, n + 1, f)
         == CountLeft(objects, hs, n + 1, x, f) + (if h in hs[..n + 1] then CountIn(objects, h, f) else 0)
  {
    LeftMore(objects, hs, n, x, f);
  }

  lemma OnceIn(hs: seq<Handle>, n: nat, h: Handle)
    requires n < |hs| && NoRepeats(hs)
    ensures h in hs[..n + 1] <==> h in hs[..n] || h == hs[n]
    ensures h == hs[n] ==> h !in hs[..n]
  {
    PrefixMore(hs, n);
  }

  lemma WithoutOne(objects: map<Handle, Dataset>, hs: seq<Handle>, x: string, h: Handle)
    requires NoRepeats(hs) && h in hs && OnlyOne(objects, hs, x, h)
    ensures Bag(objects, hs) == Bag(objects, Without(objects, hs, |hs|, x)) + multiset(objects[h].files)
  {
    assert hs[..|hs|] == hs;
    var rest := Without(objects, hs, |hs|, x);
    forall f ensures Bag(objects, hs)[f] == (Bag(objects, rest) + multiset(objects[h].files))[f] {
      WithoutCount(objects, hs, |hs|, x, h, f);
      CountIs(objects, hs, |hs|, f);
      CountIs(objects, rest, |rest|, f);
    }
  }

  lemma CalledById(db: Db, g: Handle, h: Handle)
    requires DbOk(db) && g in db.objects && h in db.objects
    ensures db.objects[g].IsCalled(db.objects[h].Id()) <==> g == h
  {
    assert DbParts(db);
    IdIsNoName(db.objects[g].name, db.objects[h].Id());
  }

  /** Dropping a working dataset by its id. */
  lemma DropOne(db: Db, h: Handle)
    requires DbOk(db) && h in db.working && h in db.objects
    ensures var db' := DropWorking(db, db.objects[h].Id());
      && DbOk(db') && db'.objects == db.objects && db'.disk == db.disk
      && (forall g :: g in db'.working <==> g in db.working && g != h)
      && Bag(db.objects, db.working) == Bag(db.objects, db'.working) + multiset(db.objects[h].files)
  {
    var x := db.objects[h].Id();
    assert DbParts(db);
    DropOk(db, x);
    forall g | g in db.working ensures db.objects[g].IsCalled(x) <==> g == h {
      CalledById(db, g, h);
    }
    WithoutOne(db.objects, db.working, x, h);
    assert db.working[..|db.working|] == db.working;
    forall g ensures g in DropWorking(db, x).working <==> g in db.working && g != h {
      WithoutExactly(db.objects, db.working, |db.working|, x, g);
    }
  }

  lemma {:induction false} DropsAt(objects: map<Handle, Dataset>, hs: seq<Handle>, n: nat, i: nat)
    requires i < n <= |hs| && forall h :: h in hs ==> h in objects
    ensures |Drops(objects, hs, n)| == n && Drops(objects, hs, n)[i] == Drop(objects[hs[i]].Id())
  {
    if n > 1 {
      DropsAt(objects, hs, n - 1, if i < n - 1 then i else 0);
    }
  }

  /** The files of those of the first `n` datasets that are no longer in use. */
  function GoneFiles(db: Db, hs: seq<Handle>, n: nat): seq<Bytes>
    requires n <= |hs|
  {
    if n == 0 then []
    else
      var h := hs[n - 1];
      GoneFiles(db, hs, n - 1) + (if h in db.objects && h !in db.working then db.objects[h].files else [])
  }

  ghost predicate DroppedParts(db: Db, hs: seq<Handle>, n: nat, db': Db)
    requires n <= |hs|
  {
    && DbOk(db') && db'.objects == db.objects && db'.disk == db.disk
    && (forall g :: g in db'.working <==> g in db.working && g !in hs[..n])
    && Bag(db.objects, db.working) + multiset(GoneFiles(db, hs, n))
       == Bag(db.objects, db'.working) + multiset(FilesOf(db.objects, hs, n))
  }

  /** The state after the first `n` drops of a compaction; as with `DbOk`, of all equals. */
  ghost predicate DroppedUpTo(db: Db, hs: seq<Handle>, n: nat, db': Db)
    requires n <= |hs|
  {
    forall d {:trigger DroppedParts(db, hs, n, d)} :: d == db' ==> DroppedParts(db, hs, n, d)
  }

  /** Dropping a dataset that is not in use changes nothing. */
  lemma DropAbsent(db: Db, h: Handle)
    requires DbOk(db) && h !in db.working && h in db.objects
    ensures DropWorking(db, db.objects[h].Id()) == db
  {
    assert DbParts(db);
    forall g | g in db.working ensures !db.objects[g].IsCalled(db.objects[h].Id()) {
      CalledById(db, g, h);
    }
    WithoutNone(db.objects, db.working, |db.working|, db.objects[h].Id());
    assert db.working[..|db.working|] == db.working;
  }

  lemma {:induction false} WithoutNone(objects: map<Handle, Dataset>, hs: seq<Handle>, n: nat, x: string)
    requires n <= |hs| && forall g :: g in hs ==> g in objects && !objects[g].IsCalled(x)
    ensures Without(objects, hs, n, x) == hs[..n]
  {
    if n > 0 {
      WithoutNone(objects, hs, n - 1, x);
      PrefixMore(hs, n - 1);
    }
  }

  lemma DroppedMore(db: Db, hs: seq<Handle>, n: nat, db': Db)
    requires n < |hs| && NoRepeats(hs) && DroppedUpTo(db, hs, n, db') && hs[n] in db.objects
    ensures DroppedUpTo(db, hs, n + 1, DropWorking(db', db.objects[hs[n]].Id()))
  {
    assert DroppedParts(db, hs, n, db');
    OnceIn(hs, n, hs[n]);
    if hs[n] in db.working {
      DropOne(db', hs[n]);
      DroppedNext(db, hs, n, db', DropWorking(db', db.objects[hs[n]].Id()));
    } else {
      DropAbsent(db', hs[n]);
      GoneNext(db, hs, n, db');
    }
  }

  lemma DroppedNext(db: Db, hs: seq<Handle>, n: nat, db': Db, db'': Db)
    requires n < |hs| && hs[n] in db.objects && hs[n] in db.working && DroppedParts(db, hs, n, db')
    requires DbOk(db'') && db''.objects == db'.objects && db''.disk == db'.disk
    requires forall g :: g in db''.working <==> g in db'.working && g != hs[n]
    requires Bag(db'.objects, db'.working) == Bag(db'.objects, db''.working) + multiset(db'.objects[hs[n]].files)
    ensures DroppedUpTo(db, hs, n + 1, db'')
  {
    DroppedWorking(db, hs, n, db', db'');
    BagDropped(db, hs, n, db', db'');
    assert DroppedParts(db, hs, n + 1, db'');
  }

  lemma DroppedWorking(db: Db, hs: seq<Handle>, n: nat, db': Db, db'': Db)
    requires n < |hs| && forall g :: g in db'.working <==> g in db.working && g !in hs[..n]
    requires forall g :: g in db''.working <==> g in db'.working && g != hs[n]
    ensures forall g :: g in db''.working <==> g in db.working && g !in hs[..n + 1]
  {
    PrefixMore(hs, n);
  }

  lemma BagDropped(db: Db, hs: seq<Handle>, n: nat, db': Db, db'': Db)
    requires n < |hs| && hs[n] in db.objects && hs[n] in db.working && DroppedParts(db, hs, n, db')
    requires Bag(db.objects, db'.working) == Bag(db.objects, db''.working) + multiset(db.objects[hs[n]].files)
    ensures Bag(db.objects, db.working) + multiset(GoneFiles(db, hs, n + 1))
         == Bag(db.objects, db''.working) + multiset(FilesOf(db.objects, hs, n + 1))
  {
    FilesMore(db.objects, hs, n);
    assert GoneFiles(db, hs, n + 1) == GoneFiles(db, hs, n) + [] == GoneFiles(db, hs, n);
  }

  lemma GoneNext(db: Db, hs: seq<Handle>, n: nat, db': Db)
    requires n < |hs| && hs[n] in db.objects && hs[n] !in db.working && DroppedParts(db, hs, n, db')
    ensures DroppedUpTo(db, hs, n + 1, db')
  {
    PrefixMore(hs, n);
    FilesMore(db.objects, hs, n);
    assert GoneFiles(db, hs, n + 1) == GoneFiles(db, hs, n) + db.objects[hs[n]].files;
    BothMore(Bag(db.objects, db.working), multiset(GoneFiles(db, hs, n)), Bag(db.objects, db'.working),
      multiset(FilesOf(db.objects, hs, n)), multiset(db.objects[hs[n]].files));
    assert DroppedParts(db, hs, n + 1, db');
  }

  lemma BothMore(a: multiset<Bytes>, b: multiset<Bytes>, c: multiset<Bytes>, d: multiset<Bytes>, more: multiset<Bytes>)
    requires a + b == c + d
    ensures a + (b + more) == c + (d + more)
  {
    assert a + (b + more) == (a + b) + more;
    assert c + (d + more) == (c + d) + more;
  }

  /** The first changes are the drops of the datasets. */
  ghost predicate AreDrops(db: Db, hs: seq<Handle>, changes: seq<Change>) {
    |hs| <= |changes| && changes[..|hs|] == Drops(db.objects, hs, |hs|)
  }

  lemma DropIs(db: Db, hs: seq<Handle>, changes: seq<Change>, n: nat)
    requires n < |hs| <= |changes| && forall h :: h in hs ==> h in db.objects
    requires AreDrops(db, hs, changes)
    ensures changes[n] == Drop(db.objects[hs[n]].Id())
    ensures ApplyAll(db, changes, n + 1) == DropWorking(ApplyAll(db, changes, n), db.objects[hs[n]].Id())
  {
    DropsAt(db.objects, hs, |hs|, n);
    assert changes[n] == changes[..|hs|][n];
  }

  lemma {:induction false} DropsApplied(db: Db, hs: seq<Handle>, changes: seq<Change>, n: nat)
    requires DbOk(db) && n <= |hs| <= |changes| && NoRepeats(hs)
    requires forall h :: h in hs ==> h in db.objects
    requires AreDrops(db, hs, changes)
    ensures DroppedUpTo(db, hs, n, ApplyAll(db, changes, n))
  {
    if n > 0 {
      DropsApplied(db, hs, changes, n - 1);
      DropsNext(db, hs, changes, n - 1);
    } else {
      NothingDropped(db, hs);
    }
  }

  lemma NothingDropped(db: Db, hs: seq<Handle>)
    requires DbOk(db)
    ensures DroppedUpTo(db, hs, 0, db)
  {
    assert DroppedParts(db, hs, 0, db);
  }

  lemma DropsNext(db: Db, hs: seq<Handle>, changes: seq<Change>, n: nat)
    requires n < |hs| <= |changes| && NoRepeats(hs) && forall h :: h in hs ==> h in db.objects
    requires AreDrops(db, hs, changes) && DroppedUpTo(db, hs, n, ApplyAll(db, changes, n))
    ensures DroppedUpTo(db, hs, n + 1, ApplyAll(db, changes, n + 1))
  {
    DropIs(db, hs, changes, n);
    DroppedMore(db, hs, n, ApplyAll(db, changes, n));
  }

  /** The datasets found are those of the ids. */
  ghost predicate AreFound(objects: map<Handle, Dataset>, found: seq<Handle>, ids: seq<string>, n: nat)
    requires n <= |ids|
  {
    |found| == n && forall i :: 0 <= i < n ==> found[i] in objects && objects[found[i]].Id() == ids[i]
  }

  lemma LockedStep(objects: map<Handle, Dataset>, hs: seq<Handle>, ids: seq<string>, n: nat)
    requires n < |ids| && Locked(objects, hs, DatasetLocks(ids), n + 1).Some?
    ensures Locked(objects, hs, DatasetLocks(ids), n).Some?
    ensures var h := FindId(objects, hs, |hs|, ids[n]);
      h.Some? && Locked(objects, hs, DatasetLocks(ids), n + 1).value == Locked(objects, hs, DatasetLocks(ids), n).value + [h.value]
  {
    assert DatasetLocks(ids)[n] == DatasetLock(ids[n]);
  }

  lemma FoundMore(objects: map<Handle, Dataset>, found: seq<Handle>, ids: seq<string>, n: nat, h: Handle)
    requires n < |ids| && AreFound(objects, found, ids, n) && h in objects && objects[h].Id() == ids[n]
    ensures AreFound(objects, found + [h], ids, n + 1)
  {
  }

  /** If all of the first `n` ids are found, they are found by their locks. */
  ghost predicate IdsFound(objects: map<Handle, Dataset>, hs: seq<Handle>, ids: seq<string>, n: nat)
    requires n <= |ids|
  {
    var r := Locked(objects, hs, DatasetLocks(ids), n);
    r.Some? ==> AreFound(objects, r.value, ids, n)
  }

  lemma FoundNext(objects: map<Handle, Dataset>, hs: seq<Handle>, ids: seq<string>, n: nat)
    requires n < |ids| && IdsFound(objects, hs, ids, n)
    ensures IdsFound(objects, hs, ids, n + 1)
  {
    if Locked(objects, hs, DatasetLocks(ids), n + 1).Some? {
      LockedStep(objects, hs, ids, n);
      FoundMore(objects, Locked(objects, hs, DatasetLocks(ids), n).value, ids, n, FindId(objects, hs, |hs|, ids[n]).value);
    }
  }

  lemma {:induction false} AllIdsFound(objects: map<Handle, Dataset>, hs: seq<Handle>, ids: seq<string>, n: nat)
    requires n <= |ids|
    ensures IdsFound(objects, hs, ids, n)
  {
    if n > 0 {
      AllIdsFound(objects, hs, ids, n - 1);
      FoundNext(objects, hs, ids, n - 1);
    }
  }

  /** Every lock on a dataset finds one. */
  lemma LockedIds(objects: map<Handle, Dataset>, hs: seq<Handle>, ids: seq<string>, n: nat)
    requires n <= |ids| && Locked(objects, hs, DatasetLocks(ids), n).Some?
    ensures AreFound(objects, Locked(objects, hs, DatasetLocks(ids), n).value, ids, n)
  {
    AllIdsFound(objects, hs, ids, n);
  }

  /** Distinct locks find distinct datasets. */
  lemma LockedDistinct(objects: map<Handle, Dataset>, hs: seq<Handle>, ids: seq<string>)
    requires Distinct(ids) && Locked(objects, hs, DatasetLocks(ids), |ids|).Some?
    ensures var r := Locked(objects, hs, DatasetLocks(ids), |ids|).value;
      NoRepeats(r) && forall h :: h in r ==> h in objects
  {
    LockedIds(objects, hs, ids, |ids|);
  }

  /** The datasets a compaction merges. */
  ghost function Merged(s: Sys, w: string): Option<seq<Handle>>
    requires Busy(s, w)
  {
    var locks := s.workers[w].task.value.spec.locks;
    Locked(s.db.objects, s.workers[w].snap.datasets, locks, |locks|)
  }

  /** The files of the merged datasets that have been dropped while they were being merged. */
  function Resurrected(db: Db, hs: seq<Handle>): seq<Bytes> {
    if |hs| < 2 then [] else GoneFiles(db, hs, |hs|)
  }

  /** What the changes of a compaction do to the files of the working datasets. */
  lemma CompactedExactly(db: Db, snap: Snapshot, spec: TaskSpec, changes: seq<Change>)
    requires DbOk(db) && Compacted(db, snap, spec.locks, changes) && LocksFit(spec) && spec.command.Compact?
    requires changes != [] ==> Unloaded(db, (changes[|changes| - 1]).name)
    ensures var db', hs := ApplyAll(db, changes, |changes|), Locked(db.objects, snap.datasets, spec.locks, |spec.locks|).value;
      Bag(db'.objects, db'.working) == Bag(db.objects, db.working) + multiset(Resurrected(db, hs))
  {
    var hs := Locked(db.objects, snap.datasets, spec.locks, |spec.locks|).value;
    if |hs| >= 2 {
      MergedDistinct(db, snap, spec);
      var insert := changes[|changes| - 1];
      DropsAt(db.objects, hs, |hs|, 0);
      assert changes == Drops(db.objects, hs, |hs|) + [insert];
      MergeApplied(db, hs, changes, insert.name);
    }
  }

  lemma MergedDistinct(db: Db, snap: Snapshot, spec: TaskSpec)
    requires Locked(db.objects, snap.datasets, spec.locks, |spec.locks|).Some? && LocksFit(spec) && spec.command.Compact?
    ensures var hs := Locked(db.objects, snap.datasets, spec.locks, |spec.locks|).value;
      NoRepeats(hs) && forall h :: h in hs ==> h in db.objects
  {
    var ids :| spec.locks == DatasetLocks(ids) && Distinct(ids);
    LockedDistinct(db.objects, snap.datasets, ids);
  }

  lemma MergeApplied(db: Db, hs: seq<Handle>, changes: seq<Change>, name: string)
    requires DbOk(db) && NoRepeats(hs) && forall h :: h in hs ==> h in db.objects
    requires |Drops(db.objects, hs, |hs|)| == |hs| && changes == Drops(db.objects, hs, |hs|) + [Insert(name)]
    requires name in db.disk && db.disk[name].files == FilesOf(db.objects, hs, |hs|)
    ensures var db' := ApplyAll(db, changes, |changes|);
      Bag(db'.objects, db'.working) == Bag(db.objects, db.working) + multiset(GoneFiles(db, hs, |hs|))
  {
    assert changes[..|hs|] == Drops(db.objects, hs, |hs|);
    DropsApplied(db, hs, changes, |hs|);
    var db' := ApplyAll(db, changes, |hs|);
    assert DroppedParts(db, hs, |hs|, db');
    InsertMerged(db, db', hs, name);
    assert ApplyAll(db, changes, |hs| + 1) == Apply(db', changes[|hs|]) == LoadDataset(db', name);
  }

  lemma InsertMerged(db: Db, db': Db, hs: seq<Handle>, name: string)
    requires DbOk(db) && DroppedUpTo(db, hs, |hs|, db') && name in db.disk && name in db'.disk
    requires db.disk[name].files == FilesOf(db.objects, hs, |hs|)
    ensures var db'' := LoadDataset(db', name);
      Bag(db''.objects, db''.working) == Bag(db.objects, db.working) + multiset(GoneFiles(db, hs, |hs|))
  {
    var db'' := LoadDataset(db', name);
    assert DroppedParts(db, hs, |hs|, db');
    assert DbParts(db');
    assert db'.next !in db'.objects;
    FilesStay(db'.objects, db''.objects, db'.working, |db'.working|);
    BagMore(db''.objects, db'.working, db'.next);
  }

  /**
   * The commit of a compaction loses no file, and adds exactly the files of the merged datasets that
   * were explicitly dropped meanwhile: those come back in the merged dataset.
   */
  lemma CompactionExactly(s: Sys, w: string)
    requires Inv(s) && Finished(s, w) && s.workers[w].task.value.phase.ok && Compacts(s, w)
    ensures Merged(s, w).Some?
    ensures var db', back := ResponseStep(s, w).db, Resurrected(s.db, Merged(s, w).value);
      && Bag(db'.objects, db'.working) == Bag(s.db.objects, s.db.working) + multiset(back)
      && (Bag(db'.objects, db'.working) == Bag(s.db.objects, s.db.working) <==> back == [])
  {
    var t, snap := s.workers[w].task.value, s.workers[w].snap;
    assert TaskOk(s.db, t, snap);
    CommittedOk(s, w);
    InsertIsUnloaded(s.db, t);
    CompactedExactly(s.db, snap, t.spec, t.phase.changes);
    HeldExist(s, w);
    CollectSameFiles(Committed(s, w), HeldWithout(s, w));
    NothingAdded(Bag(s.db.objects, s.db.working), Resurrected(s.db, Merged(s, w).value));
  }

  lemma NothingAdded(a: multiset<Bytes>, more: seq<Bytes>)
    ensures a + multiset(more) == a <==> more == []
  {
    if more != [] {
      assert (a + multiset(more))[more[0]] > a[more[0]];
    }
  }

  lemma {:induction false} NothingGone(db: Db, hs: seq<Handle>, n: nat)
    requires n <= |hs| && forall h :: h in hs ==> h in db.working
    ensures GoneFiles(db, hs, n) == []
  {
    if n > 0 {
      NothingGone(db, hs, n - 1);
    }
  }

  lemma InsertIsUnloaded(db: Db, t: Task)
    requires t.phase.Done? && CanApply(AuthorityOf(t), db, t.phase.changes)
    ensures var cs := t.phase.changes; cs != [] && cs[|cs| - 1].Insert? ==> Unloaded(db, cs[|cs| - 1].name)
  {
    var cs := t.phase.changes;
    if cs != [] {
      assert Permits(AuthorityOf(t), cs[|cs| - 1]);
    }
  }

  lemma CollectSameFiles(db: Db, held: set<Handle>)
    requires DbOk(db) && forall h :: h in held ==> h in db.objects
    ensures var db' := Collect(db, held); Bag(db'.objects, db'.working) == Bag(db.objects, db.working)
  {
    assert DbParts(db);
    CollectExactly(db, held);
    CollectKept(db, held);
    FilesStay(db.objects, Collect(db, held).objects, db.working, |db.working|);
  }

  // ----- compaction in runs -----

  ghost predicate Compacts(s: Sys, w: string) {
    Busy(s, w) && s.workers[w].task.value.spec.command.Compact?
  }

  /** All datasets that compactions have locked are in use. */
  ghost predicate LockedWork(s: Sys) {
    forall w :: Compacts(s, w) ==> Merged(s, w).Some? && forall h :: h in Merged(s, w).value ==> h in s.db.working
  }

  /** The step commits an explicit drop that names a dataset which a compaction has locked. */
  ghost predicate DropsLocked(s: Sys, s': Sys) {
    exists w, v, h :: DropsLockedOf(s, s', w, v, h)
  }

  ghost predicate DropsLockedOf(s: Sys, s': Sys, w: string, v: string, h: Handle) {
    && Finished(s, w) && s' == ResponseStep(s, w) && s.workers[w].task.value.spec.command.DropDataset?
    && Compacts(s, v) && Merged(s, v).Some? && h in Merged(s, v).value && h in s.db.objects
    && s.db.objects[h].IsCalled(s.workers[w].task.value.spec.command.dataset)
  }

  lemma {:induction false} LockedAll(objects: map<Handle, Dataset>, hs: seq<Handle>, ids: seq<string>, n: nat)
    requires n <= |ids| && forall i :: 0 <= i < |ids| ==> FindId(objects, hs, |hs|, ids[i]).Some?
    ensures Locked(objects, hs, DatasetLocks(ids), n).Some?
  {
    if n > 0 {
      LockedAll(objects, hs, ids, n - 1);
      assert DatasetLocks(ids)[n - 1] == DatasetLock(ids[n - 1]);
    }
  }

  /** The merged datasets of a compaction stay the same while it runs. */
  lemma MergedStays(s: Sys, s': Sys, w: string)
    requires Inv(s) && Compacts(s, w) && Compacts(s', w) && s'.workers[w].snap == s.workers[w].snap
    requires s'.workers[w].task.value.spec == s.workers[w].task.value.spec
    requires SameSets(s.db.objects, s'.db.objects, s.workers[w].snap.datasets)
    ensures Merged(s', w) == Merged(s, w)
  {
    var locks := s.workers[w].task.value.spec.locks;
    LockedStays(s.db.objects, s'.db.objects, s.workers[w].snap.datasets, locks, |locks|);
  }

  lemma SnapSame(s: Sys, s': Sys, w: string)
    requires Inv(s) && Busy(s, w) && s'.db.objects == s.db.objects
    ensures SameSets(s.db.objects, s'.db.objects, s.workers[w].snap.datasets)
  {
    assert TaskOk(s.db, s.workers[w].task.value, s.workers[w].snap);
  }

  lemma ReadyLockedWork(s: Sys, w: string)
    requires Inv(s) && LockedWork(s) && w in s.workers && !s.workers[w].started
    ensures LockedWork(ReadyStep(s, w))
  {
    var s' := ReadyStep(s, w);
    forall v | Compacts(s', v)
      ensures Merged(s', v).Some? && forall h :: h in Merged(s', v).value ==> h in s'.db.working
    {
      assert Compacts(s, v);
      SnapSame(s, s', v);
      MergedStays(s, s', v);
    }
  }

  lemma WorkLockedWork(s: Sys, s': Sys, w: string, ok: bool, changes: seq<Change>, reply: seq<Bytes>)
    requires Inv(s) && LockedWork(s) && WorksBy(s, s', w, ok, changes, reply)
    ensures LockedWork(s')
  {
    forall v | Compacts(s', v)
      ensures Merged(s', v).Some? && forall h :: h in Merged(s', v).value ==> h in s'.db.working
    {
      assert Compacts(s, v);
      SnapSame(s, s', v);
      MergedStays(s, s', v);
    }
  }

  lemma RequestLockedWork(s: Sys, c: Command, candidates: seq<string>)
    requires Inv(s) && LockedWork(s) && s.queue != [] && s.queue[0] in s.workers
    requires c.Compact? ==> Chosen(s.db, c.smart, candidates)
    ensures LockedWork(RequestStep(s, c, candidates))
  {
    var s', w := RequestStep(s, c, candidates), s.queue[0];
    if s' != s {
      forall v | Compacts(s', v)
        ensures Merged(s', v).Some? && forall h :: h in Merged(s', v).value ==> h in s'.db.working
      {
        if v == w {
          NewLockedWork(s.db, c.smart, candidates);
        } else {
          assert Compacts(s, v);
          SnapSame(s, s', v);
          MergedStays(s, s', v);
        }
      }
    }
  }

  lemma NewLockedWork(db: Db, smart: bool, ids: seq<string>)
    requires DbOk(db) && Chosen(db, smart, ids)
    ensures var r := Locked(db.objects, db.working, DatasetLocks(ids), |ids|);
      r.Some? && forall h :: h in r.value ==> h in db.working
  {
    ChosenIsGood(db, smart, ids);
    forall i | 0 <= i < |ids| ensures FindId(db.objects, db.working, |db.working|, ids[i]).Some? {
      assert GoodCandidate(db, ids[i]);
    }
    LockedAll(db.objects, db.working, ids, |ids|);
    LockedFrom(db.objects, db.working, DatasetLocks(ids), |ids|);
  }

  lemma ResponseLockedWork(s: Sys, w: string)
    requires Inv(s) && LockedWork(s) && Finished(s, w) && !DropsLocked(s, ResponseStep(s, w))
    ensures LockedWork(ResponseStep(s, w))
  {
    var s' := ResponseStep(s, w);
    forall v | Compacts(s', v)
      ensures Merged(s', v).Some? && forall h :: h in Merged(s', v).value ==> h in s'.db.working
    {
      assert v != w && Compacts(s, v);
      ResponseSameSets(s, w, v);
      MergedStays(s, s', v);
      forall h | h in Merged(s, v).value ensures h in s'.db.working {
        MergedStaysWorking(s, w, v, h);
      }
    }
  }

  lemma ResponseSameSets(s: Sys, w: string, v: string)
    requires Inv(s) && Finished(s, w) && Busy(s, v) && v != w
    ensures SameSets(s.db.objects, ResponseStep(s, w).db.objects, s.workers[v].snap.datasets)
  {
    var t := s.workers[w].task.value;
    assert TaskOk(s.db, s.workers[v].task.value, s.workers[v].snap);
    CommittedOk(s, w);
    assert EvolvesParts(AuthorityOf(t), s.db, ApplyAll(s.db, t.phase.changes, |t.phase.changes|));
    HeldExist(s, w);
    CollectExactly(Committed(s, w), HeldWithout(s, w));
    CollectKept(Committed(s, w), HeldWithout(s, w));
    assert forall h :: h in s.workers[v].snap.datasets ==> h in HeldWithout(s, w);
  }

  lemma MergedStaysWorking(s: Sys, w: string, v: string, h: Handle)
    requires Inv(s) && Finished(s, w) && Compacts(s, v) && v != w && !DropsLocked(s, ResponseStep(s, w))
    requires Merged(s, v).Some? && h in Merged(s, v).value && h in s.db.working
    ensures h in ResponseStep(s, w).db.working
  {
    var locks := s.workers[v].task.value.spec.locks;
    LockedHasLock(s.db.objects, s.workers[v].snap.datasets, locks, |locks|, h);
    if h !in ResponseStep(s, w).db.working {
      CommitDrops(s, w, h);
      OwnLocks(s, w, v);
      assert DropsLockedOf(s, ResponseStep(s, w), w, v, h);
    }
  }

  /** Without such drops, no step takes a dataset away from a compaction. */
  lemma LockedWorkKeeps(s: Sys, s': Sys)
    requires Inv(s) && LockedWork(s) && Step(s, s') && !DropsLocked(s, s')
    ensures LockedWork(s')
  {
    if IsReady(s, s') {
      var w :| w in s.workers && !s.workers[w].started && s' == ReadyStep(s, w);
      ReadyLockedWork(s, w);
    } else if IsRequest(s, s') {
      var c: Command, candidates: seq<string> :|
        (c.Compact? ==> Chosen(s.db, c.smart, candidates)) && s' == RequestStep(s, c, candidates);
      RequestLockedWork(s, c, candidates);
    } else if IsWork(s, s') {
      var w, ok, changes, reply :| WorksBy(s, s', w, ok, changes, reply);
      WorkLockedWork(s, s', w, ok, changes, reply);
    } else {
      var w :| Finished(s, w) && s' == ResponseStep(s, w);
      ResponseLockedWork(s, w);
    }
  }

  /** No step of the run commits a drop of a dataset that a compaction has locked. */
  ghost predicate NoLockedDrops(run: seq<Sys>) {
    forall i :: 0 <= i < |run| - 1 ==> !DropsLocked(run[i], run[i + 1])
  }

  lemma {:induction false} RunKeepsLockedWork(run: seq<Sys>, i: nat)
    requires i < |run| && IsRun(run) && Initial(run[0]) && NoLockedDrops(run)
    ensures Inv(run[i]) && LockedWork(run[i])
  {
    InitialHolds(run[0]);
    RunKeeps(run, i);
    if i > 0 {
      RunKeepsLockedWork(run, i - 1);
      assert Step(run[i - 1], run[i - 1 + 1]) && !DropsLocked(run[i - 1], run[i - 1 + 1]);
      LockedWorkKeeps(run[i - 1], run[i]);
    }
  }

  /**
   * Compaction neither loses nor duplicates a file: in every run from the start in which nobody
   * explicitly drops a dataset while it is being compacted, the names of the files of all working
   * datasets together are the same before and after the commit of each compaction.
   */
  lemma CompactionsConserve(run: seq<Sys>, i: nat, w: string)
    requires i < |run| - 1 && IsRun(run) && Initial(run[0]) && NoLockedDrops(run)
    requires Finished(run[i], w) && Compacts(run[i], w) && run[i + 1] == ResponseStep(run[i], w)
    ensures Bag(run[i + 1].db.objects, run[i + 1].db.working) == Bag(run[i].db.objects, run[i].db.working)
  {
    RunKeepsLockedWork(run, i);
    if run[i].workers[w].task.value.phase.ok {
      CompactionExactly(run[i], w);
      NothingGone(run[i].db, Merged(run[i], w).value, |Merged(run[i], w).value|);
    } else {
      FailureConserves(run[i], w);
    }
  }

  /** The commit of a task that asks for nothing conserves the files. */
  lemma FailureConserves(s: Sys, w: string)
    requires Inv(s) && Finished(s, w) && !s.workers[w].task.value.phase.ok
    ensures var db' := ResponseStep(s, w).db; Bag(db'.objects, db'.working) == Bag(s.db.objects, s.db.working)
  {
    assert TaskOk(s.db, s.workers[w].task.value, s.workers[w].snap);
    CommittedOk(s, w);
    HeldExist(s, w);
    CollectSameFiles(Committed(s, w), HeldWithout(s, w));
  }
}
