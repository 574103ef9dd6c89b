/** How a worker executes the commands that touch locked datasets and iterators. */
module Daemon {
  import opened Core
  import opened OnDiskFileIndexes
  import opened OnDiskIterators
  import opened DatabaseStates
  import opened Broker
  import opened BrokerInvariants
  import opened Databases

  lemma UnchangedGrows(db: Db)
    requires DbOk(db)
    ensures DiskGrows(db, db)
  {
    assert DbParts(db);
  }

  /** `find_dataset`: the first dataset of the snapshot with the id. */
  method FindDataset(objects: map<Handle, Dataset>, datasets: seq<Handle>, id: string) returns (r: Option<Handle>)
    requires forall h :: h in datasets ==> h in objects
    ensures r == FindId(objects, datasets, |datasets|, id)
  {
    for i := 0 to |datasets|
      invariant FindId(objects, datasets, i, id) == None
    {
      if objects[datasets[i]].Id() == id {
        FoundFirst(objects, datasets, i, id);
        return Some(datasets[i]);
      }
    }
    return None;
  }

  /** A taint command asks for a toggle if the dataset does not have the taint as requested. */
  method ExecuteTaint(db: Db, snap: Snapshot, spec: TaskSpec) returns (ok: bool, changes: seq<Change>)
    requires DbOk(db) && SnapOk(db, snap) && spec.command.Taint?
    ensures Outcome(db, spec, snap, db, ok, changes, [])
    ensures ok <==> FindId(db.objects, snap.datasets, |snap.datasets|, spec.command.dataset).Some?
    ensures ok ==>
      var h := FindId(db.objects, snap.datasets, |snap.datasets|, spec.command.dataset).value;
      changes == if (spec.command.taint in db.objects[h].taints) == (spec.command.mode == AddTaint) then []
                 else [ToggleTaint(spec.command.dataset, spec.command.taint)]
  {
    UnchangedGrows(db);
    var ds := FindDataset(db.objects, snap.datasets, spec.command.dataset);
    if ds.None? {
      return false, [];
    }
    var hasTaint := spec.command.taint in db.objects[ds.value].taints;
    var shouldHaveTaint := spec.command.mode == AddTaint;
    changes := [];
    if hasTaint != shouldHaveTaint {
      changes := changes + [ToggleTaint(spec.command.dataset, spec.command.taint)];
    }
    ok := true;
  }

  method ExecuteDrop(db: Db, snap: Snapshot, spec: TaskSpec) returns (ok: bool, changes: seq<Change>)
    requires DbOk(db) && spec.command.DropDataset?
    ensures ok && changes == [Drop(spec.command.dataset)] && Outcome(db, spec, snap, db, ok, changes, [])
  {
    UnchangedGrows(db);
    return true, [Drop(spec.command.dataset)];
  }

  /** `read_iterator`: reads on from a copy of the iterator, and asks for its new position to be stored. */
  method ExecutePop(db: Db, snap: Snapshot, spec: TaskSpec, ghost got: seq<Bytes>)
    returns (ok: bool, changes: seq<Change>, reply: seq<Bytes>)
    requires DbOk(db) && spec.command.Pop?
    requires spec.command.id in snap.iterators ==> IterGood(snap.iterators[spec.command.id], got)
    ensures Outcome(db, spec, snap, db, ok, changes, reply)
    ensures ok <==> spec.command.id in snap.iterators
  {
    UnchangedGrows(db);
    if spec.command.id !in snap.iterators {
      return false, [], [];
    }
    var it := snap.iterators[spec.command.id];
    var copy := new OnDiskIterator(NamesFile(it.names, |it.names|), |it.names|, it.byteOffset, it.fileOffset);
    reply := copy.PopNames(spec.command.count, it.names, it.fileOffset);
    changes := [UpdateIterator(it.name, copy.byteOffset, copy.fileOffset)];
    ok := true;
  }

  /** The datasets that a task has locked, or `None` if one of them is not in the snapshot. */
  method LockedDatasets(db: Db, snap: Snapshot, locks: seq<Lock>) returns (r: Option<seq<Handle>>)
    requires SnapOk(db, snap)
    ensures r == Locked(db.objects, snap.datasets, locks, |locks|)
  {
    var datasets: seq<Handle> := [];
    for i := 0 to |locks|
      invariant Locked(db.objects, snap.datasets, locks, i) == Some(datasets)
    {
      if locks[i].DatasetLock? {
        var ds := FindDataset(db.objects, snap.datasets, locks[i].target);
        if ds.None? {
          StaysNone(db.objects, snap.datasets, locks, i + 1, |locks|);
          return None;
        }
        datasets := datasets + [ds.value];
      }
    }
    r := Some(datasets);
  }

  lemma {:induction false} StaysNone(objects: map<Handle, Dataset>, hs: seq<Handle>, locks: seq<Lock>, m: nat, n: nat)
    requires m <= n <= |locks| && Locked(objects, hs, locks, m).None?
    ensures Locked(objects, hs, locks, n).None?
  {
    if m < n {
      StaysNone(objects, hs, locks, m, n - 1);
    }
  }

  /** A name that nobody uses: `allocate_name` finds one by trying. */
  ghost predicate FreshName(db: Db, name: string) {
    WellNamed(name) && name !in db.disk && forall n :: n in db.disk ==> IdOf(n) != IdOf(name)
  }

  method FilesOfAll(db: Db, hs: seq<Handle>) returns (files: seq<Bytes>, drops: seq<Change>)
    requires forall h :: h in hs ==> h in db.objects
    ensures files == FilesOf(db.objects, hs, |hs|) && drops == Drops(db.objects, hs, |hs|)
  {
    files, drops := [], [];
    for i := 0 to |hs|
      invariant files == FilesOf(db.objects, hs, i) && drops == Drops(db.objects, hs, i)
    {
      files := files + db.objects[hs[i]].files;
      drops := drops + [Drop(db.objects[hs[i]].Id())];
    }
  }

  /** The database after a worker has written a dataset under a new name. */
  function Written(db: Db, d: Dataset): Db {
    db.(disk := db.disk[d.name := d])
  }

  lemma WrittenGrows(db: Db, d: Dataset)
    requires DbOk(db) && FreshName(db, d.name)
    ensures DiskGrows(db, Written(db, d))
  {
    assert DbParts(db);
    NewOnDisk(db, d);
  }

  lemma NewOnDisk(db: Db, d: Dataset)
    requires DiskOk(db) && FreshName(db, d.name)
    ensures DiskOk(Written(db, d))
  {
    var disk := Written(db, d).disk;
    forall m, n | m in disk && n in disk && IdOf(m) == IdOf(n) ensures m == n {
      assert m != d.name ==> m in db.disk;
      assert n != d.name ==> n in db.disk;
    }
  }

  /** The checks of a merge: whether all datasets have the taints and the index types of the first. */
  method ChecksPass(db: Db, hs: seq<Handle>) returns (ok: bool)
    requires hs != [] && forall h :: h in hs ==> h in db.objects
    ensures ok <==> Alike(db.objects, hs)
  {
    for i := 1 to |hs|
      invariant forall j :: 0 <= j < i ==> SameClass(db.objects[hs[j]], db.objects[hs[0]])
    {
      if !SameClass(db.objects[hs[i]], db.objects[hs[0]]) {
        assert hs[i] in hs && hs[0] in hs;
        return false;
      }
    }
    ok := true;
  }

  predicate SameClass(d: Dataset, e: Dataset) {
    d.taints == e.taints && d.types == e.types
  }

  /**
   * `compact_locked_datasets`: merges the locked datasets into a new one, unless they are fewer than
   * two. It fails if one of them is not there, if their taints or types differ, or if a batch is too big.
   */
  method ExecuteCompact(db: Db, snap: Snapshot, spec: TaskSpec, name: string, bytes: nat, batchTooBig: bool)
    returns (db': Db, ok: bool, changes: seq<Change>)
    requires DbOk(db) && SnapOk(db, snap) && spec.command.Compact? && FreshName(db, name)
    ensures Outcome(db, spec, snap, db', ok, changes, [])
    ensures var hs := Locked(db.objects, snap.datasets, spec.locks, |spec.locks|);
      ok <==> hs.Some? && (|hs.value| < 2 || (Alike(db.objects, hs.value) && !batchTooBig))
    ensures var hs := Locked(db.objects, snap.datasets, spec.locks, |spec.locks|);
      ok && |hs.value| >= 2 ==>
        && name in db'.disk && db'.disk[name].files == FilesOf(db.objects, hs.value, |hs.value|)
        && forall h :: h in hs.value ==>
             h in db.objects && db'.disk[name].taints == db.objects[h].taints && db'.disk[name].types == db.objects[h].types
  {
    UnchangedGrows(db);
    db', changes := db, [];
    var datasets := LockedDatasets(db, snap, spec.locks);
    if datasets.None? {
      return db, false, [];
    }
    if |datasets.value| < 2 {
      return db, true, [];
    }
    LockedFrom(db.objects, snap.datasets, spec.locks, |spec.locks|);
    var same := ChecksPass(db, datasets.value);
    if !same || batchTooBig {
      return db, false, [];
    }
    db', changes := MergeLocked(db, snap, spec, datasets.value, name, bytes);
    ok := true;
  }

  /** Writes the merged dataset, and asks for it to replace the others. */
  method MergeLocked(db: Db, snap: Snapshot, spec: TaskSpec, hs: seq<Handle>, name: string, bytes: nat)
    returns (db': Db, changes: seq<Change>)
    requires DbOk(db) && SnapOk(db, snap) && spec.command.Compact? && FreshName(db, name)
    requires |hs| >= 2 && Locked(db.objects, snap.datasets, spec.locks, |spec.locks|) == Some(hs)
    requires Alike(db.objects, hs)
    ensures Outcome(db, spec, snap, db', true, changes, [])
    ensures name in db'.disk && db'.disk[name].files == FilesOf(db.objects, hs, |hs|)
    ensures forall h :: h in hs ==>
      h in db.objects && db'.disk[name].taints == db.objects[h].taints && db'.disk[name].types == db.objects[h].types
  {
    assert hs[0] in hs;
    var first := db.objects[hs[0]];
    var files, drops := FilesOfAll(db, hs);
    var merged := Dataset(name, files, first.taints, first.types, bytes);
    WrittenGrows(db, merged);
    changes := drops + [Insert(name)];
    OnlyThis(db, hs, name);
    db' := Written(db, merged);
  }

  lemma OnlyThis(db: Db, hs: seq<Handle>, name: string)
    ensures forall n :: Insert(n) in Drops(db.objects, hs, |hs|) + [Insert(name)] ==> n == name
  {
    NoInserts(db.objects, hs, |hs|);
  }

  lemma {:induction false} NoInserts(objects: map<Handle, Dataset>, hs: seq<Handle>, n: nat)
    requires n <= |hs|
    ensures forall c :: c in Drops(objects, hs, n) ==> c.Drop?
  {
    if n > 0 {
      NoInserts(objects, hs, n - 1);
    }
  }
}
