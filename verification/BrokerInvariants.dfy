/** What every step of the broker keeps. */
module BrokerInvariants {
  import opened Core
  import opened OnDiskFileIndexes
  import opened OnDiskIterators
  import opened DatabaseStates
  import opened Broker

  // ----- the invariant -----

  /** The queue holds, without repeats, exactly the workers that have reported and have no task. */
  ghost predicate QueueOk(s: Sys) {
    && (forall i, j :: 0 <= i < j < |s.queue| ==> s.queue[i] != s.queue[j])
    && (forall w :: w in s.queue <==> w in s.workers && s.workers[w].started && s.workers[w].task.None?)
    && (forall w :: w in s.workers && s.workers[w].task.Some? ==> s.workers[w].started)
  }

  /** Tasks and busy workers match one to one. */
  ghost predicate OwnerOk(s: Sys) {
    && s.owner.Keys == s.db.tasks.Keys
    && (forall k :: k in s.owner ==>
          s.owner[k] in s.workers && s.workers[s.owner[k]].task.Some? && s.workers[s.owner[k]].task.value.spec == s.db.tasks[k])
    && (forall w :: w in s.workers && s.workers[w].task.Some? ==>
          s.workers[w].task.value.spec.id in s.owner && s.owner[s.workers[w].task.value.spec.id] == w)
  }

  /** No two tasks share a lock. */
  ghost predicate LocksOk(db: Db) {
    forall j, k, l :: j in db.tasks && k in db.tasks && j != k && l in db.tasks[j].locks ==> l !in db.tasks[k].locks
  }

  function InsertedNames(changes: seq<Change>): set<string> {
    set c | c in changes && c.Insert? :: c.name
  }

  function NewIds(changes: seq<Change>): set<string> {
    set c | c in changes && c.NewIterator? :: IdOf(c.name)
  }

  /** What a finished task may change: nothing if it asks for nothing. */
  function AuthorityOf(t: Task): Authority {
    if !t.phase.Done? || t.phase.changes == [] then Authority([], {}, {}, {})
    else Authority(t.spec.locks,
      if t.spec.command.DropDataset? then {t.spec.command.dataset} else {},
      InsertedNames(t.phase.changes), NewIds(t.phase.changes))
  }

  /** Result lists that are about to be loaded are there, unread, and their ids are not in use. */
  ghost predicate PendingLists(db: Db, changes: seq<Change>) {
    forall n :: NewIterator(n) in changes ==> n in db.stored && IdOf(n) !in db.iterators && AtStart(db.stored[n])
  }

  /** The changes of a successful task are those of its kind, for the database as it is now. */
  ghost predicate Exact(db: Db, spec: TaskSpec, snap: Snapshot, changes: seq<Change>, reply: seq<Bytes>) {
    match spec.command
    case ReadOnly => changes == []
    case SelectInto => exists name :: changes == [NewIterator(name)]
    case Index(_) => OnlyCreates(changes) && NoIterators(changes)
    case Reindex(dataset) =>
      && changes != [] && changes[|changes| - 1] == Drop(dataset) && OnlyCreates(changes[..|changes| - 1])
      && OtherIds(changes, dataset) && '.' !in dataset && NoIterators(changes)
    case DropDataset(dataset) => changes == [Drop(dataset)]
    case Pop(id, count) => id in snap.iterators && IteratorLock(id) in spec.locks && Popped(snap.iterators[id], count, changes, reply)
    case Compact(_) => Compacted(db, snap, spec.locks, changes) && NoIterators(changes)
    case Taint(dataset, taint, mode) =>
      var h := FindId(db.objects, snap.datasets, |snap.datasets|, dataset);
      && h.Some? && DatasetLock(dataset) in spec.locks && NoIterators(changes)
      && changes == TaintChanges(db.objects[h.value].taints, dataset, taint, mode)
  }

  predicate OnlyCreates(changes: seq<Change>) {
    forall i :: 0 <= i < |changes| ==> changes[i].Insert? || changes[i].ToggleTaint?
  }

  /** No dataset that is inserted has the id. */
  predicate OtherIds(changes: seq<Change>, id: string) {
    forall i :: 0 <= i < |changes| && changes[i].Insert? ==> IdOf(changes[i].name) != id
  }

  ghost predicate NoIterators(changes: seq<Change>) {
    forall c :: c in changes ==> !c.NewIterator? && !c.UpdateIterator?
  }

  /** The datasets a task may still read exist. */
  ghost predicate SnapOk(db: Db, snap: Snapshot) {
    forall h :: h in snap.datasets ==> h in db.objects
  }

  /** A locked iterator is as its task saw it. */
  ghost predicate LockedItersOk(db: Db, t: Task, snap: Snapshot) {
    forall i :: i in snap.iterators && IteratorLock(i) in t.spec.locks ==>
      i in db.iterators && db.iterators[i] == snap.iterators[i]
  }

  ghost predicate DoneOk(db: Db, t: Task, snap: Snapshot) {
    t.phase.Done? ==>
      && CanApply(AuthorityOf(t), db, t.phase.changes)
      && PendingLists(db, t.phase.changes)
      && (if t.phase.ok then Exact(db, t.spec, snap, t.phase.changes, t.phase.reply) else t.phase.changes == [])
  }

  /** Only a pop locks an iterator, namely its own. */
  ghost predicate LockKindsOk(spec: TaskSpec) {
    forall i :: IteratorLock(i) in spec.locks ==> spec.command.Pop? && spec.command.id == i
  }

  predicate Distinct(ids: seq<string>) {
    forall i, j :: 0 <= i < j < |ids| ==> ids[i] != ids[j]
  }

  /** The locks of a task are those of its command. */
  ghost predicate LocksFit(spec: TaskSpec) {
    exists candidates :: spec.locks == LocksOf(spec.command, candidates) && (spec.command.Compact? ==> Distinct(candidates))
  }

  ghost predicate TaskOk(db: Db, t: Task, snap: Snapshot) {
    SnapOk(db, snap) && LockKindsOk(t.spec) && LocksFit(t.spec) && LockedItersOk(db, t, snap) && DoneOk(db, t, snap)
  }

  /** Two tasks bring different names. */
  ghost predicate Apart(t: Task, u: Task) {
    AuthorityOf(t).names !! AuthorityOf(u).names && AuthorityOf(t).iters !! AuthorityOf(u).iters
  }

  ghost predicate AllTasksOk(s: Sys) {
    forall w :: w in s.workers && s.workers[w].task.Some? ==> TaskOk(s.db, s.workers[w].task.value, s.workers[w].snap)
  }

  ghost predicate AllApart(s: Sys) {
    forall v, w :: v in s.workers && w in s.workers && v != w && s.workers[v].task.Some? && s.workers[w].task.Some? ==>
      Apart(s.workers[v].task.value, s.workers[w].task.value)
  }

  function Delivered(delivered: map<string, seq<Bytes>>, i: string): seq<Bytes> {
    if i in delivered then delivered[i] else []
  }

  /** What was delivered is a prefix of the list, and the stored position is where it ends. */
  ghost predicate IterGood(it: Iter, got: seq<Bytes>) {
    && OneLiners(it.names) && it.fileOffset <= |it.names| && got == it.names[..it.fileOffset]
    && it.byteOffset == NameStart(it.names, it.fileOffset)
  }

  ghost predicate DeliveredOk(db: Db, delivered: map<string, seq<Bytes>>) {
    forall i :: i in db.iterators ==> IterGood(db.iterators[i], Delivered(delivered, i))
  }

  ghost predicate Inv(s: Sys) {
    && DbOk(s.db) && QueueOk(s) && OwnerOk(s) && LocksOk(s.db) && AllTasksOk(s) && AllApart(s)
    && DeliveredOk(s.db, s.delivered)
  }

  // ----- nothing a task relies on is changed by another -----

  /** The authority of another task: no lock and no new name in common. */
  ghost predicate Foreign(a: Authority, t: Task) {
    && (forall l :: l in t.spec.locks ==> l !in a.locks)
    && a.names !! AuthorityOf(t).names && a.iters !! AuthorityOf(t).iters
  }

  lemma {:induction false} FindIdStays(objects: map<Handle, Dataset>, objects': map<Handle, Dataset>, hs: seq<Handle>, n: nat, id: string)
    requires n <= |hs|
    requires forall h :: h in hs ==> h in objects && h in objects' && objects'[h].name == objects[h].name
    ensures FindId(objects, hs, n, id) == FindId(objects', hs, n, id)
  {
    if n > 0 {
      FindIdStays(objects, objects', hs, n - 1, id);
    }
  }

  /** Datasets keep their names and files. */
  ghost predicate SameSets(objects: map<Handle, Dataset>, objects': map<Handle, Dataset>, hs: seq<Handle>) {
    forall h :: h in hs ==>
      h in objects && h in objects' && objects'[h].name == objects[h].name && objects'[h].files == objects[h].files
  }

  lemma {:induction false} LockedStays(objects: map<Handle, Dataset>, objects': map<Handle, Dataset>, hs: seq<Handle>, locks: seq<Lock>, n: nat)
    requires n <= |locks| && SameSets(objects, objects', hs)
    ensures Locked(objects, hs, locks, n) == Locked(objects', hs, locks, n)
  {
    if n > 0 {
      LockedStays(objects, objects', hs, locks, n - 1);
      FindIdStays(objects, objects', hs, |hs|, locks[n - 1].target);
    }
  }

  lemma {:induction false} LockedFrom(objects: map<Handle, Dataset>, hs: seq<Handle>, locks: seq<Lock>, n: nat)
    requires n <= |locks| && Locked(objects, hs, locks, n).Some?
    ensures forall h :: h in Locked(objects, hs, locks, n).value ==> h in hs && h in objects
  {
    if n > 0 {
      LockedFrom(objects, hs, locks, n - 1);
    }
  }

  lemma {:induction false} FilesStay(objects: map<Handle, Dataset>, objects': map<Handle, Dataset>, hs: seq<Handle>, n: nat)
    requires n <= |hs| && SameSets(objects, objects', hs)
    ensures FilesOf(objects, hs, n) == FilesOf(objects', hs, n) && Drops(objects, hs, n) == Drops(objects', hs, n)
  {
    if n > 0 {
      FilesStay(objects, objects', hs, n - 1);
    }
  }

  lemma {:induction false} LockedHasLock(objects: map<Handle, Dataset>, hs: seq<Handle>, locks: seq<Lock>, n: nat, h: Handle)
    requires n <= |locks| && Locked(objects, hs, locks, n).Some? && h in Locked(objects, hs, locks, n).value
    ensures h in hs && h in objects && DatasetLock(objects[h].Id()) in locks
  {
    var init := Locked(objects, hs, locks, n - 1);
    if h in init.value {
      LockedHasLock(objects, hs, locks, n - 1, h);
    } else {
      assert locks[n - 1] == DatasetLock(objects[h].Id());
    }
  }

  /** The locked datasets keep their taints and types. */
  ghost predicate LockedSame(db: Db, db': Db, snap: Snapshot, locks: seq<Lock>) {
    forall h :: h in snap.datasets && h in db.objects && DatasetLock(db.objects[h].Id()) in locks ==>
      h in db'.objects && db'.objects[h].taints == db.objects[h].taints && db'.objects[h].types == db.objects[h].types
  }

  lemma InheritsStays(db: Db, db': Db, snap: Snapshot, locks: seq<Lock>, d: Dataset)
    requires Locked(db.objects, snap.datasets, locks, |locks|).Some? && LockedSame(db, db', snap, locks)
    requires Inherits(db.objects, Locked(db.objects, snap.datasets, locks, |locks|).value, d)
    ensures Inherits(db'.objects, Locked(db.objects, snap.datasets, locks, |locks|).value, d)
  {
    forall h | h in Locked(db.objects, snap.datasets, locks, |locks|).value
      ensures h in db'.objects && db'.objects[h].taints == d.taints && db'.objects[h].types == d.types
    {
      LockedHasLock(db.objects, snap.datasets, locks, |locks|, h);
    }
  }

  lemma CompactedStays(db: Db, db': Db, snap: Snapshot, locks: seq<Lock>, changes: seq<Change>)
    requires Compacted(db, snap, locks, changes) && SameSets(db.objects, db'.objects, snap.datasets)
    requires forall n :: Insert(n) in changes && n in db.disk ==> n in db'.disk && db'.disk[n] == db.disk[n]
    requires LockedSame(db, db', snap, locks)
    ensures Compacted(db', snap, locks, changes)
  {
    var hs := Locked(db.objects, snap.datasets, locks, |locks|).value;
    LockedStays(db.objects, db'.objects, snap.datasets, locks, |locks|);
    LockedFrom(db.objects, snap.datasets, locks, |locks|);
    FilesStay(db.objects, db'.objects, hs, |hs|);
    if |hs| >= 2 {
      assert changes[|changes| - 1] in changes;
      InheritsStays(db, db', snap, locks, db.disk[changes[|changes| - 1].name]);
    }
  }

  lemma ExactStays(a: Authority, db: Db, db': Db, t: Task, snap: Snapshot)
    requires DbOk(db) && EvolvesParts(a, db, db') && TaskOk(db, t, snap) && Foreign(a, t)
    requires t.phase.Done? && t.phase.ok && (forall n :: n in a.names ==> Unloaded(db, n))
    ensures Exact(db', t.spec, snap, t.phase.changes, t.phase.reply)
  {
    assert SameSets(db.objects, db'.objects, snap.datasets);
    if t.spec.command.Compact? {
      BroughtStay(a, db, db', t);
      LockedStaySame(a, db, db', t, snap);
      CompactedStays(db, db', snap, t.spec.locks, t.phase.changes);
    } else if t.spec.command.Taint? {
      var id := t.spec.command.dataset;
      FindIdStays(db.objects, db'.objects, snap.datasets, |snap.datasets|, id);
      var h := FindId(db.objects, snap.datasets, |snap.datasets|, id).value;
      assert !a.MayTaint(db.objects[h]);
    }
  }

  /** The datasets that a task brings are not touched by another. */
  lemma BroughtStay(a: Authority, db: Db, db': Db, t: Task)
    requires EvolvesParts(a, db, db') && Foreign(a, t) && t.phase.Done? && CanApply(AuthorityOf(t), db, t.phase.changes)
    ensures forall n :: Insert(n) in t.phase.changes && n in db.disk ==> n in db'.disk && db'.disk[n] == db.disk[n]
  {
    forall n | Insert(n) in t.phase.changes && n in db.disk ensures n in db'.disk && db'.disk[n] == db.disk[n] {
      assert n in InsertedNames(t.phase.changes);
      assert n in AuthorityOf(t).names;
    }
  }

  lemma LockedStaySame(a: Authority, db: Db, db': Db, t: Task, snap: Snapshot)
    requires EvolvesParts(a, db, db') && Foreign(a, t) && forall n :: n in a.names ==> Unloaded(db, n)
    ensures LockedSame(db, db', snap, t.spec.locks)
  {
    forall h | h in snap.datasets && h in db.objects && DatasetLock(db.objects[h].Id()) in t.spec.locks
      ensures h in db'.objects && db'.objects[h].taints == db.objects[h].taints && db'.objects[h].types == db.objects[h].types
    {
      assert !a.MayTaint(db.objects[h]);
    }
  }

  /** A commit of another task leaves a task sound. */
  lemma TaskStays(a: Authority, db: Db, db': Db, t: Task, snap: Snapshot)
    requires DbOk(db) && DbOk(db') && Evolves(a, db, db') && TaskOk(db, t, snap) && Foreign(a, t)
    requires forall n :: n in a.names ==> Unloaded(db, n)
    requires forall i :: IteratorLock(i) in a.locks ==> i in db.iterators
    ensures TaskOk(db', t, snap)
  {
    assert EvolvesParts(a, db, db');
    assert SnapOk(db', snap);
    assert LockedItersOk(db', t, snap);
    if t.phase.Done? {
      CanApplyStays(a, db, db', t, snap);
      PendingStay(a, db, db', t, snap);
      if t.phase.ok {
        ExactStays(a, db, db', t, snap);
      }
    }
  }

  lemma CanApplyStays(a: Authority, db: Db, db': Db, t: Task, snap: Snapshot)
    requires EvolvesParts(a, db, db') && Foreign(a, t) && t.phase.Done?
    requires CanApply(AuthorityOf(t), db, t.phase.changes)
    ensures CanApply(AuthorityOf(t), db', t.phase.changes)
  {
    forall n | n in AuthorityOf(t).names ensures n in db'.disk && Unloaded(db', n) {
      assert n in db.disk && Unloaded(db, n);
      assert db'.disk.Keys == db.disk.Keys;
      forall h | h in db'.objects ensures db'.objects[h].name != n {
        assert h in db.objects ==> db'.objects[h].name == db.objects[h].name;
      }
    }
  }

  lemma PendingStay(a: Authority, db: Db, db': Db, t: Task, snap: Snapshot)
    requires DbOk(db) && EvolvesParts(a, db, db') && Foreign(a, t) && t.phase.Done?
    requires PendingLists(db, t.phase.changes)
    requires forall i :: IteratorLock(i) in a.locks ==> i in db.iterators
    ensures PendingLists(db', t.phase.changes)
  {
    forall n | NewIterator(n) in t.phase.changes
      ensures n in db'.stored && IdOf(n) !in db'.iterators && AtStart(db'.stored[n])
    {
      assert IdOf(n) in NewIds(t.phase.changes);
    }
  }
}
