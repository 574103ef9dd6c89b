/** Every step of the broker keeps the invariant. */
module BrokerSteps {
  import opened Core
  import opened OnDiskFileIndexes
  import opened OnDiskIterators
  import opened DatabaseStates
  import opened Broker
  import opened BrokerInvariants

  // ----- a worker reports -----

  lemma ReadyKeeps(s: Sys, w: string)
    requires Inv(s) && w in s.workers && !s.workers[w].started
    ensures Inv(ReadyStep(s, w))
  {
    ReadyQueue(s, w);
    ReadyTasks(s, w);
  }

  lemma ReadyQueue(s: Sys, w: string)
    requires QueueOk(s) && OwnerOk(s) && w in s.workers && !s.workers[w].started
    ensures QueueOk(ReadyStep(s, w)) && OwnerOk(ReadyStep(s, w))
  {
    assert ReadyStep(s, w).workers.Keys == s.workers.Keys;
  }

  lemma ReadyTasks(s: Sys, w: string)
    requires AllTasksOk(s) && AllApart(s) && w in s.workers && !s.workers[w].started
    ensures AllTasksOk(ReadyStep(s, w)) && AllApart(ReadyStep(s, w))
  {
  }

  // ----- a request -----

  /** Only the allocated tasks change. */
  ghost predicate TasksOnly(db: Db, db': Db) {
    db' == db.(tasks := db'.tasks, lastTaskId := db'.lastTaskId)
  }

  lemma TasksOnlyKeeps(db: Db, db': Db, t: Task, snap: Snapshot)
    requires TasksOnly(db, db') && TaskOk(db, t, snap)
    ensures TaskOk(db', t, snap)
  {
    if t.phase.Done? {
      assert CanApply(AuthorityOf(t), db', t.phase.changes);
    }
  }

  lemma TasksOnlyOk(db: Db, db': Db)
    requires DbOk(db) && TasksOnly(db, db') && TasksOk(db')
    ensures DbOk(db')
  {
    assert DbParts(db);
    assert DbParts(db');
  }

  lemma RequestKeeps(s: Sys, c: Command, candidates: seq<string>)
    requires Inv(s) && s.queue != [] && (c.Compact? ==> Distinct(candidates))
    ensures s.queue[0] in s.workers
    ensures Inv(RequestStep(s, c, candidates))
  {
    assert s.queue[0] in s.queue;
    var locks := LocksOf(c, candidates);
    if CanAcquireAll(s.db, locks) {
      AcceptedDb(s, c, locks);
      AcceptedQueue(s, c, locks);
      AcceptedOwner(s, c, locks);
      NewTaskOk(s.db, c, candidates);
      AcceptedTasks(s, c, locks);
    }
  }

  lemma AcceptedDb(s: Sys, c: Command, locks: seq<Lock>)
    requires DbOk(s.db) && LocksOk(s.db) && CanAcquireAll(s.db, locks)
    ensures DbOk(Allocated(s.db, c, locks)) && LocksOk(Allocated(s.db, c, locks))
  {
    assert DbParts(s.db);
    assert TasksOk(Allocated(s.db, c, locks));
    TasksOnlyOk(s.db, Allocated(s.db, c, locks));
    forall k, l | k in s.db.tasks && l in locks ensures l !in s.db.tasks[k].locks {
      var i :| 0 <= i < |locks| && locks[i] == l;
      assert CanAcquire(s.db, locks[i]);
    }
  }

  lemma Dequeued(queue: seq<string>, w: string)
    requires queue != [] && forall i, j :: 0 <= i < j < |queue| ==> queue[i] != queue[j]
    ensures w in queue[1..] <==> w in queue && w != queue[0]
  {
    assert queue == [queue[0]] + queue[1..];
    if w in queue[1..] {
      var i :| 0 <= i < |queue| - 1 && queue[1..][i] == w;
      assert queue[i + 1] == w;
    }
  }

  lemma AcceptedQueue(s: Sys, c: Command, locks: seq<Lock>)
    requires QueueOk(s) && s.queue != [] && s.queue[0] in s.workers
    ensures QueueOk(Accepted(s, c, locks))
  {
    forall w ensures w in s.queue[1..] <==> w in s.queue && w != s.queue[0] {
      Dequeued(s.queue, w);
    }
    assert s.queue[0] in s.queue;
  }

  lemma AcceptedOwner(s: Sys, c: Command, locks: seq<Lock>)
    requires DbOk(s.db) && QueueOk(s) && OwnerOk(s) && s.queue != [] && s.queue[0] in s.workers
    ensures OwnerOk(Accepted(s, c, locks))
  {
    assert s.queue[0] in s.queue;
    NextIdIsNew(s.db);
  }

  lemma NextIdIsNew(db: Db)
    requires DbOk(db)
    ensures db.lastTaskId + 1 !in db.tasks
  {
    assert DbParts(db);
  }

  /** A task that has just been accepted. */
  lemma NewTaskOk(db: Db, c: Command, candidates: seq<string>)
    requires DbOk(db) && (c.Compact? ==> Distinct(candidates))
    ensures TaskOk(db, Task(TaskSpec(db.lastTaskId + 1, c, LocksOf(c, candidates)), Running), SnapshotOf(db))
  {
    assert DbParts(db);
  }

  lemma AcceptedTasks(s: Sys, c: Command, locks: seq<Lock>)
    requires AllTasksOk(s) && AllApart(s) && s.queue != [] && s.queue[0] in s.workers
    requires TaskOk(s.db, Task(TaskSpec(s.db.lastTaskId + 1, c, locks), Running), SnapshotOf(s.db))
    ensures AllTasksOk(Accepted(s, c, locks)) && AllApart(Accepted(s, c, locks))
  {
    var s' := Accepted(s, c, locks);
    forall v | v in s'.workers && s'.workers[v].task.Some?
      ensures TaskOk(s'.db, s'.workers[v].task.value, s'.workers[v].snap)
    {
      TasksOnlyKeeps(s.db, s'.db, s'.workers[v].task.value, s'.workers[v].snap);
    }
  }

  // ----- a worker finishes -----

  lemma GrowsOk(db: Db, db': Db)
    requires DbOk(db) && DiskGrows(db, db')
    ensures DbOk(db')
  {
    assert DbParts(db);
    assert ShadowOk(db');
    assert ItersOk(db');
    assert DbParts(db');
  }

  lemma GrowsKeeps(db: Db, db': Db, t: Task, snap: Snapshot)
    requires DbOk(db) && DiskGrows(db, db') && TaskOk(db, t, snap)
    ensures TaskOk(db', t, snap)
  {
    if t.phase.Done? {
      assert CanApply(AuthorityOf(t), db', t.phase.changes);
      assert PendingLists(db', t.phase.changes);
      if t.phase.ok && t.spec.command.Compact? {
        assert DbParts(db);
        assert SameSets(db.objects, db'.objects, snap.datasets);
        CompactedStays(db, db', snap, t.spec.locks, t.phase.changes);
      }
    }
  }

  /** The finished task. */
  function Finish(t: Task, ok: bool, changes: seq<Change>, reply: seq<Bytes>): Task {
    t.(phase := Done(ok, changes, reply))
  }

  lemma CreatedNames(db: Db, db': Db, changes: seq<Change>, a: Authority)
    requires DbOk(db) && Created(db, db', changes) && InsertedNames(changes) <= a.names
    ensures forall i :: 0 <= i < |changes| ==> Permits(a, changes[i])
    ensures forall n :: n in InsertedNames(changes) ==> n in db'.disk && n !in db.disk
    ensures NoIterators(changes)
  {
    forall n | n in InsertedNames(changes) ensures n in db'.disk && n !in db.disk {
      assert Insert(n) in changes;
      var i :| 0 <= i < |changes| && changes[i] == Insert(n);
    }
    forall i | 0 <= i < |changes| ensures Permits(a, changes[i]) {
      if changes[i].Insert? {
        assert changes[i].name in InsertedNames(changes);
      } else {
        var n :| Insert(n) in changes && IdOf(n) == changes[i].id;
        assert n in InsertedNames(changes);
      }
    }
  }

  /** Names that were not on disk are not loaded either. */
  lemma NewIsUnloaded(db: Db, db': Db, n: string)
    requires DbOk(db) && db'.objects == db.objects && n !in db.disk
    ensures Unloaded(db', n)
  {
    assert DbParts(db);
  }

  lemma IndexCanApply(db: Db, db': Db, t: Task)
    requires DbOk(db) && db'.objects == db.objects && t.phase.Done? && Created(db, db', t.phase.changes)
    ensures CanApply(AuthorityOf(t), db', t.phase.changes) && NoIterators(t.phase.changes)
  {
    var changes := t.phase.changes;
    if changes != [] {
      CreatedNames(db, db', changes, AuthorityOf(t));
      forall n | n in AuthorityOf(t).names ensures n in db'.disk && Unloaded(db', n) {
        NewIsUnloaded(db, db', n);
      }
    }
  }

  lemma ReindexCanApply(db: Db, db': Db, t: Task, snap: Snapshot)
    requires DbOk(db) && db'.objects == db.objects && t.phase.Done? && t.spec.command.Reindex?
    requires DatasetLock(t.spec.command.dataset) in t.spec.locks
    requires FindId(db.objects, snap.datasets, |snap.datasets|, t.spec.command.dataset).Some?
    requires var cs := t.phase.changes; cs != [] && cs[|cs| - 1] == Drop(t.spec.command.dataset) && Created(db, db', cs[..|cs| - 1])
    ensures CanApply(AuthorityOf(t), db', t.phase.changes) && NoIterators(t.phase.changes)
  {
    var cs := t.phase.changes;
    var init, last := cs[..|cs| - 1], cs[|cs| - 1];
    assert cs == init + [last];
    forall n ensures n in InsertedNames(cs) <==> n in InsertedNames(init) {
      assert Insert(n) in cs <==> Insert(n) in init;
    }
    CreatedNames(db, db', init, AuthorityOf(t));
    forall n | n in AuthorityOf(t).names ensures n in db'.disk && Unloaded(db', n) {
      NewIsUnloaded(db, db', n);
    }
    forall i | 0 <= i < |cs| ensures Permits(AuthorityOf(t), cs[i]) {
      assert i < |init| ==> cs[i] == init[i];
    }
    forall i, j | 0 <= i < j < |cs| && cs[i].Insert? ensures cs[i] != cs[j] {
      assert cs[i] == init[i];
      assert j < |init| ==> cs[j] == init[j];
    }
  }

  /** New datasets do not have the id of one that is loaded. */
  lemma ReindexIds(db: Db, db': Db, t: Task, snap: Snapshot)
    requires DbOk(db) && DiskGrows(db, db') && t.phase.Done? && t.spec.command.Reindex?
    requires FindId(db.objects, snap.datasets, |snap.datasets|, t.spec.command.dataset).Some?
    requires var cs := t.phase.changes; cs != [] && cs[|cs| - 1] == Drop(t.spec.command.dataset) && Created(db, db', cs[..|cs| - 1])
    ensures OtherIds(t.phase.changes, t.spec.command.dataset) && '.' !in t.spec.command.dataset
    ensures OnlyCreates(t.phase.changes[..|t.phase.changes| - 1])
  {
    assert DbParts(db);
    var cs, d := t.phase.changes, t.spec.command.dataset;
    var h := FindId(db.objects, snap.datasets, |snap.datasets|, d).value;
    forall i | 0 <= i < |cs| && cs[i].Insert? ensures IdOf(cs[i].name) != d {
      assert cs[..|cs| - 1][i] == cs[i];
      assert db.objects[h].name in db'.disk && db.objects[h].name in db.disk;
    }
  }

  /** Dropping locked datasets is permitted. */
  lemma {:induction false} DropsPermitted(objects: map<Handle, Dataset>, hs: seq<Handle>, locks: seq<Lock>, n: nat, a: Authority)
    requires n <= |locks| && Locked(objects, hs, locks, n).Some? && a.locks == locks
    ensures var r := Locked(objects, hs, locks, n).value;
      forall i :: 0 <= i < |Drops(objects, r, |r|)| ==>
        Drops(objects, r, |r|)[i].Drop? && Permits(a, Drops(objects, r, |r|)[i])
  {
    if n > 0 {
      DropsPermitted(objects, hs, locks, n - 1, a);
      var r, init := Locked(objects, hs, locks, n).value, Locked(objects, hs, locks, n - 1).value;
      if locks[n - 1].DatasetLock? {
        var h := FindId(objects, hs, |hs|, locks[n - 1].target).value;
        assert r == init + [h];
        DropsPrefix(objects, init, [h], |init|);
        assert locks[n - 1] in locks;
      }
    }
  }

  lemma {:induction false} DropsPrefix(objects: map<Handle, Dataset>, a: seq<Handle>, b: seq<Handle>, n: nat)
    requires n <= |a|
    ensures Drops(objects, a + b, n) == Drops(objects, a, n)
  {
    if n > 0 {
      DropsPrefix(objects, a, b, n - 1);
      assert (a + b)[n - 1] == a[n - 1];
    }
  }

  lemma CompactCanApply(db: Db, db': Db, t: Task, snap: Snapshot)
    requires DbOk(db) && db'.objects == db.objects && t.phase.Done? && t.spec.command.Compact?
    requires Compacted(db', snap, t.spec.locks, t.phase.changes)
    requires forall n :: Insert(n) in t.phase.changes ==> n !in db.disk
    ensures CanApply(AuthorityOf(t), db', t.phase.changes) && NoIterators(t.phase.changes)
  {
    var cs, a := t.phase.changes, AuthorityOf(t);
    if cs != [] {
      var hs := Locked(db'.objects, snap.datasets, t.spec.locks, |t.spec.locks|).value;
      var drops, insert := Drops(db'.objects, hs, |hs|), cs[|cs| - 1];
      assert cs == drops + [insert];
      DropsPermitted(db'.objects, snap.datasets, t.spec.locks, |t.spec.locks|, a);
      assert forall i :: 0 <= i < |drops| ==> cs[i] == drops[i];
      forall n | n in a.names ensures n in db'.disk && Unloaded(db', n) {
        assert Insert(n) in cs;
        assert Insert(n) == insert;
        NewIsUnloaded(db, db', n);
      }
      assert insert in cs && insert.name in InsertedNames(cs);
    }
  }

  lemma PopCanApply(db: Db, db': Db, t: Task, snap: Snapshot)
    requires DbOk(db) && t.phase.Done? && t.spec.command.Pop? && IteratorLock(t.spec.command.id) in t.spec.locks
    requires LockedItersOk(db, t, snap) && t.spec.command.id in snap.iterators
    requires Popped(snap.iterators[t.spec.command.id], t.spec.command.count, t.phase.changes, t.phase.reply)
    ensures CanApply(AuthorityOf(t), db', t.phase.changes) && PendingLists(db', t.phase.changes)
  {
    assert DbParts(db);
  }

  lemma SelectCanApply(db: Db, db': Db, t: Task, name: string)
    requires DiskGrows(db, db') && NewList(db, db', name) && t.phase.Done? && t.phase.changes == [NewIterator(name)]
    ensures CanApply(AuthorityOf(t), db', t.phase.changes) && PendingLists(db', t.phase.changes)
  {
    assert NewIterator(name) in t.phase.changes;
  }

  lemma ReindexOk(db: Db, db': Db, t: Task, snap: Snapshot)
    requires DbOk(db) && DiskGrows(db, db') && db'.objects == db.objects && t.phase.Done? && t.spec.command.Reindex?
    requires DatasetLock(t.spec.command.dataset) in t.spec.locks
    requires FindId(db.objects, snap.datasets, |snap.datasets|, t.spec.command.dataset).Some?
    requires var cs := t.phase.changes; cs != [] && cs[|cs| - 1] == Drop(t.spec.command.dataset) && Created(db, db', cs[..|cs| - 1])
    ensures CanApply(AuthorityOf(t), db', t.phase.changes) && PendingLists(db', t.phase.changes)
    ensures Exact(db', t.spec, snap, t.phase.changes, t.phase.reply)
  {
    ReindexCanApply(db, db', t, snap);
    ReindexIds(db, db', t, snap);
  }

  lemma OutcomeOk(db: Db, db': Db, t: Task, snap: Snapshot, ok: bool, changes: seq<Change>, reply: seq<Bytes>)
    requires DbOk(db) && TaskOk(db, t, snap) && t.phase.Running?
    requires Outcome(db, t.spec, snap, db', ok, changes, reply)
    ensures DoneOk(db', Finish(t, ok, changes, reply), snap)
  {
    var u := Finish(t, ok, changes, reply);
    if ok {
      match t.spec.command
      case ReadOnly =>
      case SelectInto =>
        var name :| changes == [NewIterator(name)] && NewList(db, db', name);
        SelectCanApply(db, db', u, name);
      case Pop(id, count) =>
        PopCanApply(db, db', u, snap);
      case Index(_) =>
        IndexCanApply(db, db', u);
      case Reindex(dataset) =>
        ReindexOk(db, db', u, snap);
      case Compact(_) =>
        CompactCanApply(db, db', u, snap);
      case Taint(dataset, taint, mode) =>
      case DropDataset(dataset) =>
    }
  }

  /** The names a worker brings are new, so no other finished task brings them. */
  lemma OutcomeApart(db: Db, db': Db, t: Task, snap: Snapshot, ok: bool, changes: seq<Change>, reply: seq<Bytes>,
      other: Task, otherSnap: Snapshot)
    requires DbOk(db) && TaskOk(db, other, otherSnap)
    requires Outcome(db, t.spec, snap, db', ok, changes, reply)
    ensures Apart(Finish(t, ok, changes, reply), other)
  {
    if ok && changes != [] {
      forall n | n in InsertedNames(changes) ensures n !in db.disk {
        NewNames(db, db', t.spec, snap, changes, reply, n);
      }
      forall n | n in AuthorityOf(other).names ensures n in db.disk {
      }
      if t.spec.command.SelectInto? {
        forall i | i in NewIds(changes) ensures i !in AuthorityOf(other).iters {
          NewListId(db, db', t.spec, snap, changes, reply, other, i);
        }
      } else {
        OnlySelectMakesLists(db, db', t.spec, snap, changes, reply);
      }
    }
  }

  lemma NewNames(db: Db, db': Db, spec: TaskSpec, snap: Snapshot, changes: seq<Change>, reply: seq<Bytes>, n: string)
    requires Outcome(db, spec, snap, db', true, changes, reply) && n in InsertedNames(changes)
    ensures n !in db.disk
  {
    assert Insert(n) in changes;
    if spec.command.Index? {
      var i :| 0 <= i < |changes| && changes[i] == Insert(n);
    } else if spec.command.Reindex? {
      var init := changes[..|changes| - 1];
      assert changes == init + [Drop(spec.command.dataset)];
      var i :| 0 <= i < |init| && init[i] == Insert(n);
    }
  }

  lemma NewListId(db: Db, db': Db, spec: TaskSpec, snap: Snapshot, changes: seq<Change>, reply: seq<Bytes>, other: Task, i: string)
    requires Outcome(db, spec, snap, db', true, changes, reply) && spec.command.SelectInto? && i in NewIds(changes)
    requires other.phase.Done? ==> PendingLists(db, other.phase.changes)
    ensures i !in AuthorityOf(other).iters
  {
    var name :| changes == [NewIterator(name)] && NewList(db, db', name);
    assert IdOf(name) == i;
    if other.phase.Done? {
      forall n | NewIterator(n) in other.phase.changes ensures IdOf(n) != i {
        assert n in db.stored;
      }
    }
  }

  lemma OnlySelectMakesLists(db: Db, db': Db, spec: TaskSpec, snap: Snapshot, changes: seq<Change>, reply: seq<Bytes>)
    requires Outcome(db, spec, snap, db', true, changes, reply) && !spec.command.SelectInto?
    ensures NewIds(changes) == {}
  {
    if spec.command.Reindex? {
      var init := changes[..|changes| - 1];
      assert changes == init + [Drop(spec.command.dataset)];
      assert forall c :: c in init ==> !c.NewIterator?;
    } else if spec.command.Compact? {
      var hs := Locked(db'.objects, snap.datasets, spec.locks, |spec.locks|).value;
      OnlyDrops(db'.objects, hs, |hs|);
    }
    assert forall c :: c in changes ==> !c.NewIterator?;
  }

  lemma {:induction false} OnlyDrops(objects: map<Handle, Dataset>, hs: seq<Handle>, n: nat)
    requires n <= |hs|
    ensures forall c :: c in Drops(objects, hs, n) ==> c.Drop?
  {
    if n > 0 {
      OnlyDrops(objects, hs, n - 1);
    }
  }

  lemma WorkKeeps(s: Sys, w: string, db': Db, ok: bool, changes: seq<Change>, reply: seq<Bytes>)
    requires Inv(s) && Busy(s, w) && s.workers[w].task.value.phase.Running?
    requires Outcome(s.db, s.workers[w].task.value.spec, s.workers[w].snap, db', ok, changes, reply)
    ensures Inv(WorkStep(s, w, db', ok, changes, reply))
  {
    GrowsOk(s.db, db');
    WorkQueue(s, w, db', ok, changes, reply);
    WorkTasks(s, w, db', ok, changes, reply);
    WorkApart(s, w, db', ok, changes, reply);
  }

  lemma WorkQueue(s: Sys, w: string, db': Db, ok: bool, changes: seq<Change>, reply: seq<Bytes>)
    requires QueueOk(s) && OwnerOk(s) && Busy(s, w) && db'.tasks == s.db.tasks
    ensures QueueOk(WorkStep(s, w, db', ok, changes, reply)) && OwnerOk(WorkStep(s, w, db', ok, changes, reply))
  {
    assert WorkStep(s, w, db', ok, changes, reply).workers.Keys == s.workers.Keys;
  }

  lemma WorkTasks(s: Sys, w: string, db': Db, ok: bool, changes: seq<Change>, reply: seq<Bytes>)
    requires DbOk(s.db) && AllTasksOk(s) && Busy(s, w) && s.workers[w].task.value.phase.Running?
    requires Outcome(s.db, s.workers[w].task.value.spec, s.workers[w].snap, db', ok, changes, reply)
    ensures AllTasksOk(WorkStep(s, w, db', ok, changes, reply))
  {
    var s' := WorkStep(s, w, db', ok, changes, reply);
    var t, snap := s.workers[w].task.value, s.workers[w].snap;
    forall v | v in s'.workers && s'.workers[v].task.Some?
      ensures TaskOk(s'.db, s'.workers[v].task.value, s'.workers[v].snap)
    {
      if v == w {
        OutcomeOk(s.db, db', t, snap, ok, changes, reply);
        GrowsKeeps(s.db, db', t, snap);
        assert s'.workers[v].task.value == Finish(t, ok, changes, reply);
      } else {
        GrowsKeeps(s.db, db', s.workers[v].task.value, s.workers[v].snap);
      }
    }
  }

  lemma WorkApart(s: Sys, w: string, db': Db, ok: bool, changes: seq<Change>, reply: seq<Bytes>)
    requires DbOk(s.db) && AllTasksOk(s) && AllApart(s) && Busy(s, w)
    requires Outcome(s.db, s.workers[w].task.value.spec, s.workers[w].snap, db', ok, changes, reply)
    ensures AllApart(WorkStep(s, w, db', ok, changes, reply))
  {
    var s' := WorkStep(s, w, db', ok, changes, reply);
    var t, snap := s.workers[w].task.value, s.workers[w].snap;
    forall v | v in s.workers && v != w && s.workers[v].task.Some?
      ensures Apart(s'.workers[w].task.value, s'.workers[v].task.value)
      ensures Apart(s'.workers[v].task.value, s'.workers[w].task.value)
    {
      OutcomeApart(s.db, db', t, snap, ok, changes, reply, s.workers[v].task.value, s.workers[v].snap);
    }
  }
}
