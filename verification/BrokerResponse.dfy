/** The commit of a finished task keeps the invariant, and does no more than it may. */
module BrokerResponse {
  import opened Core
  import opened OnDiskFileIndexes
  import opened OnDiskIterators
  import opened DatabaseStates
  import opened Broker
  import opened BrokerInvariants
  import opened BrokerSteps
  import opened BrokerChoice

  /** The database after the changes of a task, and after its task is erased. */
  lemma CommitOk(db: Db, t: Task, snap: Snapshot)
    requires DbOk(db) && TaskOk(db, t, snap) && t.phase.Done?
    ensures var changes := t.phase.changes;
      Reached(AuthorityOf(t), db, changes, |changes|, ApplyAll(db, changes, |changes|))
    ensures DbOk(Commit(db, t.spec.id, t.phase.changes))
    ensures Commit(db, t.spec.id, t.phase.changes).tasks == db.tasks - {t.spec.id}
  {
    var changes := t.phase.changes;
    ApplyAllEvolves(AuthorityOf(t), db, changes, |changes|);
    var db' := ApplyAll(db, changes, |changes|);
    assert EvolvesParts(AuthorityOf(t), db, db');
    assert DbParts(db');
    TasksOnlyOk(db', Commit(db, t.spec.id, changes));
  }

  /** A commit leaves every other task sound. */
  lemma CommitOthers(db: Db, t: Task, snap: Snapshot, other: Task, otherSnap: Snapshot)
    requires DbOk(db) && TaskOk(db, t, snap) && t.phase.Done? && TaskOk(db, other, otherSnap)
    requires Apart(t, other) && forall l :: l in other.spec.locks ==> l !in t.spec.locks
    ensures TaskOk(Commit(db, t.spec.id, t.phase.changes), other, otherSnap)
  {
    var a, changes := AuthorityOf(t), t.phase.changes;
    CommitOk(db, t, snap);
    var db' := ApplyAll(db, changes, |changes|);
    LocksAreLoaded(db, t, snap);
    assert Foreign(a, other);
    TaskStays(a, db, db', other, otherSnap);
    TasksOnlyKeeps(db', Commit(db, t.spec.id, changes), other, otherSnap);
  }

  /** An iterator that a commit may change is loaded. */
  lemma LocksAreLoaded(db: Db, t: Task, snap: Snapshot)
    requires TaskOk(db, t, snap) && t.phase.Done?
    ensures forall i :: IteratorLock(i) in AuthorityOf(t).locks ==> i in db.iterators
  {
  }

  lemma CollectStays(db: Db, held: set<Handle>, t: Task, snap: Snapshot)
    requires DbOk(db) && TaskOk(db, t, snap)
    requires (forall h :: h in held ==> h in db.objects) && forall h :: h in snap.datasets ==> h in held
    ensures TaskOk(Collect(db, held), t, snap)
  {
    var db' := Collect(db, held);
    CollectKept(db, held);
    CollectExactly(db, held);
    assert SnapOk(db', snap);
    assert SameSets(db.objects, db'.objects, snap.datasets);
    if t.phase.Done? {
      assert CanApply(AuthorityOf(t), db', t.phase.changes);
      if t.phase.ok && t.spec.command.Compact? {
        KeepsInserted(db, held, t);
        CompactedStays(db, db', snap, t.spec.locks, t.phase.changes);
      } else if t.phase.ok && t.spec.command.Taint? {
        FindIdStays(db.objects, db'.objects, snap.datasets, |snap.datasets|, t.spec.command.dataset);
      }
    }
  }

  lemma KeepsInserted(db: Db, held: set<Handle>, t: Task)
    requires DbOk(db) && t.phase.Done? && CanApply(AuthorityOf(t), db, t.phase.changes)
    ensures forall n :: Insert(n) in t.phase.changes && n in db.disk ==>
      n in Collect(db, held).disk && Collect(db, held).disk[n] == db.disk[n]
  {
    CollectKept(db, held);
    forall n | Insert(n) in t.phase.changes ensures Unloaded(db, n) {
      var i :| 0 <= i < |t.phase.changes| && t.phase.changes[i] == Insert(n);
      assert Permits(AuthorityOf(t), t.phase.changes[i]);
    }
  }

  // ----- iterators -----

  lemma {:induction false} NoItersSame(db: Db, changes: seq<Change>, n: nat)
    requires n <= |changes| && NoIterators(changes)
    ensures ApplyAll(db, changes, n).iterators == db.iterators
  {
    if n > 0 {
      NoItersSame(db, changes, n - 1);
      assert changes[n - 1] in changes;
    }
  }

  lemma PopCommit(db: Db, t: Task, it: Iter)
    requires t.phase.Done? && t.spec.command.Pop? && IdOf(it.name) == t.spec.command.id
    requires Popped(it, t.spec.command.count, t.phase.changes, t.phase.reply)
    ensures Commit(db, t.spec.id, t.phase.changes).iterators
         == MoveIterator(db, t.spec.command.id, PopBytes(it.names, it.fileOffset, t.spec.command.count),
              PopTo(|it.names|, it.fileOffset, t.spec.command.count)).iterators
  {
    var changes := t.phase.changes;
    assert ApplyAll(db, changes, 1) == Apply(ApplyAll(db, changes, 0), changes[0]) == Apply(db, changes[0]);
  }

  /** Reading on from where the last read stopped. */
  lemma PopContinues(it: Iter, got: seq<Bytes>, count: nat)
    requires IterGood(it, got)
    ensures var to := PopTo(|it.names|, it.fileOffset, count);
      && (to < |it.names| ==>
            IterGood(it.(byteOffset := PopBytes(it.names, it.fileOffset, count), fileOffset := to), got + it.names[it.fileOffset..to]))
      && (to == |it.names| ==> got + it.names[it.fileOffset..to] == it.names)
  {
    var to := PopTo(|it.names|, it.fileOffset, count);
    assert it.names[..it.fileOffset] + it.names[it.fileOffset..to] == it.names[..to];
    assert it.names[..|it.names|] == it.names;
  }

  /** The iterators after a pop: one has moved on or is gone, the others are as they were. */
  ghost predicate PopResult(before: map<string, Iter>, after: map<string, Iter>, i: string, got: seq<Bytes>, read: nat) {
    && i in before
    && (forall j :: j in before && j != i ==> j in after && after[j] == before[j])
    && (forall j :: j in after ==> j in before)
    && (i in after <==> read < |before[i].names|)
    && (i in after ==> IterGood(after[i], got) && after[i].names == before[i].names && after[i].fileOffset == read)
    && (i !in after ==> got == before[i].names)
  }

  /**
   * A finished pop continues where the last one stopped: what has been delivered is a prefix of the
   * list, and the iterator is dropped exactly when that is all of it.
   */
  lemma PopDelivers(db: Db, delivered: map<string, seq<Bytes>>, t: Task, snap: Snapshot)
    requires DbOk(db) && DeliveredOk(db, delivered) && LockedItersOk(db, t, snap)
    requires t.phase.Done? && t.phase.ok && t.spec.command.Pop?
    requires Exact(db, t.spec, snap, t.phase.changes, t.phase.reply)
    ensures var i := t.spec.command.id;
      && Deliver(delivered, t) == delivered[i := Delivered(delivered, i) + t.phase.reply]
      && i in db.iterators
      && PopResult(db.iterators, Commit(db, t.spec.id, t.phase.changes).iterators, i,
           Delivered(delivered, i) + t.phase.reply, PopTo(|db.iterators[i].names|, db.iterators[i].fileOffset, t.spec.command.count))
  {
    assert DbParts(db);
    var i, it := t.spec.command.id, snap.iterators[t.spec.command.id];
    assert it == db.iterators[i] && IdOf(it.name) == i;
    PopCommit(db, t, it);
    PopContinues(it, Delivered(delivered, i), t.spec.command.count);
  }

  lemma DeliveredStays(s: Sys, w: string)
    requires DbOk(s.db) && Finished(s, w) && TaskOk(s.db, s.workers[w].task.value, s.workers[w].snap)
    requires DeliveredOk(s.db, s.delivered)
    ensures var t := s.workers[w].task.value;
      DeliveredOk(Commit(s.db, t.spec.id, t.phase.changes), Deliver(s.delivered, t))
  {
    var t, snap := s.workers[w].task.value, s.workers[w].snap;
    if !t.phase.ok {
      assert t.phase.changes == [];
    } else if t.spec.command.Pop? {
      PopDelivers(s.db, s.delivered, t, snap);
    } else if t.spec.command.SelectInto? {
      SelectDelivers(s.db, s.delivered, t);
    } else {
      NoItersSame(s.db, t.phase.changes, |t.phase.changes|);
      assert t.phase.changes != [] ==> t.phase.changes[0] in t.phase.changes;
    }
  }

  lemma SelectDelivers(db: Db, delivered: map<string, seq<Bytes>>, t: Task)
    requires DbOk(db) && DeliveredOk(db, delivered) && t.phase.Done? && t.phase.ok
    requires (exists name :: t.phase.changes == [NewIterator(name)]) && PendingLists(db, t.phase.changes)
    ensures DeliveredOk(Commit(db, t.spec.id, t.phase.changes), Deliver(delivered, t))
  {
    var name :| t.phase.changes == [NewIterator(name)];
    var changes := t.phase.changes;
    assert changes[0] in changes;
    assert ApplyAll(db, changes, 1) == Apply(ApplyAll(db, changes, 0), changes[0]) == Apply(db, changes[0]);
    var it := db.stored[name];
    assert it.names[..0] == [];
    assert NameStart(it.names, 0) == 0;
  }

  // ----- the whole step -----

  /** The database after the commit of a finished task, before garbage is collected. */
  ghost function Committed(s: Sys, w: string): Db
    requires Finished(s, w)
  {
    Commit(s.db, s.workers[w].task.value.spec.id, s.workers[w].task.value.phase.changes)
  }

  lemma OthersStay(s: Sys, w: string, v: string)
    requires Inv(s) && Finished(s, w) && Busy(s, v) && v != w
    ensures TaskOk(Committed(s, w), s.workers[v].task.value, s.workers[v].snap)
  {
    var t, u := s.workers[w].task.value, s.workers[v].task.value;
    assert TaskOk(s.db, t, s.workers[w].snap) && TaskOk(s.db, u, s.workers[v].snap) && Apart(t, u);
    OwnLocks(s, w, v);
    CommitOthers(s.db, t, s.workers[w].snap, u, s.workers[v].snap);
  }

  /** Two busy workers hold no lock in common. */
  lemma OwnLocks(s: Sys, w: string, v: string)
    requires OwnerOk(s) && LocksOk(s.db) && Busy(s, w) && Busy(s, v) && v != w
    ensures forall l :: l in s.workers[v].task.value.spec.locks ==> l !in s.workers[w].task.value.spec.locks
    ensures s.workers[w].task.value.spec.id in s.db.tasks
    ensures s.db.tasks[s.workers[w].task.value.spec.id] == s.workers[w].task.value.spec
  {
    var j, k := s.workers[v].task.value.spec.id, s.workers[w].task.value.spec.id;
    assert s.owner[j] == v && s.owner[k] == w;
    assert s.db.tasks[j] == s.workers[v].task.value.spec && s.db.tasks[k] == s.workers[w].task.value.spec;
  }

  lemma HeldExist(s: Sys, w: string)
    requires Inv(s) && Finished(s, w)
    ensures forall h :: h in HeldWithout(s, w) ==> h in Committed(s, w).objects
  {
    forall h | h in HeldWithout(s, w) ensures h in Committed(s, w).objects {
      var v :| Busy(s, v) && v != w && h in s.workers[v].snap.datasets;
      OthersStay(s, w, v);
    }
  }

  lemma ResponseDb(s: Sys, w: string)
    requires Inv(s) && Finished(s, w)
    ensures var s' := ResponseStep(s, w);
      && DbOk(s'.db) && LocksOk(s'.db) && s'.db.tasks == s.db.tasks - {s.workers[w].task.value.spec.id}
      && DeliveredOk(s'.db, s'.delivered)
  {
    var t := s.workers[w].task.value;
    assert TaskOk(s.db, t, s.workers[w].snap);
    CommitOk(s.db, t, s.workers[w].snap);
    CollectKept(Committed(s, w), HeldWithout(s, w));
    DeliveredStays(s, w);
    assert ResponseStep(s, w).db.iterators == Committed(s, w).iterators;
  }

  lemma ResponseQueue(s: Sys, w: string)
    requires QueueOk(s) && Finished(s, w)
    ensures QueueOk(ResponseStep(s, w))
  {
    assert w !in s.queue;
  }

  lemma ResponseOwner(s: Sys, w: string)
    requires DbOk(s.db) && OwnerOk(s) && Finished(s, w)
    requires ResponseStep(s, w).db.tasks == s.db.tasks - {s.workers[w].task.value.spec.id}
    ensures OwnerOk(ResponseStep(s, w))
  {
    assert DbParts(s.db);
    var k := s.workers[w].task.value.spec.id;
    assert s.owner[k] == w;
    assert (s.owner - {k}).Keys == s.owner.Keys - {k};
    assert (s.db.tasks - {k}).Keys == s.db.tasks.Keys - {k};
  }

  lemma ResponseTasks(s: Sys, w: string)
    requires Inv(s) && Finished(s, w)
    ensures AllTasksOk(ResponseStep(s, w)) && AllApart(ResponseStep(s, w))
  {
    var s', held := ResponseStep(s, w), HeldWithout(s, w);
    assert TaskOk(s.db, s.workers[w].task.value, s.workers[w].snap);
    CommitOk(s.db, s.workers[w].task.value, s.workers[w].snap);
    HeldExist(s, w);
    forall v | v in s'.workers && s'.workers[v].task.Some?
      ensures TaskOk(s'.db, s'.workers[v].task.value, s'.workers[v].snap)
    {
      assert v != w && s'.workers[v] == s.workers[v];
      OthersStay(s, w, v);
      assert forall h :: h in s.workers[v].snap.datasets ==> h in held;
      CollectStays(Committed(s, w), held, s.workers[v].task.value, s.workers[v].snap);
    }
    assert forall v :: v in s'.workers && s'.workers[v].task.Some? ==> v in s.workers && s'.workers[v] == s.workers[v];
  }

  lemma ResponseKeeps(s: Sys, w: string)
    requires Inv(s) && Finished(s, w)
    ensures Inv(ResponseStep(s, w))
  {
    ResponseDb(s, w);
    ResponseQueue(s, w);
    ResponseOwner(s, w);
    ResponseTasks(s, w);
  }

  /** Every step keeps the invariant. */
  lemma StepKeeps(s: Sys, s': Sys)
    requires Inv(s) && Step(s, s')
    ensures Inv(s')
  {
    if IsReady(s, s') {
      var w :| w in s.workers && !s.workers[w].started && s' == ReadyStep(s, w);
      ReadyKeeps(s, w);
    } else if IsRequest(s, s') {
      var c: Command, candidates: seq<string> :|
        (c.Compact? ==> Chosen(s.db, c.smart, candidates)) && s' == RequestStep(s, c, candidates);
      if c.Compact? {
        ChosenIsGood(s.db, c.smart, candidates);
      }
      RequestKeeps(s, c, candidates);
    } else if IsWork(s, s') {
      var w, ok, changes, reply :| WorksBy(s, s', w, ok, changes, reply);
      WorkKeeps(s, w, s'.db, ok, changes, reply);
    } else {
      var w :| Finished(s, w) && s' == ResponseStep(s, w);
      ResponseKeeps(s, w);
    }
  }

  /** A run of the broker: any number of steps, in any order. */
  ghost predicate IsRun(run: seq<Sys>) {
    forall i :: 0 <= i < |run| - 1 ==> Step(run[i], run[i + 1])
  }

  /** The invariant holds in every state of every run. */
  lemma {:induction false} RunKeeps(run: seq<Sys>, i: nat)
    requires i < |run| && IsRun(run) && Inv(run[0])
    ensures Inv(run[i])
  {
    if i > 0 {
      RunKeeps(run, i - 1);
      assert Step(run[i - 1], run[i - 1 + 1]);
      StepKeeps(run[i - 1], run[i]);
    }
  }
}
