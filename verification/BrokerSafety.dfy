/** What the broker guarantees to its clients. */
module BrokerSafety {
  import opened Core
  import opened OnDiskIterators
  import opened DatabaseStates
  import opened Broker
  import opened BrokerInvariants
  import opened BrokerSteps
  import opened BrokerChoice
  import opened BrokerResponse

  // ----- the start -----

  /** The service before any worker has reported. */
  ghost predicate Initial(s: Sys) {
    && DbOk(s.db) && s.db.tasks == map[] && s.queue == [] && s.owner == map[]
    && (forall w :: w in s.workers ==> !s.workers[w].started && s.workers[w].task.None?)
    && DeliveredOk(s.db, s.delivered)
  }

  lemma InitialHolds(s: Sys)
    requires Initial(s)
    ensures Inv(s)
  {
  }

  // ----- snapshots -----

  /** The datasets of the snapshots of all busy workers. */
  ghost function Held(s: Sys): set<Handle> {
    set v, h | v in s.workers && s.workers[v].task.Some? && h in s.workers[v].snap.datasets :: h
  }

  /** Snapshot safety: nothing that a busy worker may read has been destroyed, nor any working dataset. */
  lemma SnapshotsAreSafe(s: Sys, w: string, h: Handle)
    requires Inv(s)
    ensures Busy(s, w) && h in s.workers[w].snap.datasets ==> h in s.db.loaded && h in s.db.objects
    ensures h in s.db.working ==> h in s.db.loaded && h in s.db.objects
  {
    assert DbParts(s.db);
    if Busy(s, w) {
      assert TaskOk(s.db, s.workers[w].task.value, s.workers[w].snap);
    }
  }

  lemma CollectLoaded(db: Db, held: set<Handle>, h: Handle)
    requires DbOk(db) && forall g :: g in held ==> g in db.objects
    ensures h in Collect(db, held).loaded <==> h in Collect(db, held).working || h in held
    ensures Collect(db, held).working == db.working
  {
    CollectExactly(db, held);
    CollectKept(db, held);
    assert DbParts(Collect(db, held));
  }

  lemma CommittedOk(s: Sys, w: string)
    requires Inv(s) && Finished(s, w)
    ensures DbOk(Committed(s, w))
    ensures var t := s.workers[w].task.value;
      Reached(AuthorityOf(t), s.db, t.phase.changes, |t.phase.changes|, ApplyAll(s.db, t.phase.changes, |t.phase.changes|))
  {
    assert TaskOk(s.db, s.workers[w].task.value, s.workers[w].snap);
    CommitOk(s.db, s.workers[w].task.value, s.workers[w].snap);
  }

  lemma StillHeld(s: Sys, w: string)
    requires Finished(s, w)
    ensures HeldWithout(s, w) == Held(ResponseStep(s, w))
  {
    var s' := ResponseStep(s, w);
    assert forall v :: v in s'.workers && v != w ==> s'.workers[v] == s.workers[v];
  }

  /** After a commit, exactly the working datasets and those of active snapshots are loaded. */
  lemma GarbageIsCollected(s: Sys, w: string, h: Handle)
    requires Inv(s) && Finished(s, w)
    ensures var s' := ResponseStep(s, w); h in s'.db.loaded <==> h in s'.db.working || h in Held(s')
  {
    CommittedOk(s, w);
    HeldExist(s, w);
    StillHeld(s, w);
    CollectLoaded(Committed(s, w), HeldWithout(s, w), h);
  }

  // ----- locks -----

  /**
   * A compaction is never refused: whichever datasets the choice comes to, its lock request succeeds,
   * and the request becomes a task.
   */
  lemma CompactionIsNotRefused(s: Sys, smart: bool, candidates: seq<string>)
    requires Inv(s) && Chosen(s.db, smart, candidates) && s.queue != [] && s.queue[0] in s.workers
    ensures CanAcquireAll(s.db, LocksOf(Compact(smart), candidates))
    ensures var s' := RequestStep(s, Compact(smart), candidates);
      Busy(s', s.queue[0]) && s'.workers[s.queue[0]].task.value.spec.command == Compact(smart)
  {
    ChosenIsGood(s.db, smart, candidates);
    forall i | 0 <= i < |candidates| ensures CanAcquire(s.db, DatasetLocks(candidates)[i]) {
      assert CanAcquire(s.db, DatasetLock(candidates[i]));
    }
  }

  lemma AllowedDrop(a: Authority, db: Db, db': Db, h: Handle)
    requires DbOk(db) && Evolves(a, db, db') && h in db.working && h !in db'.working
    ensures h in db.objects && a.MayDrop(db.objects[h])
  {
    assert DbParts(db);
    assert EvolvesParts(a, db, db');
  }

  lemma CollectSameWorking(db: Db, held: set<Handle>)
    requires DbOk(db)
    ensures Collect(db, held).working == db.working
  {
    CollectKept(db, held);
  }

  /** What a commit does to the working list is limited by the locks of its task. */
  lemma CommitDrops(s: Sys, w: string, h: Handle)
    requires Inv(s) && Finished(s, w) && h in s.db.working && h !in ResponseStep(s, w).db.working
    ensures h in s.db.objects
    ensures var spec, d := s.workers[w].task.value.spec, s.db.objects[h];
      DatasetLock(d.Id()) in spec.locks || (spec.command.DropDataset? && d.IsCalled(spec.command.dataset))
  {
    var t := s.workers[w].task.value;
    CommittedOk(s, w);
    CollectSameWorking(Committed(s, w), HeldWithout(s, w));
    AllowedDrop(AuthorityOf(t), s.db, ApplyAll(s.db, t.phase.changes, |t.phase.changes|), h);
  }

  /** The commit of `w` is the step, and its task holds the lock or names the dataset. */
  ghost predicate DroppedBy(s: Sys, s': Sys, h: Handle, holder: string, w: string)
    requires h in s.db.objects
  {
    && Finished(s, w) && s' == ResponseStep(s, w)
    && var c := s.workers[w].task.value.spec.command;
      w == holder || (c.DropDataset? && s.db.objects[h].IsCalled(c.dataset))
  }

  /**
   * A dataset that a task has locked leaves the working set only by the commit of that task, or of an
   * explicit drop that names it.
   */
  lemma LockedDatasetStays(s: Sys, s': Sys, h: Handle, holder: string)
    requires Inv(s) && Step(s, s') && h in s.db.working && h in s.db.objects && Busy(s, holder)
    requires DatasetLock(s.db.objects[h].Id()) in s.workers[holder].task.value.spec.locks
    requires h !in s'.db.working
    ensures exists w :: DroppedBy(s, s', h, holder, w)
  {
    assert IsResponse(s, s');
    var w :| Finished(s, w) && s' == ResponseStep(s, w);
    CommitDrops(s, w, h);
    if w != holder {
      OwnLocks(s, w, holder);
    }
    assert DroppedBy(s, s', h, holder, w);
  }

  // ----- taints -----

  /** The dataset that a taint command is about, as the worker found it. */
  ghost function TaintTarget(s: Sys, w: string): Option<Handle>
    requires Busy(s, w) && s.workers[w].task.value.spec.command.Taint?
  {
    FindId(s.db.objects, s.workers[w].snap.datasets, |s.workers[w].snap.datasets|, s.workers[w].task.value.spec.command.dataset)
  }

  /** The dataset with the taint, or without it. */
  function Tainted(d: Dataset, taint: string, mode: TaintMode): Dataset {
    d.(taints := match mode case AddTaint => d.taints + {taint} case ClearTaint => d.taints - {taint})
  }

  /**
   * A taint command that succeeded ends with the taint set or cleared as it asked, although all that
   * is committed is a toggle; unless the dataset has left the working set meanwhile. Nothing else changes.
   */
  lemma TaintAsRequested(s: Sys, w: string)
    requires Inv(s) && Finished(s, w) && s.workers[w].task.value.phase.ok
    requires s.workers[w].task.value.spec.command.Taint?
    ensures TaintTarget(s, w).Some?
    ensures var h, c, db' := TaintTarget(s, w).value, s.workers[w].task.value.spec.command, ResponseStep(s, w).db;
      && db'.working == s.db.working
      && forall g :: g in s.db.working ==>
           && g in s.db.objects && g in db'.objects
           && db'.objects[g] == if g == h then Tainted(s.db.objects[g], c.taint, c.mode) else s.db.objects[g]
  {
    var t, snap := s.workers[w].task.value, s.workers[w].snap;
    assert TaskOk(s.db, t, snap);
    var h := TaintTarget(s, w).value;
    CommittedOk(s, w);
    HeldExist(s, w);
    CollectExactly(Committed(s, w), HeldWithout(s, w));
    CollectKept(Committed(s, w), HeldWithout(s, w));
    TaintCommitted(s.db, t, snap, h);
    assert DbParts(s.db);
  }

  lemma TaintCommitted(db: Db, t: Task, snap: Snapshot, h: Handle)
    requires DbOk(db) && t.phase.Done? && t.spec.command.Taint? && h in db.objects
    requires db.objects[h].Id() == t.spec.command.dataset
    requires t.phase.changes == TaintChanges(db.objects[h].taints, t.spec.command.dataset, t.spec.command.taint, t.spec.command.mode)
    ensures var c, db' := t.spec.command, Commit(db, t.spec.id, t.phase.changes);
      && db'.working == db.working
      && forall g :: g in db.working ==>
           && g in db.objects && g in db'.objects
           && db'.objects[g] == if g == h then Tainted(db.objects[g], c.taint, c.mode) else db.objects[g]
  {
    var c, changes := t.spec.command, t.phase.changes;
    TaintedExactly(db.objects[h], c.taint, c.mode);
    WorkingExist(db);
    if changes != [] {
      assert ApplyAll(db, changes, 1) == Apply(ApplyAll(db, changes, 0), changes[0]) == Apply(db, changes[0]);
      ToggledExactly(db, h, c.taint);
    }
  }

  lemma WorkingExist(db: Db)
    requires DbOk(db)
    ensures forall h :: h in db.working ==> h in db.objects
  {
    assert DbParts(db);
  }

  lemma TaintedExactly(d: Dataset, taint: string, mode: TaintMode)
    ensures if (taint in d.taints) == (mode == AddTaint) then Tainted(d, taint, mode) == d
            else Tainted(d, taint, mode) == d.(taints := Toggled(d.taints, taint))
  {
    if taint in d.taints {
      assert d.taints + {taint} == d.taints;
    } else {
      assert d.taints - {taint} == d.taints;
    }
  }

  /** A toggle changes one taint of one working dataset. */
  lemma ToggledExactly(db: Db, h: Handle, taint: string)
    requires DbOk(db) && h in db.objects
    ensures var db', d := Toggle(db, db.objects[h].Id(), taint), db.objects[h];
      && db'.working == db.working
      && forall g :: g in db.working ==>
           && g in db.objects && g in db'.objects
           && db'.objects[g] == if g != h then db.objects[g] else d.(taints := Toggled(d.taints, taint))
  {
    FoundIs(db, h);
    WorkingExist(db);
  }

  /** Looking for the id of a dataset among the working ones finds that dataset, if it is there. */
  lemma FoundIs(db: Db, h: Handle)
    requires DbOk(db) && h in db.objects
    ensures FindId(db.objects, db.working, |db.working|, db.objects[h].Id()) == if h in db.working then Some(h) else None
  {
    var f := FindId(db.objects, db.working, |db.working|, db.objects[h].Id());
    if f.Some? {
      SameIdSame(db, h, f.value);
    }
    if h in db.working {
      assert db.working[..|db.working|] == db.working;
      FindIdFinds(db.objects, db.working, |db.working|, h);
    }
  }

  // ----- iterators -----

  /**
   * Replies to pops: each continues where the last one stopped, so that what has been delivered is
   * always a prefix of the list; and the iterator is dropped exactly when the list has been delivered
   * to its end, so that the byte offset that says so is never used.
   */
  lemma PopsDeliverTheList(s: Sys, w: string)
    requires Inv(s) && Finished(s, w) && s.workers[w].task.value.phase.ok && s.workers[w].task.value.spec.command.Pop?
    ensures var t, s' := s.workers[w].task.value, ResponseStep(s, w);
      var i := t.spec.command.id;
      && i in s.db.iterators
      && var it := s.db.iterators[i]; var to := PopTo(|it.names|, it.fileOffset, t.spec.command.count);
        && s'.delivered == s.delivered[i := Delivered(s.delivered, i) + t.phase.reply]
        && t.phase.reply == it.names[it.fileOffset..to]
        && PopResult(s.db.iterators, s'.db.iterators, i, Delivered(s'.delivered, i), to)
  {
    var t, snap := s.workers[w].task.value, s.workers[w].snap;
    assert TaskOk(s.db, t, snap);
    CommittedOk(s, w);
    PopDelivers(s.db, s.delivered, t, snap);
    CollectKept(Committed(s, w), HeldWithout(s, w));
  }

  /** A reply to a pop has as many names as were asked for, or all that are left. */
  lemma PopsAsMany(s: Sys, w: string)
    requires Inv(s) && Finished(s, w) && s.workers[w].task.value.phase.ok && s.workers[w].task.value.spec.command.Pop?
    ensures var t := s.workers[w].task.value;
      && t.spec.command.id in s.db.iterators
      && var left := |s.db.iterators[t.spec.command.id].names| - s.db.iterators[t.spec.command.id].fileOffset;
        |t.phase.reply| == if t.spec.command.count < left then t.spec.command.count else left
  {
    PopsDeliverTheList(s, w);
    assert IterGood(s.db.iterators[s.workers[w].task.value.spec.command.id],
      Delivered(s.delivered, s.workers[w].task.value.spec.command.id));
  }

  /** The iterator `i` is on disk as it is in memory, or on neither, and all others are as they were. */
  ghost predicate PopStored(before: Db, after: Db, i: string) {
    && i in before.iterators
    && var name := before.iterators[i].name;
      && (i in after.iterators ==> name in after.stored && after.stored[name] == after.iterators[i])
      && (i !in after.iterators ==> name !in after.stored)
      && forall n :: n in before.stored && n != name ==> n in after.stored && after.stored[n] == before.stored[n]
  }

  lemma PopMoves(db: Db, t: Task, it: Iter)
    requires t.phase.Done? && t.spec.command.Pop? && IdOf(it.name) == t.spec.command.id
    requires t.spec.command.id in db.iterators && Popped(it, t.spec.command.count, t.phase.changes, t.phase.reply)
    ensures PopStored(db, Commit(db, t.spec.id, t.phase.changes), t.spec.command.id)
  {
    var changes := t.phase.changes;
    assert ApplyAll(db, changes, 1) == Apply(ApplyAll(db, changes, 0), changes[0]) == Apply(db, changes[0]);
  }

  lemma CollectKeepsIterators(db: Db, held: set<Handle>)
    requires DbOk(db)
    ensures Collect(db, held).iterators == db.iterators && Collect(db, held).stored == db.stored
  {
    CollectKept(db, held);
  }

  /** The new position is stored on disk, and a list that has been read to its end is removed from there. */
  lemma PopIsStored(s: Sys, w: string)
    requires Inv(s) && Finished(s, w) && s.workers[w].task.value.phase.ok && s.workers[w].task.value.spec.command.Pop?
    ensures PopStored(s.db, ResponseStep(s, w).db, s.workers[w].task.value.spec.command.id)
  {
    var t, snap := s.workers[w].task.value, s.workers[w].snap;
    assert TaskOk(s.db, t, snap);
    CommittedOk(s, w);
    CollectKeepsIterators(Committed(s, w), HeldWithout(s, w));
    PopFound(s.db, t, snap);
    PopMoves(s.db, t, snap.iterators[t.spec.command.id]);
  }

  lemma PopFound(db: Db, t: Task, snap: Snapshot)
    requires DbOk(db) && LockedItersOk(db, t, snap) && t.phase.Done? && t.spec.command.Pop?
    requires Exact(db, t.spec, snap, t.phase.changes, t.phase.reply)
    ensures t.spec.command.id in snap.iterators && t.spec.command.id in db.iterators
    ensures IdOf(snap.iterators[t.spec.command.id].name) == t.spec.command.id
  {
    assert DbParts(db);
  }
}
