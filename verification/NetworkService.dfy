/** The event loop (`NetworkService`): each event is a step of the broker. */
module NetworkServices {
  import opened Core
  import opened DatabaseStates
  import opened Compaction
  import opened Broker
  import opened BrokerInvariants
  import opened BrokerSteps
  import opened BrokerChoice
  import opened BrokerResponse
  import opened BrokerSafety
  import opened Databases

  /** The locks that a command needs, for a compaction those of the datasets chosen. */
  predicate NeedsLocks(c: Command, ids: seq<string>, locks: seq<Lock>) {
    match c
    case Pop(id, _) => locks == [IteratorLock(id)]
    case Reindex(dataset) => locks == [DatasetLock(dataset)]
    case Taint(dataset, _, _) => locks == [DatasetLock(dataset)]
    case Compact(_) => |locks| == |ids| && forall i :: 0 <= i < |ids| ==> locks[i] == DatasetLock(ids[i])
    case _ => locks == []
  }

  /**
   * A task for the command `c` has been made, under the next id, with its locks and with a view of the
   * database as it was, and is with the worker that has waited longest. Nothing else has changed.
   */
  ghost predicate Serves(s: Sys, s': Sys, c: Command, ids: seq<string>) {
    s.queue != [] && s.queue[0] in s.workers &&
    exists locks ::
      && NeedsLocks(c, ids, locks)
      && var w, spec := s.queue[0], TaskSpec(s.db.lastTaskId + 1, c, locks);
        && w in s'.workers && s'.workers[w].task == Some(Task(spec, Running))
        && s'.workers[w].snap == Snapshot(s.db.working, s.db.iterators, s.db.tasks)
        && s'.workers == s.workers[w := s'.workers[w]] && s'.workers[w].started == s.workers[w].started
        && s'.db == s.db.(lastTaskId := spec.id, tasks := s.db.tasks[spec.id := spec])
        && s'.queue == s.queue[1..] && s'.owner == s.owner[spec.id := w] && s'.delivered == s.delivered
  }

  /** No task holds a lock that the command needs. */
  ghost predicate LocksAreFree(db: Db, c: Command, ids: seq<string>) {
    forall locks, l, k :: NeedsLocks(c, ids, locks) && l in locks && k in db.tasks ==> l !in db.tasks[k].locks
  }

  class NetworkService {
    const db: Database
    var wctxs: map<string, Worker>
    var workerQueue: seq<string>
    ghost var owner: map<nat, string>
    ghost var delivered: map<string, seq<Bytes>>

    ghost function View(): Sys
      reads this, db
    {
      Sys(db.View(), wctxs, workerQueue, owner, delivered)
    }

    constructor (db: Database, wctxs: map<string, Worker>, ghost delivered: map<string, seq<Bytes>>)
      requires db.tasks == map[] && DbOk(db.View()) && DeliveredOk(db.View(), delivered)
      requires forall w :: w in wctxs ==> !wctxs[w].started && wctxs[w].task.None?
      ensures this.db == db && Initial(View()) && Inv(View())
    {
      this.db, this.wctxs, workerQueue, owner, this.delivered := db, wctxs, [], map[], delivered;
      new;
      InitialHolds(View());
    }

    /** `poll_backend`, for a worker that reports for the first time. */
    method WorkerReady(w: string)
      requires Inv(View()) && w in wctxs && !wctxs[w].started
      modifies this
      ensures View() == ReadyStep(old(View()), w) && Inv(View())
      ensures workerQueue == old(workerQueue) + [w] && wctxs == old(wctxs)[w := old(wctxs[w]).(started := true)]
    {
      ReadyKeeps(View(), w);
      wctxs := wctxs[w := wctxs[w].(started := true)];
      workerQueue := workerQueue + [w];
    }

    /** The working datasets, as the choice of a compaction sees them. */
    method Candidates() returns (cs: seq<Candidate>)
      requires HeapOk(db.View())
      ensures cs == CandidatesOf(db.View(), |db.working|)
    {
      cs := [];
      for i := 0 to |db.working|
        invariant cs == CandidatesOf(db.View(), i)
      {
        cs := cs + [CandidateOf(db.objects[db.working[i]])];
      }
    }

    /** `dispatch_locks`: the locks a command needs; a compaction first chooses what to merge. */
    method DispatchLocks(c: Command, maxDatasets: nat, maxFiles: nat) returns (locks: seq<Lock>, ids: seq<string>)
      requires DbOk(db.View())
      ensures locks == LocksOf(c, ids)
      ensures c.Compact? ==> ChosenWithin(db.View(), c.smart, ids, maxDatasets, maxFiles) && Chosen(db.View(), c.smart, ids)
    {
      ids := [];
      if c.Compact? {
        assert DbParts(db.View());
        var cs := Candidates();
        var best, _, _ := FindCompactCandidate(cs, db.tasks, c.smart, maxDatasets, maxFiles);
        ids := IdsOf(best);
      }
      locks := LocksOf(c, ids);
    }

    /**
     * `poll_frontend`: takes a request while some worker is idle. It is accepted if its locks can be
     * had, and those of a compaction always can.
     */
    method Request(c: Command, maxDatasets: nat, maxFiles: nat) returns (accepted: bool, ghost ids: seq<string>)
      requires Inv(View()) && workerQueue != []
      modifies this, db
      ensures Step(old(View()), View()) && Inv(View())
      ensures c.Compact? ==> accepted && ChosenWithin(old(db.View()), c.smart, ids, maxDatasets, maxFiles)
      ensures accepted <==> LocksAreFree(old(db.View()), c, ids)
      ensures if accepted then Serves(old(View()), View(), c, ids) else View() == old(View())
    {
      ghost var s := View();
      var snapshot := Snapshot(db.working, db.iterators, db.tasks);
      var locks, chosen := DispatchLocks(c, maxDatasets, maxFiles);
      ids := chosen;
      RequestIsStep(s, c, ids);
      LocksFree(s.db, c, ids);
      RequestServes(s, c, ids);
      var id := db.AllocateTask(c, locks);
      accepted := id.Some?;
      if accepted {
        Assign(id.value, c, locks, snapshot, s);
      }
    }

    /** Gives a task to the worker at the head of the queue. */
    method Assign(id: nat, c: Command, locks: seq<Lock>, snapshot: Snapshot, ghost s: Sys)
      requires s.queue != [] && s.queue[0] in s.workers && id == s.db.lastTaskId + 1 && snapshot == SnapshotOf(s.db)
      requires View() == s.(db := Allocated(s.db, c, locks))
      modifies this
      ensures View() == Accepted(s, c, locks)
    {
      var w := workerQueue[0];
      workerQueue := workerQueue[1..];
      wctxs := wctxs[w := Worker(wctxs[w].started, snapshot, Some(Task(TaskSpec(id, c, locks), Running)))];
      owner := owner[id := w];
    }

    /** A worker has finished its command, having written new files at most. */
    method WorkerFinished(w: string, grown: Db, ok: bool, changes: seq<Change>, reply: seq<Bytes>)
      requires Inv(View()) && Busy(View(), w) && wctxs[w].task.value.phase.Running?
      requires Outcome(db.View(), wctxs[w].task.value.spec, wctxs[w].snap, grown, ok, changes, reply)
      modifies this, db
      ensures View() == WorkStep(old(View()), w, grown, ok, changes, reply) && Inv(View())
      ensures db.View() == grown && workerQueue == old(workerQueue)
      ensures w in wctxs && wctxs == old(wctxs)[w := wctxs[w]] && wctxs[w].snap == old(wctxs[w].snap)
      ensures wctxs[w].task == Some(Task(old(wctxs[w].task.value.spec), Done(ok, changes, reply)))
    {
      WorkKeeps(View(), w, grown, ok, changes, reply);
      Finish(w, grown, ok, changes, reply);
    }

    method Finish(w: string, grown: Db, ok: bool, changes: seq<Change>, reply: seq<Bytes>)
      requires Busy(View(), w) && DiskGrows(db.View(), grown)
      modifies this, db
      ensures View() == WorkStep(old(View()), w, grown, ok, changes, reply)
    {
      db.Grow(grown);
      wctxs := wctxs[w := wctxs[w].(task := Some(wctxs[w].task.value.(phase := Done(ok, changes, reply))))];
    }

    /** The datasets of the snapshots of all workers that have a task. */
    method WorkingSnapshots() returns (held: set<Handle>)
      ensures held == Held(View())
    {
      held := {};
      var rest, done := wctxs.Keys, {};
      while rest != {}
        invariant rest + done == wctxs.Keys
        invariant held == set v, h | v in done && v in wctxs && wctxs[v].task.Some? && h in wctxs[v].snap.datasets :: h
        decreases rest
      {
        var v :| v in rest;
        if wctxs[v].task.Some? {
          held := held + (set h | h in wctxs[v].snap.datasets);
        }
        rest, done := rest - {v}, done + {v};
      }
      assert done == wctxs.Keys;
    }

    /** `handle_response`: queues the worker, commits its task, and collects garbage. */
    method Response(w: string)
      requires Inv(View()) && Finished(View(), w)
      modifies this, db
      ensures View() == ResponseStep(old(View()), w) && Inv(View())
      ensures workerQueue == old(workerQueue) + [w] && wctxs == old(wctxs)[w := old(wctxs[w]).(task := None)]
      ensures db.tasks == old(db.tasks) - {old(wctxs[w].task.value.spec.id)} && db.lastTaskId == old(db.lastTaskId)
      ensures owner == old(owner) - {old(wctxs[w].task.value.spec.id)}
    {
      ResponseTasksOnly(View(), w);
      ResponseKeeps(View(), w);
      ResponseFacts(View(), w);
      Reply(w);
    }

    method Reply(w: string)
      requires Finished(View(), w) && CanCommit(View(), w)
      modifies this, db
      ensures View() == ResponseStep(old(View()), w)
    {
      var task := wctxs[w].task.value;
      workerQueue := workerQueue + [w];
      db.CommitTask(task.spec.id, task.phase.changes, AuthorityOf(task));
      wctxs := wctxs[w := wctxs[w].(task := None)];
      owner := owner - {task.spec.id};
      delivered := Deliver(delivered, task);
      var held := WorkingSnapshots();
      db.CollectGarbage(held);
    }
  }

  /** The changes of the worker's task are permitted, and what the other workers hold exists afterwards. */
  ghost predicate CanCommit(s: Sys, w: string)
    requires Finished(s, w)
  {
    var t := s.workers[w].task.value;
    && DbOk(s.db) && CanApply(AuthorityOf(t), s.db, t.phase.changes) && DbOk(Committed(s, w))
    && (forall h :: h in HeldWithout(s, w) ==> h in Committed(s, w).objects)
    && HeldWithout(s, w) == Held(s.(workers := s.workers[w := s.workers[w].(task := None)]))
  }

  lemma LocksFree(db: Db, c: Command, ids: seq<string>)
    ensures CanAcquireAll(db, LocksOf(c, ids)) <==> LocksAreFree(db, c, ids)
  {
    var needed := LocksOf(c, ids);
    assert NeedsLocks(c, ids, needed);
    forall locks | NeedsLocks(c, ids, locks) ensures locks == needed {
    }
    if LocksAreFree(db, c, ids) {
      forall i | 0 <= i < |needed| ensures CanAcquire(db, needed[i]) {
        assert needed[i] in needed;
      }
    }
    if CanAcquireAll(db, needed) {
      forall l | l in needed ensures CanAcquire(db, l) {
        var i :| 0 <= i < |needed| && needed[i] == l;
      }
    }
  }

  lemma RequestServes(s: Sys, c: Command, ids: seq<string>)
    requires s.queue != [] && s.queue[0] in s.workers
    ensures Serves(s, Accepted(s, c, LocksOf(c, ids)), c, ids)
  {
    var s', locks := Accepted(s, c, LocksOf(c, ids)), LocksOf(c, ids);
    assert NeedsLocks(c, ids, locks);
    assert s'.workers == s.workers[s.queue[0] := s'.workers[s.queue[0]]];
  }

  lemma RequestIsStep(s: Sys, c: Command, ids: seq<string>)
    requires Inv(s) && s.queue != [] && (c.Compact? ==> Chosen(s.db, c.smart, ids))
    ensures s.queue[0] in s.workers && Step(s, RequestStep(s, c, ids)) && Inv(RequestStep(s, c, ids))
    ensures c.Compact? ==> CanAcquireAll(s.db, LocksOf(c, ids))
  {
    assert s.queue[0] in s.queue;
    if c.Compact? {
      ChosenIsGood(s.db, c.smart, ids);
      CompactionIsNotRefused(s, c.smart, ids);
    }
    RequestKeeps(s, c, ids);
    assert IsRequest(s, RequestStep(s, c, ids));
  }

  /** Apart from the datasets and iterators, the commit erases the task. */
  lemma ResponseTasksOnly(s: Sys, w: string)
    requires Inv(s) && Finished(s, w)
    ensures var s' := ResponseStep(s, w);
      s'.db.tasks == s.db.tasks - {s.workers[w].task.value.spec.id} && s'.db.lastTaskId == s.db.lastTaskId
  {
    var t := s.workers[w].task.value;
    CommittedOk(s, w);
    assert EvolvesParts(AuthorityOf(t), s.db, ApplyAll(s.db, t.phase.changes, |t.phase.changes|));
    CollectKept(Committed(s, w), HeldWithout(s, w));
  }

  lemma ResponseFacts(s: Sys, w: string)
    requires Inv(s) && Finished(s, w)
    ensures CanCommit(s, w)
  {
    assert TaskOk(s.db, s.workers[w].task.value, s.workers[w].snap);
    CommittedOk(s, w);
    HeldExist(s, w);
    StillHeld(s, w);
  }
}
