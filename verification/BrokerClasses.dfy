/** The datasets of a compaction keep the same taints and index types, so the checks of its merge pass. */
module BrokerClasses {
  import opened Core
  import opened DatabaseStates
  import opened Compaction
  import opened Broker
  import opened BrokerInvariants
  import opened BrokerSteps
  import opened BrokerChoice
  import opened BrokerResponse
  import opened BrokerSafety
  import opened BrokerCompaction

  /** The datasets that a compaction has locked are alike. */
  ghost predicate LockedAlike(s: Sys) {
    forall w :: Compacts(s, w) ==> MergesAlike(s, w)
  }

  ghost predicate MergesAlike(s: Sys, w: string)
    requires Compacts(s, w)
  {
    Merged(s, w).Some? && Alike(s.db.objects, Merged(s, w).value)
  }

  // ----- the choice -----

  /** The dataset found by the id of a candidate is the one that the candidate describes. */
  lemma FoundIsCandidate(db: Db, c: Candidate, h: Handle)
    requires DbOk(db) && c in CandidatesOf(db, |db.working|) && h in db.objects && db.objects[h].Id() == c.id
    ensures c.cls == Class(db.objects[h].taints, db.objects[h].types)
  {
    var g := CandidateWorks(db, |db.working|, c);
    SameIdSame(db, g, h);
  }

  lemma FoundAlike(db: Db, best: seq<Candidate>, found: seq<Handle>, cls: Class)
    requires DbOk(db) && AreFound(db.objects, found, IdsOf(best), |best|)
    requires forall c :: c in best ==> c.cls == cls && c in CandidatesOf(db, |db.working|)
    ensures Alike(db.objects, found)
  {
    forall h | h in found ensures h in db.objects && Class(db.objects[h].taints, db.objects[h].types) == cls {
      var i :| 0 <= i < |found| && found[i] == h;
      assert best[i] in best;
      FoundIsCandidate(db, best[i], h);
    }
  }

  lemma NewAlike(db: Db, smart: bool, ids: seq<string>)
    requires DbOk(db) && Chosen(db, smart, ids)
    ensures var r := Locked(db.objects, db.working, DatasetLocks(ids), |ids|); r.Some? && Alike(db.objects, r.value)
  {
    NewLockedWork(db, smart, ids);
    LockedIds(db.objects, db.working, ids, |ids|);
    var best: seq<Candidate>, maxDatasets: nat, maxFiles: nat :|
      IsBest(best, CandidatesOf(db, |db.working|), db.tasks, smart, maxDatasets, maxFiles) && ids == IdsOf(best);
    var found := Locked(db.objects, db.working, DatasetLocks(ids), |ids|).value;
    if best != [] {
      forall c | c in best ensures c in CandidatesOf(db, |db.working|) {
        assert c in multiset(best) && c in multiset(CandidatesOf(db, |db.working|));
      }
      FoundAlike(db, best, found, best[0].cls);
    }
  }

  lemma FoundFiles(db: Db, c: Candidate, h: Handle)
    requires DbOk(db) && c in CandidatesOf(db, |db.working|) && h in db.objects && db.objects[h].Id() == c.id
    ensures c.files == |db.objects[h].files|
  {
    var g := CandidateWorks(db, |db.working|, c);
    SameIdSame(db, g, h);
  }

  lemma {:induction false} FilesFound(db: Db, best: seq<Candidate>, found: seq<Handle>, n: nat)
    requires DbOk(db) && AreFound(db.objects, found, IdsOf(best), |best|) && n <= |best|
    requires forall c :: c in best ==> c in CandidatesOf(db, |db.working|)
    ensures n <= |found| && |FilesOf(db.objects, found, n)| == Files(best, n)
  {
    if n > 0 {
      FilesFound(db, best, found, n - 1);
      assert best[n - 1] in best;
      FoundFiles(db, best[n - 1], found[n - 1]);
    }
  }

  /** A compaction merges no more datasets, and no more files, than it is allowed to. */
  lemma ChosenFits(db: Db, smart: bool, ids: seq<string>, maxDatasets: nat, maxFiles: nat)
    requires DbOk(db) && ChosenWithin(db, smart, ids, maxDatasets, maxFiles)
    ensures ids == [] || 2 <= |ids| <= maxDatasets
    ensures var r := Locked(db.objects, db.working, DatasetLocks(ids), |ids|);
      r.Some? && |r.value| == |ids| && (ids != [] ==> |FilesOf(db.objects, r.value, |ids|)| <= maxFiles)
  {
    var best: seq<Candidate> :|
      IsBest(best, CandidatesOf(db, |db.working|), db.tasks, smart, maxDatasets, maxFiles) && ids == IdsOf(best);
    assert Chosen(db, smart, ids);
    NewLockedWork(db, smart, ids);
    LockedIds(db.objects, db.working, ids, |ids|);
    var found := Locked(db.objects, db.working, DatasetLocks(ids), |ids|).value;
    if best != [] {
      forall c | c in best ensures c in CandidatesOf(db, |db.working|) {
        assert c in multiset(best) && c in multiset(CandidatesOf(db, |db.working|));
      }
      FilesFound(db, best, found, |best|);
    }
  }

  /** Two datasets in use can be merged: nobody has locked them, and they are of one class. */
  ghost predicate PairMergeable(db: Db, g: Handle, h: Handle) {
    && g != h && g in db.working && h in db.working && g in db.objects && h in db.objects
    && db.objects[g].taints == db.objects[h].taints && db.objects[g].types == db.objects[h].types
    && CanAcquire(db, DatasetLock(db.objects[g].Id())) && CanAcquire(db, DatasetLock(db.objects[h].Id()))
  }

  lemma PairIsPart(cs: seq<Candidate>, a: Candidate, b: Candidate)
    requires a != b && a in cs && b in cs
    ensures multiset([a, b]) <= multiset(cs)
  {
    assert a in multiset(cs) && b in multiset(cs);
  }

  /** In full mode something is compacted whenever two datasets can be merged within the limits. */
  lemma CompactsIfPossible(db: Db, ids: seq<string>, maxDatasets: nat, maxFiles: nat, g: Handle, h: Handle)
    requires DbOk(db) && ChosenWithin(db, false, ids, maxDatasets, maxFiles) && PairMergeable(db, g, h)
    requires 2 <= maxDatasets && |db.objects[g].files| + |db.objects[h].files| <= maxFiles
    ensures ids != []
  {
    var cs, a, b := CandidatesOf(db, |db.working|), CandidateOf(db.objects[g]), CandidateOf(db.objects[h]);
    assert db.working[..|db.working|] == db.working;
    EveryWorks(db, |db.working|, g);
    EveryWorks(db, |db.working|, h);
    if a.id == b.id {
      SameIdSame(db, g, h);
    }
    var best: seq<Candidate> :| IsBest(best, cs, db.tasks, false, maxDatasets, maxFiles) && ids == IdsOf(best);
    PairIsChosen(best, cs, db.tasks, a, b, maxDatasets, maxFiles);
  }

  lemma PairIsChosen(best: seq<Candidate>, cs: seq<Candidate>, tasks: map<nat, TaskSpec>, a: Candidate, b: Candidate,
      maxDatasets: nat, maxFiles: nat)
    requires IsBest(best, cs, tasks, false, maxDatasets, maxFiles) && a != b && a in cs && b in cs && a.cls == b.cls
    requires !IsLocked(tasks, a.id) && !IsLocked(tasks, b.id) && 2 <= maxDatasets && a.files + b.files <= maxFiles
    ensures best != []
  {
    PairIsPart(cs, a, b);
    assert Files([a, b], 2) == Files([a, b], 1) + b.files == a.files + b.files;
    assert Mergeable([a, b], a.cls, cs, tasks, false, maxDatasets, maxFiles);
    assert best == [] ==> AtMost(1, a.cls, cs, tasks, false, maxDatasets, maxFiles);
  }

  // ----- the steps -----

  ghost predicate SameClasses(objects: map<Handle, Dataset>, objects': map<Handle, Dataset>, hs: seq<Handle>) {
    forall h :: h in hs && h in objects ==>
      h in objects' && objects'[h].taints == objects[h].taints && objects'[h].types == objects[h].types
  }

  lemma SetAlike(objects: map<Handle, Dataset>, objects': map<Handle, Dataset>, hs: seq<Handle>)
    requires Alike(objects, hs) && SameClasses(objects, objects', hs)
    ensures Alike(objects', hs)
  {
  }

  lemma AlikeStays(s: Sys, s': Sys, w: string)
    requires Inv(s) && Compacts(s, w) && Compacts(s', w) && s'.workers[w].snap == s.workers[w].snap
    requires s'.workers[w].task.value.spec == s.workers[w].task.value.spec && MergesAlike(s, w)
    requires SameSets(s.db.objects, s'.db.objects, s.workers[w].snap.datasets)
    requires SameClasses(s.db.objects, s'.db.objects, Merged(s, w).value)
    ensures MergesAlike(s', w)
  {
    MergedStays(s, s', w);
    SetAlike(s.db.objects, s'.db.objects, Merged(s, w).value);
  }

  lemma ReadyAlike(s: Sys, w: string)
    requires Inv(s) && LockedAlike(s) && w in s.workers && !s.workers[w].started
    ensures LockedAlike(ReadyStep(s, w))
  {
    var s' := ReadyStep(s, w);
    forall v | Compacts(s', v) ensures MergesAlike(s', v) {
      assert Compacts(s, v);
      SnapSame(s, s', v);
      AlikeStays(s, s', v);
    }
  }

  lemma WorkAlike(s: Sys, s': Sys, w: string, ok: bool, changes: seq<Change>, reply: seq<Bytes>)
    requires Inv(s) && LockedAlike(s) && WorksBy(s, s', w, ok, changes, reply)
    ensures LockedAlike(s')
  {
    forall v | Compacts(s', v) ensures MergesAlike(s', v) {
      assert Compacts(s, v);
      SnapSame(s, s', v);
      AlikeStays(s, s', v);
    }
  }

  lemma RequestAlike(s: Sys, c: Command, candidates: seq<string>)
    requires Inv(s) && LockedAlike(s) && s.queue != [] && s.queue[0] in s.workers
    requires c.Compact? ==> Chosen(s.db, c.smart, candidates)
    ensures LockedAlike(RequestStep(s, c, candidates))
  {
    var s', w := RequestStep(s, c, candidates), s.queue[0];
    if s' != s {
      forall v | Compacts(s', v) ensures MergesAlike(s', v) {
        if v == w {
          NewAlike(s.db, c.smart, candidates);
        } else {
          assert Compacts(s, v);
          SnapSame(s, s', v);
          AlikeStays(s, s', v);
        }
      }
    }
  }

  /** A commit changes the taints of a dataset only under its lock. */
  lemma CommitSameClass(s: Sys, w: string, h: Handle)
    requires Inv(s) && Finished(s, w) && h in s.db.objects
    requires DatasetLock(s.db.objects[h].Id()) !in s.workers[w].task.value.spec.locks
    ensures h in Committed(s, w).objects
    ensures var d, e := s.db.objects[h], Committed(s, w).objects[h]; e.taints == d.taints && e.types == d.types
  {
    var t := s.workers[w].task.value;
    assert TaskOk(s.db, t, s.workers[w].snap);
    CommittedOk(s, w);
    assert EvolvesParts(AuthorityOf(t), s.db, ApplyAll(s.db, t.phase.changes, |t.phase.changes|));
  }

  lemma ResponseSameClasses(s: Sys, w: string, v: string)
    requires Inv(s) && Finished(s, w) && Compacts(s, v) && v != w && Merged(s, v).Some?
    ensures SameClasses(s.db.objects, ResponseStep(s, w).db.objects, Merged(s, v).value)
  {
    var locks, hs := s.workers[v].task.value.spec.locks, s.workers[v].snap.datasets;
    OwnLocks(s, w, v);
    ResponseSameSets(s, w, v);
    CommittedOk(s, w);
    CollectKept(Committed(s, w), HeldWithout(s, w));
    forall h | h in Merged(s, v).value
      ensures h in ResponseStep(s, w).db.objects && ResponseStep(s, w).db.objects[h] == Committed(s, w).objects[h]
      ensures h in s.db.objects && DatasetLock(s.db.objects[h].Id()) !in s.workers[w].task.value.spec.locks
    {
      LockedHasLock(s.db.objects, hs, locks, |locks|, h);
    }
    forall h | h in Merged(s, v).value ensures SameClasses(s.db.objects, ResponseStep(s, w).db.objects, [h]) {
      CommitSameClass(s, w, h);
    }
  }

  lemma ResponseAlike(s: Sys, w: string)
    requires Inv(s) && LockedAlike(s) && Finished(s, w)
    ensures LockedAlike(ResponseStep(s, w))
  {
    var s' := ResponseStep(s, w);
    forall v | Compacts(s', v) ensures MergesAlike(s', v) {
      assert v != w && Compacts(s, v);
      ResponseSameSets(s, w, v);
      ResponseSameClasses(s, w, v);
      AlikeStays(s, s', v);
    }
  }

  /** Every step keeps the datasets of all compactions alike. */
  lemma LockedAlikeKeeps(s: Sys, s': Sys)
    requires Inv(s) && LockedAlike(s) && Step(s, s')
    ensures LockedAlike(s')
  {
    if IsReady(s, s') {
      var w :| w in s.workers && !s.workers[w].started && s' == ReadyStep(s, w);
      ReadyAlike(s, w);
    } else if IsRequest(s, s') {
      var c: Command, candidates: seq<string> :|
        (c.Compact? ==> Chosen(s.db, c.smart, candidates)) && s' == RequestStep(s, c, candidates);
      RequestAlike(s, c, candidates);
    } else if IsWork(s, s') {
      var w, ok, changes, reply :| WorksBy(s, s', w, ok, changes, reply);
      WorkAlike(s, s', w, ok, changes, reply);
    } else {
      var w :| Finished(s, w) && s' == ResponseStep(s, w);
      ResponseAlike(s, w);
    }
  }

  lemma {:induction false} RunKeepsAlike(run: seq<Sys>, i: nat)
    requires i < |run| && IsRun(run) && Initial(run[0])
    ensures Inv(run[i]) && LockedAlike(run[i])
  {
    InitialHolds(run[0]);
    RunKeeps(run, i);
    if i > 0 {
      RunKeepsAlike(run, i - 1);
      assert Step(run[i - 1], run[i - 1 + 1]);
      LockedAlikeKeeps(run[i - 1], run[i]);
    }
  }

  /**
   * In every run, whatever is dropped or tainted meanwhile: when a compaction works, all datasets it has
   * locked are in its snapshot and have the same taints and index types.
   */
  lemma CompactionChecksPass(run: seq<Sys>, i: nat, w: string)
    requires i < |run| && IsRun(run) && Initial(run[0]) && Compacts(run[i], w)
    ensures Merged(run[i], w).Some? && Alike(run[i].db.objects, Merged(run[i], w).value)
  {
    RunKeepsAlike(run, i);
    assert MergesAlike(run[i], w);
  }
}
