/** The choice of a compaction, in terms of the database it is made for. */
module BrokerChoice {
  import opened Core
  import opened DatabaseStates
  import opened Compaction
  import opened Broker
  import opened BrokerInvariants

  /** Different ids of working datasets that no task has locked. */
  ghost predicate GoodCandidates(db: Db, ids: seq<string>) {
    Distinct(ids) && forall i :: 0 <= i < |ids| ==> GoodCandidate(db, ids[i])
  }

  ghost predicate GoodCandidate(db: Db, id: string) {
    FindId(db.objects, db.working, |db.working|, id).Some? && CanAcquire(db, DatasetLock(id))
  }

  lemma {:induction false} FindIdFinds(objects: map<Handle, Dataset>, hs: seq<Handle>, n: nat, h: Handle)
    requires n <= |hs| && h in hs[..n] && h in objects
    ensures FindId(objects, hs, n, objects[h].Id()).Some?
  {
    if h != hs[n - 1] {
      PrefixMore(hs, n - 1);
      FindIdFinds(objects, hs, n - 1, h);
    }
  }

  lemma SameIdSame(db: Db, g: Handle, h: Handle)
    requires DbOk(db) && g in db.objects && h in db.objects && db.objects[g].Id() == db.objects[h].Id()
    ensures g == h
  {
    assert DbParts(db);
  }

  /** Every candidate is a working dataset. */
  lemma {:induction false} CandidateWorks(db: Db, n: nat, c: Candidate) returns (h: Handle)
    requires n <= |db.working| && c in CandidatesOf(db, n)
    ensures h in db.working[..n] && h in db.objects && c == CandidateOf(db.objects[h])
  {
    PrefixMore(db.working, n - 1);
    if c in CandidatesOf(db, n - 1) {
      h := CandidateWorks(db, n - 1, c);
    } else {
      h := db.working[n - 1];
    }
  }

  /** Every working dataset is a candidate. */
  lemma {:induction false} EveryWorks(db: Db, n: nat, h: Handle)
    requires n <= |db.working| && h in db.working[..n] && h in db.objects
    ensures CandidateOf(db.objects[h]) in CandidatesOf(db, n)
  {
    PrefixMore(db.working, n - 1);
    if h != db.working[n - 1] {
      EveryWorks(db, n - 1, h);
    }
  }

  /** No two candidates have the same id. */
  lemma {:induction false} CandidateOnce(db: Db, n: nat)
    requires DbOk(db) && n <= |db.working|
    ensures forall i, j :: 0 <= i < j < |CandidatesOf(db, n)| ==> CandidatesOf(db, n)[i].id != CandidatesOf(db, n)[j].id
  {
    if n > 0 {
      var init, h := CandidatesOf(db, n - 1), db.working[n - 1];
      CandidateOnce(db, n - 1);
      forall i | 0 <= i < |init| && h in db.objects ensures init[i].id != db.objects[h].Id() {
        CandidateDiffers(db, n - 1, init[i]);
      }
    }
  }

  lemma CandidateDiffers(db: Db, n: nat, c: Candidate)
    requires DbOk(db) && n < |db.working| && c in CandidatesOf(db, n) && db.working[n] in db.objects
    ensures c.id != db.objects[db.working[n]].Id()
  {
    assert DbParts(db);
    var g := CandidateWorks(db, n, c);
    if c.id == db.objects[db.working[n]].Id() {
      SameIdSame(db, g, db.working[n]);
    }
  }

  /** Of a list of candidates with different ids, the ids of a part are different too. */
  lemma PartDistinct(cs: seq<Candidate>, part: seq<Candidate>)
    requires multiset(part) <= multiset(cs) && forall i, j :: 0 <= i < j < |cs| ==> cs[i].id != cs[j].id
    ensures Distinct(IdsOf(part))
  {
    forall i, j | 0 <= i < j < |part| ensures part[i].id != part[j].id {
      if part[i].id == part[j].id {
        PartTwice(cs, part, i, j);
      }
    }
  }

  lemma TwoPlaces(cs: seq<Candidate>, c: Candidate)
    requires multiset(cs)[c] >= 2
    ensures exists k, l :: 0 <= k < l < |cs| && cs[k] == c && cs[l] == c
  {
    assert c in multiset(cs);
    var k :| 0 <= k < |cs| && cs[k] == c;
    MultisetRemoved(cs, k);
    assert c in multiset(Removed(cs, k));
    var m :| 0 <= m < |Removed(cs, k)| && Removed(cs, k)[m] == c;
    var l := if m < k then m else m + 1;
    assert cs[l] == c && l != k;
    assert if k < l then cs[k] == c && cs[l] == c else cs[l] == c && cs[k] == c;
  }

  lemma OccursTwice(part: seq<Candidate>, i: nat, j: nat)
    requires i < j < |part| && part[i] == part[j]
    ensures multiset(part)[part[i]] >= 2
  {
    MultisetRemoved(part, i);
    assert Removed(part, i)[j - 1] == part[i];
    assert part[i] in multiset(Removed(part, i));
  }

  lemma PartTwice(cs: seq<Candidate>, part: seq<Candidate>, i: nat, j: nat)
    requires multiset(part) <= multiset(cs) && i < j < |part| && part[i].id == part[j].id
    ensures exists k, l :: 0 <= k < l < |cs| && cs[k].id == cs[l].id
  {
    var c, d := part[i], part[j];
    if d == c {
      OccursTwice(part, i, j);
      TwoPlaces(cs, c);
    } else {
      assert c in multiset(cs) && d in multiset(cs);
      var k :| 0 <= k < |cs| && cs[k] == c;
      var l :| 0 <= l < |cs| && cs[l] == d;
      assert if k < l then cs[k].id == cs[l].id else cs[l].id == cs[k].id;
    }
  }

  lemma NotLocked(db: Db, id: string)
    requires !IsLocked(db.tasks, id)
    ensures CanAcquire(db, DatasetLock(id))
  {
  }

  lemma CandidateIsGood(db: Db, c: Candidate)
    requires c in CandidatesOf(db, |db.working|) && !IsLocked(db.tasks, c.id)
    ensures GoodCandidate(db, c.id)
  {
    var h := CandidateWorks(db, |db.working|, c);
    assert db.working[..|db.working|] == db.working;
    FindIdFinds(db.objects, db.working, |db.working|, h);
    NotLocked(db, c.id);
  }

  lemma PartIsGood(db: Db, part: seq<Candidate>)
    requires DbOk(db) && multiset(part) <= multiset(CandidatesOf(db, |db.working|))
    requires forall c :: c in part ==> !IsLocked(db.tasks, c.id)
    ensures GoodCandidates(db, IdsOf(part))
  {
    CandidateOnce(db, |db.working|);
    PartDistinct(CandidatesOf(db, |db.working|), part);
    forall i | 0 <= i < |part| ensures GoodCandidate(db, part[i].id) {
      assert part[i] in part && part[i] in multiset(part);
      assert part[i] in multiset(CandidatesOf(db, |db.working|));
      CandidateIsGood(db, part[i]);
    }
  }

  /** The ids are those of datasets that a compaction with these limits may choose now. */
  ghost predicate ChosenWithin(db: Db, smart: bool, ids: seq<string>, maxDatasets: nat, maxFiles: nat) {
    exists best ::
      IsBest(best, CandidatesOf(db, |db.working|), db.tasks, smart, maxDatasets, maxFiles) && ids == IdsOf(best)
  }

  /** Whatever a compaction chooses are different working datasets that nobody has locked. */
  lemma ChosenIsGood(db: Db, smart: bool, ids: seq<string>)
    requires DbOk(db) && Chosen(db, smart, ids)
    ensures GoodCandidates(db, ids)
  {
    var best, maxDatasets, maxFiles :|
      IsBest(best, CandidatesOf(db, |db.working|), db.tasks, smart, maxDatasets, maxFiles) && ids == IdsOf(best);
    if best != [] {
      PartIsGood(db, best);
    }
  }
}
