/** Results of queries: a set of file ids, or "all files" without naming them (`QueryResult`). */
module QueryResults {
  import opened Core
  import opened Codec
  import opened SortedRuns

  /** What a result stands for. */
  datatype FileSet = Everything | Only(ids: Run)
  {
    predicate Has(x: int) {
      Everything? || x in ids
    }
  }

  /** How many of the first `n` sets hold `x`. */
  function Holding(sets: seq<FileSet>, n: nat, x: int): (r: nat)
    requires n <= |sets|
    ensures r <= n
  {
    if n == 0 then 0 else Holding(sets, n - 1, x) + (if sets[n - 1].Has(x) then 1 else 0)
  }

  /** How many of the first `n` sets are "everything". */
  function Everythings(sets: seq<FileSet>, n: nat): (r: nat)
    requires n <= |sets|
    ensures r <= n
  {
    if n == 0 then 0 else Everythings(sets, n - 1) + (if sets[n - 1].Everything? then 1 else 0)
  }

  class QueryResult {
    var results: SortedRun
    var hasEverything: bool

    ghost predicate Valid()
      reads this, results
    {
      results.Valid() && (hasEverything ==> results.Empty())
    }

    ghost function View(): FileSet
      reads this, results
    {
      if hasEverything then Everything else Only(results.Ids())
    }

    constructor FromRun(run: SortedRun)
      requires run.Valid()
      ensures Valid() && results == run && View() == Only(run.Ids())
    {
      results, hasEverything := run, false;
    }

    constructor All()
      ensures Valid() && fresh(results) && View() == Everything
    {
      results := new SortedRun.FromIds([]);
      hasEverything := true;
    }

    constructor None()
      ensures Valid() && fresh(results) && View() == Only([])
    {
      results := new SortedRun.FromIds([]);
      hasEverything := false;
    }

    predicate IsEverything()
      reads this
    {
      hasEverything
    }

    predicate IsEmpty()
      reads this, results
    {
      !hasEverything && results.Empty()
    }

    lemma IsEmptyExactly()
      requires Valid()
      ensures IsEmpty() <==> View() == Only([])
    {
      results.EmptyIsEmpty();
    }

    method DoOr(other: QueryResult)
      requires Valid() && other.Valid() && other != this && other.results != results
      modifies this, results
      ensures Valid() && (results == old(results) || fresh(results))
      ensures View().Everything? <==> old(View()).Everything? || old(other.View()).Everything?
      ensures forall x :: View().Has(x) <==> old(View()).Has(x) || old(other.View()).Has(x)
    {
      if IsEverything() || other.IsEverything() {
        hasEverything := true;
        results := new SortedRun.FromIds([]);
      } else {
        ghost var a, b := other.results.Ids(), results.Ids();
        other.results.EmptyIsEmpty();
        results.EmptyIsEmpty();
        results.DoOr(other.results);
        forall x ensures x in Join(a, b) <==> x in a || x in b {
          JoinExactly(-1, a, b, x);
        }
      }
    }

    /** The other result is moved from: afterwards this one may own its run. */
    method DoAnd(other: QueryResult)
      requires Valid() && other.Valid() && other != this && other.results != results
      modifies this, results
      ensures Valid() && (results == old(results) || results == other.results)
      ensures View().Everything? <==> old(View()).Everything? && old(other.View()).Everything?
      ensures forall x :: View().Has(x) <==> old(View()).Has(x) && old(other.View()).Has(x)
    {
      if other.IsEverything() {
      } else if IsEverything() {
        results := other.results;
        hasEverything := other.hasEverything;
      } else {
        ghost var a, b := other.results.Ids(), results.Ids();
        other.results.EmptyIsEmpty();
        results.EmptyIsEmpty();
        results.DoAnd(other.results);
        forall x ensures x in Meet(a, b) <==> x in a && x in b {
          MeetExactly(-1, a, b, x);
        }
      }
    }
  }

  // ----- at least so many of -----

  /** The sources are sound and keep their ids in `runs`. */
  ghost predicate Sound(sources: seq<QueryResult>, runs: set<SortedRun>)
    reads sources, runs
  {
    forall k :: 0 <= k < |sources| ==> sources[k].results in runs && sources[k].Valid()
  }

  ghost function Views(sources: seq<QueryResult>, runs: set<SortedRun>): (sets: seq<FileSet>)
    requires Sound(sources, runs)
    reads sources, runs
    ensures |sets| == |sources| && forall k :: 0 <= k < |sources| ==> sets[k] == sources[k].View()
  {
    seq(|sources|, k requires 0 <= k < |sources| && Sound(sources, runs) reads sources, runs => sources[k].View())
  }

  /** `lists` are the sets among the first `n` that are neither empty nor everything. */
  ghost predicate Nontrivial(sets: seq<FileSet>, n: nat, lists: seq<Run>)
    requires n <= |sets|
  {
    && (forall x :: Holding(sets, n, x) == Everythings(sets, n) + Occurrences(lists, |lists|, x))
    && |lists| + Everythings(sets, n) <= n
  }

  lemma NontrivialMore(sets: seq<FileSet>, n: nat, lists: seq<Run>)
    requires n < |sets| && Nontrivial(sets, n, lists)
    ensures sets[n].Everything? || sets[n] == Only([]) ==> Nontrivial(sets, n + 1, lists)
    ensures sets[n].Only? ==> Nontrivial(sets, n + 1, lists + [sets[n].ids])
  {
    if sets[n].Only? {
      var more := lists + [sets[n].ids];
      forall x ensures Holding(sets, n + 1, x) == Everythings(sets, n + 1) + Occurrences(more, |more|, x) {
        OccurrencesMore(lists, sets[n].ids, x);
      }
    }
  }

  /** The sources worth merging. */
  method NontrivialSources(sources: seq<QueryResult>, cutoff: int, ghost runs: set<SortedRun>)
    returns (nontrivial: seq<SortedRun>, cutoff': int)
    requires Sound(sources, runs)
    ensures forall r :: r in nontrivial ==> r in runs
    ensures AllValid(nontrivial) && Nontrivial(Views(sources, runs), |sources|, IdsOf(nontrivial))
    ensures cutoff' == cutoff - Everythings(Views(sources, runs), |sources|)
  {
    nontrivial, cutoff' := [], cutoff;
    ghost var sets, lists: seq<Run> := Views(sources, runs), [];
    for k := 0 to |sources|
      invariant |nontrivial| == |lists|
      invariant forall j :: 0 <= j < |nontrivial| ==> nontrivial[j].Valid() && lists[j] == nontrivial[j].Ids()
      invariant forall r :: r in nontrivial ==> r in runs
      invariant Nontrivial(sets, k, lists)
      invariant cutoff' == cutoff - Everythings(sets, k)
    {
      var source := sources[k];
      source.IsEmptyExactly();
      NontrivialMore(sets, k, lists);
      if source.IsEverything() {
        cutoff' := cutoff' - 1;
      } else if !source.IsEmpty() {
        nontrivial := nontrivial + [source.results];
        lists := lists + [sets[k].ids];
      }
    }
    assert IdsOf(nontrivial) == lists;
  }

  /** `ids` are those that at least `cutoff` of the first `n` lists hold. */
  ghost predicate AtLeast(ids: Run, lists: seq<Run>, n: nat, cutoff: nat)
    requires n <= |lists|
  {
    forall x :: x in ids <==> Occurrences(lists, n, x) >= cutoff
  }

  lemma FirstList(lists: seq<Run>)
    requires lists != []
    ensures AtLeast(lists[0], lists, 1, 1)
  {
    forall x ensures x in lists[0] <==> Occurrences(lists, 1, x) >= 1 {
      assert Occurrences(lists, 1, x) == Occurrences(lists, 0, x) + (if x in lists[0] then 1 else 0);
    }
  }

  lemma MeetMore(lists: seq<Run>, n: nat, ids: Run)
    requires n < |lists| && AscendingFrom(-1, lists[n]) && AscendingFrom(-1, ids) && AtLeast(ids, lists, n, n)
    ensures AtLeast(Meet(lists[n], ids), lists, n + 1, n + 1)
  {
    forall x ensures x in Meet(lists[n], ids) <==> Occurrences(lists, n + 1, x) >= n + 1 {
      MeetExactly(-1, lists[n], ids, x);
    }
  }

  lemma JoinMore(lists: seq<Run>, n: nat, ids: Run)
    requires n < |lists| && AscendingFrom(-1, lists[n]) && AscendingFrom(-1, ids) && AtLeast(ids, lists, n, 1)
    ensures AtLeast(Join(lists[n], ids), lists, n + 1, 1)
  {
    forall x ensures x in Join(lists[n], ids) <==> Occurrences(lists, n + 1, x) >= 1 {
      JoinExactly(-1, lists[n], ids, x);
    }
  }

  /** The reduction of "all of" to AND. */
  method MeetAll(sources: seq<SortedRun>) returns (out: SortedRun)
    requires sources != [] && AllValid(sources)
    ensures fresh(out) && out.Valid()
    ensures forall x :: x in out.Ids() <==> Occurrences(IdsOf(sources), |sources|, x) >= |sources|
  {
    out := sources[0].Clone();
    ghost var lists := IdsOf(sources);
    FirstList(lists);
    for i := 1 to |sources|
      invariant fresh(out) && out.Valid()
      invariant AtLeast(out.Ids(), lists, i, i)
    {
      sources[i].EmptyIsEmpty();
      out.EmptyIsEmpty();
      MeetMore(lists, i, out.Ids());
      out.DoAnd(sources[i]);
    }
  }

  /** The reduction of "one of" to OR. */
  method JoinAll(sources: seq<SortedRun>) returns (out: SortedRun)
    requires sources != [] && AllValid(sources)
    ensures fresh(out) && out.Valid()
    ensures forall x :: x in out.Ids() <==> Occurrences(IdsOf(sources), |sources|, x) >= 1
  {
    out := sources[0].Clone();
    ghost var lists := IdsOf(sources);
    FirstList(lists);
    for i := 1 to |sources|
      invariant fresh(out) && out.Valid()
      invariant AtLeast(out.Ids(), lists, i, 1)
    {
      sources[i].EmptyIsEmpty();
      out.EmptyIsEmpty();
      JoinMore(lists, i, out.Ids());
      out.DoOr(sources[i]);
    }
  }

  /** What "at least `cutoff` of" these sets must be. */
  ghost predicate IsMinOf(r: FileSet, cutoff: int, sets: seq<FileSet>) {
    && (r.Everything? <==> Everythings(sets, |sets|) >= cutoff)
    && forall x :: r.Has(x) <==> Holding(sets, |sets|, x) >= cutoff
  }

  /** `do_min_of_real`: exactly the ids in at least `cutoff` of the sources. */
  method DoMinOf(cutoff: int, sources: seq<QueryResult>, ghost runs: set<SortedRun>) returns (r: QueryResult)
    requires Sound(sources, runs)
    modifies runs
    ensures fresh(r) && fresh(r.results) && r.Valid()
    ensures IsMinOf(r.View(), cutoff, old(Views(sources, runs)))
  {
    var nontrivial, left := NontrivialSources(sources, cutoff, runs);
    if left <= 0 {
      r := new QueryResult.All();
    } else if left > |nontrivial| {
      r := new QueryResult.None();
    } else {
      var out := MinOfRuns(left, nontrivial);
      r := new QueryResult.FromRun(out);
    }
  }

  /** The case where the cutoff is neither trivially met nor out of reach. */
  method MinOfRuns(cutoff: nat, nontrivial: seq<SortedRun>) returns (out: SortedRun)
    requires AllValid(nontrivial) && 1 <= cutoff <= |nontrivial|
    modifies nontrivial
    ensures fresh(out) && out.Valid()
    ensures forall x :: x in out.Ids() <==> Occurrences(old(IdsOf(nontrivial)), |nontrivial|, x) >= cutoff
  {
    if cutoff == |nontrivial| {
      out := MeetAll(nontrivial);
    } else if cutoff == 1 {
      out := JoinAll(nontrivial);
    } else {
      out := PickCommon(cutoff, nontrivial);
    }
  }
}
