/** Running a query (`Query::run`): short circuits and all, it is plain set arithmetic. */
module QueryRun {
  import opened Core
  import opened Codec
  import opened Queries
  import opened SortedRuns
  import opened QueryResults

  type NgramQuery = Query<PrimitiveQuery>

  /** The stored runs of all n-grams. */
  type RunSource = PrimitiveQuery -> Bytes

  /** The runs of the n-grams of these types are well formed; others are never asked for. */
  ghost predicate AllCanonical(prim: RunSource, types: set<IndexType>) {
    forall g: PrimitiveQuery :: g.itype in types ==> Canonical(prim(g))
  }

  /** The n-grams whose runs list file `x`. */
  function Contains(prim: RunSource, x: int): PrimitiveQuery -> bool {
    (g: PrimitiveQuery) => x in DecodeRun(prim(g))
  }

  /** The n-grams of a file that contains none. */
  function Nowhere(): PrimitiveQuery -> bool {
    (g: PrimitiveQuery) => false
  }

  /** `view` is "everything" if the query holds in any file whatever, and has just the files in which it holds. */
  ghost predicate Answers(q: NgramQuery, prim: RunSource, view: FileSet) {
    && (view.Everything? <==> Holds(q, Nowhere()))
    && forall x :: view.Has(x) <==> Holds(q, Contains(prim, x))
  }

  // ----- AND and OR -----

  lemma AndMore(qs: seq<NgramQuery>, k: nat, prim: RunSource, before: FileSet, next: FileSet, after: FileSet)
    requires k < |qs| && Answers(And(qs[..k]), prim, before) && Answers(qs[k], prim, next)
    requires after.Everything? <==> before.Everything? && next.Everything?
    requires forall x :: after.Has(x) <==> before.Has(x) && next.Has(x)
    ensures Answers(And(qs[..k + 1]), prim, after)
  {
    AndSplit(qs, k, Nowhere());
    forall x ensures after.Has(x) <==> Holds(And(qs[..k + 1]), Contains(prim, x)) {
      AndSplit(qs, k, Contains(prim, x));
    }
  }

  lemma AndSplit(qs: seq<NgramQuery>, k: nat, p: PrimitiveQuery -> bool)
    requires k < |qs|
    ensures Holds(And(qs[..k + 1]), p) <==> Holds(And(qs[..k]), p) && Holds(qs[k], p)
  {
    var a, b := qs[..k], qs[..k + 1];
    assert forall i :: 0 <= i < k ==> a[i] == b[i];
    assert b[k] == qs[k];
  }

  lemma AndPrefix(qs: seq<NgramQuery>, k: nat, p: PrimitiveQuery -> bool)
    requires k <= |qs| && Holds(And(qs), p)
    ensures Holds(And(qs[..k]), p)
  {
  }

  /** Once the result is empty it stays so. */
  lemma AndEmpty(qs: seq<NgramQuery>, k: nat, prim: RunSource)
    requires k <= |qs| && Answers(And(qs[..k]), prim, Only([]))
    ensures Answers(And(qs), prim, Only([]))
  {
    if Holds(And(qs), Nowhere()) {
      AndPrefix(qs, k, Nowhere());
    }
    forall x ensures !Holds(And(qs), Contains(prim, x)) {
      assert !Only([]).Has(x);
      if Holds(And(qs), Contains(prim, x)) {
        AndPrefix(qs, k, Contains(prim, x));
      }
    }
  }

  lemma OrMore(qs: seq<NgramQuery>, k: nat, prim: RunSource, before: FileSet, next: FileSet, after: FileSet)
    requires k < |qs| && Answers(Or(qs[..k]), prim, before) && Answers(qs[k], prim, next)
    requires after.Everything? <==> before.Everything? || next.Everything?
    requires forall x :: after.Has(x) <==> before.Has(x) || next.Has(x)
    ensures Answers(Or(qs[..k + 1]), prim, after)
  {
    OrSplit(qs, k, Nowhere());
    forall x ensures after.Has(x) <==> Holds(Or(qs[..k + 1]), Contains(prim, x)) {
      OrSplit(qs, k, Contains(prim, x));
    }
  }

  lemma OrSplit(qs: seq<NgramQuery>, k: nat, p: PrimitiveQuery -> bool)
    requires k < |qs|
    ensures Holds(Or(qs[..k + 1]), p) <==> Holds(Or(qs[..k]), p) || Holds(qs[k], p)
  {
    var a, b := qs[..k], qs[..k + 1];
    assert forall i :: 0 <= i < k ==> a[i] == b[i];
    assert b[k] == qs[k];
  }

  lemma OrPrefix(qs: seq<NgramQuery>, k: nat, p: PrimitiveQuery -> bool)
    requires k <= |qs| && Holds(Or(qs[..k]), p)
    ensures Holds(Or(qs), p)
  {
    var a := qs[..k];
    var i :| 0 <= i < k && Holds(a[i], p);
    assert Holds(qs[i], p);
  }

  /** Once the result is everything it stays so. */
  lemma OrEverything(qs: seq<NgramQuery>, k: nat, prim: RunSource)
    requires k <= |qs| && Answers(Or(qs[..k]), prim, Everything)
    ensures Answers(Or(qs), prim, Everything)
  {
    OrPrefix(qs, k, Nowhere());
    forall x ensures Holds(Or(qs), Contains(prim, x)) {
      assert Everything.Has(x);
      OrPrefix(qs, k, Contains(prim, x));
    }
  }

  // ----- MIN_OF -----

  /**
   * What is known after the first `k` subqueries: `sets` are the results kept, `every` the number of
   * those dropped because they were everything, and `empty` of those dropped because they were empty.
   */
  ghost predicate Scanned(qs: seq<NgramQuery>, k: nat, prim: RunSource, sets: seq<FileSet>, every: nat, empty: nat)
    requires k <= |qs|
  {
    && Tally(qs, k, Nowhere()) == every
    && Everythings(sets, |sets|) == 0
    && |sets| + every + empty == k
    && forall x :: Tally(qs, k, Contains(prim, x)) == every + Holding(sets, |sets|, x)
  }

  /** `views` are the results of the first `|views|` subqueries. */
  ghost predicate AllAnswer(qs: seq<NgramQuery>, prim: RunSource, views: seq<FileSet>) {
    |views| <= |qs| && forall i :: 0 <= i < |views| ==> Answers(qs[i], prim, views[i])
  }

  /** How many of the first `n` results are empty. */
  function Empties(views: seq<FileSet>, n: nat): nat
    requires n <= |views|
  {
    if n == 0 then 0 else Empties(views, n - 1) + (if views[n - 1] == Only([]) then 1 else 0)
  }

  /** Those of the first `n` results that are neither empty nor everything. */
  function Proper(views: seq<FileSet>, n: nat): seq<FileSet>
    requires n <= |views|
  {
    if n == 0 then []
    else Proper(views, n - 1) + (if views[n - 1].Everything? || views[n - 1] == Only([]) then [] else [views[n - 1]])
  }

  /** Only the first `n` results matter. */
  lemma {:induction false} ViewsPrefix(a: seq<FileSet>, b: seq<FileSet>, n: nat)
    requires n <= |a| && n <= |b| && forall i :: 0 <= i < n ==> a[i] == b[i]
    ensures Everythings(a, n) == Everythings(b, n) && Empties(a, n) == Empties(b, n) && Proper(a, n) == Proper(b, n)
  {
    if n > 0 {
      ViewsPrefix(a, b, n - 1);
    }
  }

  lemma ViewsMore(views: seq<FileSet>, view: FileSet)
    ensures var more, n := views + [view], |views|;
      && Everythings(more, n + 1) == Everythings(views, n) + (if view.Everything? then 1 else 0)
      && Empties(more, n + 1) == Empties(views, n) + (if view == Only([]) then 1 else 0)
      && Proper(more, n + 1) == Proper(views, n) + (if view.Everything? || view == Only([]) then [] else [view])
  {
    ViewsPrefix(views + [view], views, |views|);
  }

  lemma AllAnswerMore(qs: seq<NgramQuery>, prim: RunSource, views: seq<FileSet>, view: FileSet)
    requires AllAnswer(qs, prim, views) && |views| < |qs| && Answers(qs[|views|], prim, view)
    ensures AllAnswer(qs, prim, views + [view])
  {
  }

  /** What the results of the first `n` subqueries say about the whole query. */
  lemma {:induction false} ViewsScanned(qs: seq<NgramQuery>, n: nat, prim: RunSource, views: seq<FileSet>)
    requires AllAnswer(qs, prim, views) && n <= |views|
    ensures Scanned(qs, n, prim, Proper(views, n), Everythings(views, n), Empties(views, n))
  {
    if n > 0 {
      ViewsScanned(qs, n - 1, prim, views);
      var before := Proper(views, n - 1);
      assert before + [] == before;
      ScannedMore(qs, n - 1, prim, before, Everythings(views, n - 1), Empties(views, n - 1), views[n - 1]);
    }
  }

  lemma ScannedMore(qs: seq<NgramQuery>, k: nat, prim: RunSource, sets: seq<FileSet>, every: nat, empty: nat, next: FileSet)
    requires k < |qs| && Scanned(qs, k, prim, sets, every, empty) && Answers(qs[k], prim, next)
    ensures next.Everything? ==> Scanned(qs, k + 1, prim, sets, every + 1, empty)
    ensures next == Only([]) ==> Scanned(qs, k + 1, prim, sets, every, empty + 1)
    ensures next.Only? ==> Scanned(qs, k + 1, prim, sets + [next], every, empty)
  {
    forall x ensures Tally(qs, k + 1, Contains(prim, x)) == Tally(qs, k, Contains(prim, x)) + (if next.Has(x) then 1 else 0) {
    }
    forall x ensures Holding(sets + [next], |sets| + 1, x) == Holding(sets, |sets|, x) + (if next.Has(x) then 1 else 0) {
      HoldingPrefix(sets + [next], sets, |sets|, x);
    }
    ViewsPrefix(sets + [next], sets, |sets|);
    if next.Everything? {
      assert forall x :: next.Has(x);
    }
    if next == Only([]) {
      assert forall x :: !next.Has(x);
    }
  }

  lemma {:induction false} HoldingPrefix(a: seq<FileSet>, b: seq<FileSet>, n: nat, x: int)
    requires n <= |a| && n <= |b| && forall i :: 0 <= i < n ==> a[i] == b[i]
    ensures Holding(a, n, x) == Holding(b, n, x)
  {
    if n > 0 {
      HoldingPrefix(a, b, n - 1, x);
    }
  }

  /** The subqueries after the first `k` can each add one, no more. */
  lemma {:induction false} TallyBounds(qs: seq<NgramQuery>, k: nat, n: nat, p: PrimitiveQuery -> bool)
    requires k <= n <= |qs|
    ensures Tally(qs, k, p) <= Tally(qs, n, p) <= Tally(qs, k, p) + n - k
  {
    if k < n {
      TallyBounds(qs, k, n - 1, p);
    }
  }

  /** Enough subqueries are everything. */
  lemma EnoughEverything(q: NgramQuery, views: seq<FileSet>, prim: RunSource)
    requires q.MinOf? && AllAnswer(q.queries, prim, views) && q.count <= Everythings(views, |views|)
    ensures Answers(q, prim, Everything)
  {
    var k, qs := |views|, q.queries;
    ViewsScanned(qs, k, prim, views);
    MinOfHolds(q.count, qs, Nowhere());
    TallyBounds(qs, k, |qs|, Nowhere());
    forall x ensures Holds(q, Contains(prim, x)) {
      MinOfHolds(q.count, qs, Contains(prim, x));
      TallyBounds(qs, k, |qs|, Contains(prim, x));
      assert Tally(qs, k, Contains(prim, x)) >= Everythings(views, k);
    }
  }

  /** Too many subqueries are empty. */
  lemma TooManyEmpty(q: NgramQuery, views: seq<FileSet>, prim: RunSource)
    requires q.MinOf? && AllAnswer(q.queries, prim, views)
    requires q.count - Everythings(views, |views|) > |q.queries| - Empties(views, |views|)
    ensures Answers(q, prim, Only([]))
  {
    var k, qs := |views|, q.queries;
    ViewsScanned(qs, k, prim, views);
    MinOfHolds(q.count, qs, Nowhere());
    TallyBounds(qs, k, |qs|, Nowhere());
    forall x ensures !Holds(q, Contains(prim, x)) {
      MinOfHolds(q.count, qs, Contains(prim, x));
      TallyBounds(qs, k, |qs|, Contains(prim, x));
      assert Tally(qs, k, Contains(prim, x)) <= k - Empties(views, k);
    }
  }

  lemma AllScanned(q: NgramQuery, views: seq<FileSet>, prim: RunSource, r: FileSet)
    requires q.MinOf? && AllAnswer(q.queries, prim, views) && |views| == |q.queries|
    requires IsMinOf(r, q.count - Everythings(views, |views|), Proper(views, |views|))
    ensures Answers(q, prim, r)
  {
    var k, qs := |views|, q.queries;
    ViewsScanned(qs, k, prim, views);
    MinOfHolds(q.count, qs, Nowhere());
    forall x ensures r.Has(x) <==> Holds(q, Contains(prim, x)) {
      MinOfHolds(q.count, qs, Contains(prim, x));
      assert Tally(qs, k, Contains(prim, x)) == Everythings(views, k) + Holding(Proper(views, k), |Proper(views, k)|, x);
    }
  }

  // ----- the interpreter -----

  method Run(q: NgramQuery, prim: RunSource, ghost types: set<IndexType>) returns (r: QueryResult)
    requires AllCanonical(prim, types) && Fits(q, types)
    ensures fresh(r) && fresh(r.results) && r.Valid()
    ensures Answers(q, prim, r.View())
    decreases q, 3
  {
    if q.Leaf? {
      var run := new SortedRun.FromBytes(prim(q.leaf));
      r := new QueryResult.FromRun(run);
    } else if q.And? {
      r := RunAnd(q, prim, types);
    } else if q.Or? {
      r := RunOr(q, prim, types);
    } else {
      r := RunMinOf(q, prim, types);
    }
  }

  method RunAnd(q: NgramQuery, prim: RunSource, ghost types: set<IndexType>) returns (result: QueryResult)
    requires q.And? && AllCanonical(prim, types) && Fits(q, types)
    ensures fresh(result) && fresh(result.results) && result.Valid()
    ensures Answers(q, prim, result.View())
    decreases q, 2
  {
    result := new QueryResult.All();
    for i := 0 to |q.queries|
      invariant fresh(result) && fresh(result.results) && result.Valid()
      invariant Answers(And(q.queries[..i]), prim, result.View())
    {
      var next := Run(q.queries[i], prim, types);
      ghost var before, view := result.View(), next.View();
      result.DoAnd(next);
      AndMore(q.queries, i, prim, before, view, result.View());
      result.IsEmptyExactly();
      if result.IsEmpty() {
        AndEmpty(q.queries, i + 1, prim);
        return;
      }
    }
    assert q.queries[..|q.queries|] == q.queries;
  }

  method RunOr(q: NgramQuery, prim: RunSource, ghost types: set<IndexType>) returns (result: QueryResult)
    requires q.Or? && AllCanonical(prim, types) && Fits(q, types)
    ensures fresh(result) && fresh(result.results) && result.Valid()
    ensures Answers(q, prim, result.View())
    decreases q, 2
  {
    result := new QueryResult.None();
    for i := 0 to |q.queries|
      invariant fresh(result) && fresh(result.results) && result.Valid()
      invariant Answers(Or(q.queries[..i]), prim, result.View())
    {
      var next := Run(q.queries[i], prim, types);
      ghost var before, view := result.View(), next.View();
      result.DoOr(next);
      OrMore(q.queries, i, prim, before, view, result.View());
      if result.IsEverything() {
        OrEverything(q.queries, i + 1, prim);
        return;
      }
    }
    assert q.queries[..|q.queries|] == q.queries;
  }

  /** The results kept so far own the runs in `runs` and stand for `sets`. */
  ghost predicate Kept(results: seq<QueryResult>, runs: set<SortedRun>, sets: seq<FileSet>)
    reads results, runs
  {
    Sound(results, runs) && Views(results, runs) == sets
  }

  lemma KeepResult(results: seq<QueryResult>, runs: set<SortedRun>, sets: seq<FileSet>, next: QueryResult)
    requires Kept(results, runs, sets) && next.Valid()
    ensures Kept(results + [next], runs + {next.results}, sets + [next.View()])
  {
  }

  method RunMinOf(q: NgramQuery, prim: RunSource, ghost types: set<IndexType>) returns (result: QueryResult)
    requires q.MinOf? && AllCanonical(prim, types) && Fits(q, types)
    ensures fresh(result) && fresh(result.results) && result.Valid()
    ensures Answers(q, prim, result.View())
    decreases q, 2
  {
    var cutoff, results, early;
    ghost var runs, views;
    cutoff, results, early, runs, views := RunParts(q, prim, types);
    match early
    case EarlyEverything =>
      EnoughEverything(q, views, prim);
      result := MakeAll();
    case EarlyEmpty =>
      TooManyEmpty(q, views, prim);
      result := MakeNone();
    case NotYet =>
      result := DoMinOf(cutoff, results, runs);
      AllScanned(q, views, prim, result.View());
  }

  method MakeAll() returns (r: QueryResult)
    ensures fresh(r) && fresh(r.results) && r.Valid() && r.View() == Everything
  {
    r := new QueryResult.All();
  }

  method MakeNone() returns (r: QueryResult)
    ensures fresh(r) && fresh(r.results) && r.Valid() && r.View() == Only([])
  {
    r := new QueryResult.None();
  }

  /** Whether the result of a MIN_OF is known before all subqueries have been run. */
  datatype Early = NotYet | EarlyEverything | EarlyEmpty

  /** Runs the subqueries of a MIN_OF, unless the result is known before the last of them. */
  method RunParts(q: NgramQuery, prim: RunSource, ghost types: set<IndexType>)
    returns (cutoff: int, results: seq<QueryResult>, early: Early, ghost runs: set<SortedRun>, ghost views: seq<FileSet>)
    requires q.MinOf? && AllCanonical(prim, types) && Fits(q, types)
    ensures fresh(runs) && Kept(results, runs, Proper(views, |views|)) && AllAnswer(q.queries, prim, views)
    ensures cutoff == q.count - Everythings(views, |views|)
    ensures early.EarlyEverything? ==> cutoff <= 0
    ensures early.EarlyEmpty? ==> cutoff > |q.queries| - Empties(views, |views|)
    ensures early.NotYet? ==> |views| == |q.queries|
    decreases q, 1
  {
    early, results, runs, views := NotYet, [], {}, [];
    cutoff := q.count;
    var nonemptySources: int := |q.queries|;
    for i := 0 to |q.queries|
      invariant fresh(runs) && |views| == i && Kept(results, runs, Proper(views, i)) && AllAnswer(q.queries, prim, views)
      invariant cutoff == q.count - Everythings(views, i) && nonemptySources == |q.queries| - Empties(views, i)
    {
      var everything, isEmpty;
      ghost var view;
      everything, isEmpty, results, view, runs := RunPart(q, i, prim, types, results, runs, Proper(views, i));
      ViewsMore(views, view);
      AllAnswerMore(q.queries, prim, views, view);
      views := views + [view];
      if everything {
        cutoff := cutoff - 1;
        if cutoff <= 0 {
          early := EarlyEverything;
          return;
        }
      } else if isEmpty {
        nonemptySources := nonemptySources - 1;
        if cutoff > nonemptySources {
          early := EarlyEmpty;
          return;
        }
      }
    }
  }

  /** Runs one subquery, and keeps its result unless it is empty or everything. */
  method RunPart(q: NgramQuery, i: nat, prim: RunSource, ghost types: set<IndexType>, results: seq<QueryResult>,
      ghost runs: set<SortedRun>, ghost sets: seq<FileSet>)
    returns (everything: bool, isEmpty: bool, results': seq<QueryResult>, ghost view: FileSet, ghost runs': set<SortedRun>)
    requires q.MinOf? && i < |q.queries| && AllCanonical(prim, types) && Fits(q, types) && Kept(results, runs, sets)
    ensures Answers(q.queries[i], prim, view)
    ensures everything == view.Everything? && isEmpty == (view == Only([]))
    ensures Kept(results', runs', sets + (if everything || isEmpty then [] else [view])) && fresh(runs' - runs)
    decreases q, 0
  {
    var next := Run(q.queries[i], prim, types);
    next.IsEmptyExactly();
    everything, isEmpty := next.IsEverything(), next.IsEmpty();
    results', runs', view := results, runs, next.View();
    assert sets + [] == sets;
    if !everything && !isEmpty {
      KeepResult(results, runs, sets, next);
      results', runs' := results + [next], runs + {next.results};
    }
  }
}
