/** The rewriting of planned queries (`q_optimize`), pass by pass, and its fixpoint. */
module QueryOptimizer {
  import opened Core
  import opened Queries

  type NgramQuery = Query<PrimitiveQuery>

  /** Represents every file of the dataset. */
  const EVERYTHING: NgramQuery := And([])

  predicate IsEverything(q: NgramQuery) {
    q.And? && q.queries == []
  }

  /** `q` with other subqueries. */
  function WithQueries(q: NgramQuery, qs: seq<NgramQuery>): NgramQuery
    requires !q.Leaf?
  {
    match q
    case And(_) => And(qs)
    case Or(_) => Or(qs)
    case MinOf(c, _) => MinOf(c, qs)
  }

  /** An AND or OR; the passes on lists of subqueries leave everything else alone. */
  predicate IsList(q: NgramQuery) {
    q.And? || q.Or?
  }

  predicate SameList(q: NgramQuery, r: NgramQuery) {
    (q.And? && r.And?) || (q.Or? && r.Or?)
  }

  // ----- the passes, as functions -----

  /** AND(x) and OR(x) become x. */
  function Flattened(q: NgramQuery): NgramQuery {
    if IsList(q) && |q.queries| == 1 then q.queries[0] else q
  }

  /** The first `n` subqueries, with those of the same kind as `q` replaced by their own subqueries. */
  function InlinedUpTo(q: NgramQuery, n: nat): seq<NgramQuery>
    requires !q.Leaf? && n <= |q.queries|
  {
    if n == 0 then []
    else
      var s := q.queries[n - 1];
      InlinedUpTo(q, n - 1) + (if SameList(q, s) then s.queries else [s])
  }

  function Inlined(q: NgramQuery): NgramQuery {
    if IsList(q) then WithQueries(q, InlinedUpTo(q, |q.queries|)) else q
  }

  /** Subquery `n` is an n-gram that occurs among the first `n` subqueries. */
  predicate Repeated(qs: seq<NgramQuery>, n: nat)
    requires n < |qs|
  {
    qs[n].Leaf? && qs[n] in qs[..n]
  }

  function DeduplicatedUpTo(qs: seq<NgramQuery>, n: nat): seq<NgramQuery>
    requires n <= |qs|
  {
    if n == 0 then [] else DeduplicatedUpTo(qs, n - 1) + (if Repeated(qs, n - 1) then [] else [qs[n - 1]])
  }

  function Deduplicated(q: NgramQuery): NgramQuery {
    if IsList(q) then WithQueries(q, DeduplicatedUpTo(q.queries, |q.queries|)) else q
  }

  function MinOfSimplified(q: NgramQuery): NgramQuery {
    if !q.MinOf? then q
    else if q.count == |q.queries| then And(q.queries)
    else if q.count == 1 then Or(q.queries)
    else if q.count == 0 then EVERYTHING
    else q
  }

  function ProperUpTo(qs: seq<NgramQuery>, n: nat): (r: seq<NgramQuery>)
    requires n <= |qs|
    ensures |r| <= n
  {
    if n == 0 then [] else ProperUpTo(qs, n - 1) + (if IsEverything(qs[n - 1]) then [] else [qs[n - 1]])
  }

  /** How many of the first `n` subqueries stand for everything. */
  function Trivial(qs: seq<NgramQuery>, n: nat): nat
    requires n <= |qs|
  {
    n - |ProperUpTo(qs, n)|
  }

  function Propagated(q: NgramQuery): NgramQuery {
    if q.MinOf? && q.count > 0 then
      if q.count <= Trivial(q.queries, |q.queries|) then EVERYTHING
      else MinOf(q.count - Trivial(q.queries, |q.queries|), ProperUpTo(q.queries, |q.queries|))
    else if q.Or? && Trivial(q.queries, |q.queries|) > 0 then EVERYTHING
    else q
  }

  /** One iteration of the loop of `q_optimize`. */
  function Pass(q: NgramQuery): NgramQuery {
    Propagated(MinOfSimplified(Deduplicated(Inlined(Flattened(q)))))
  }

  // ----- the order of n-grams -----

  /** The n-grams of a query, from left to right. */
  function Grams(q: NgramQuery): seq<PrimitiveQuery>
    decreases q, 0
  {
    if q.Leaf? then [q.leaf] else GramsUpTo(q.queries, |q.queries|)
  }

  function GramsUpTo(qs: seq<NgramQuery>, n: nat): seq<PrimitiveQuery>
    requires n <= |qs|
    decreases qs, n
  {
    if n == 0 then [] else GramsUpTo(qs, n - 1) + Grams(qs[n - 1])
  }

  lemma {:induction false} GramsPrefix(a: seq<NgramQuery>, b: seq<NgramQuery>, n: nat)
    requires n <= |a| && n <= |b| && forall k :: 0 <= k < n ==> a[k] == b[k]
    ensures GramsUpTo(a, n) == GramsUpTo(b, n)
  {
    if n > 0 {
      GramsPrefix(a, b, n - 1);
    }
  }

  lemma {:induction false} GramsConcat(a: seq<NgramQuery>, b: seq<NgramQuery>, n: nat)
    requires n <= |b|
    ensures GramsUpTo(a + b, |a| + n) == GramsUpTo(a, |a|) + GramsUpTo(b, n)
  {
    if n == 0 {
      GramsPrefix(a + b, a, |a|);
    } else {
      GramsConcat(a, b, n - 1);
      assert (a + b)[|a| + n - 1] == b[n - 1];
    }
  }

  lemma {:induction false} InlinedGrams(q: NgramQuery, n: nat)
    requires !q.Leaf? && n <= |q.queries|
    ensures GramsUpTo(InlinedUpTo(q, n), |InlinedUpTo(q, n)|) == GramsUpTo(q.queries, n)
  {
    if n > 0 {
      InlinedGrams(q, n - 1);
      var s := q.queries[n - 1];
      var piece := if SameList(q, s) then s.queries else [s];
      GramsConcat(InlinedUpTo(q, n - 1), piece, |piece|);
      assert GramsUpTo([s], 1) == GramsUpTo([s], 0) + Grams(s) == Grams(s);
    }
  }

  /** Flattening and inlining keep all n-grams, in their order. */
  lemma GramsKept(q: NgramQuery)
    ensures Grams(Flattened(q)) == Grams(q) && Grams(Inlined(q)) == Grams(q)
  {
    if IsList(q) {
      InlinedGrams(q, |q.queries|);
      if |q.queries| == 1 {
        assert GramsUpTo(q.queries, 1) == GramsUpTo(q.queries, 0) + Grams(q.queries[0]);
      }
    }
  }

  // ----- termination -----

  function Sum(ns: seq<nat>): nat {
    if ns == [] then 0 else Sum(ns[..|ns| - 1]) + ns[|ns| - 1]
  }

  /** The number of nodes of a query tree. */
  function Nodes(q: NgramQuery): (r: nat)
    ensures r > 0
  {
    if q.Leaf? then 1
    else 1 + Sum(seq(|q.queries|, i requires 0 <= i < |q.queries| => Nodes(q.queries[i])))
  }

  function NodesUpTo(qs: seq<NgramQuery>, n: nat): (r: nat)
    requires n <= |qs|
    ensures r >= n
  {
    if n == 0 then 0 else NodesUpTo(qs, n - 1) + Nodes(qs[n - 1])
  }

  lemma NodesAre(q: NgramQuery)
    requires !q.Leaf?
    ensures Nodes(q) == 1 + NodesUpTo(q.queries, |q.queries|)
  {
    var ns := seq(|q.queries|, i requires 0 <= i < |q.queries| => Nodes(q.queries[i]));
    SumIsNodes(q.queries, ns, |q.queries|);
    assert ns[..|q.queries|] == ns;
  }

  lemma {:induction false} SumIsNodes(qs: seq<NgramQuery>, ns: seq<nat>, n: nat)
    requires n <= |qs| == |ns| && forall i :: 0 <= i < |qs| ==> ns[i] == Nodes(qs[i])
    ensures Sum(ns[..n]) == NodesUpTo(qs, n)
  {
    if n > 0 {
      SumIsNodes(qs, ns, n - 1);
      assert ns[..n][..n - 1] == ns[..n - 1];
    }
  }

  lemma {:induction false} NodesAppend(a: seq<NgramQuery>, b: seq<NgramQuery>, n: nat)
    requires n <= |b|
    ensures NodesUpTo(a + b, |a| + n) == NodesUpTo(a, |a|) + NodesUpTo(b, n)
  {
    if n > 0 {
      NodesAppend(a, b, n - 1);
    } else {
      NodesPrefix(a, b, |a|);
    }
  }

  lemma {:induction false} NodesPrefix(a: seq<NgramQuery>, b: seq<NgramQuery>, n: nat)
    requires n <= |a|
    ensures NodesUpTo(a + b, n) == NodesUpTo(a, n)
  {
    if n > 0 {
      NodesPrefix(a, b, n - 1);
    }
  }

  /** `r` is smaller than `q`: fewer nodes, or as many but no longer a MIN_OF. */
  predicate Smaller(r: NgramQuery, q: NgramQuery) {
    Nodes(r) < Nodes(q) || (Nodes(r) == Nodes(q) && q.MinOf? && !r.MinOf?)
  }

  lemma FlattenedSmaller(q: NgramQuery)
    ensures Flattened(q) == q || Smaller(Flattened(q), q)
    ensures Flattened(q) == q <==> !(IsList(q) && |q.queries| == 1)
  {
    if Flattened(q) != q {
      NodesAre(q);
      assert NodesUpTo(q.queries, 0) == 0;
    }
  }

  /** None of the first `n` subqueries is of the same kind as `q`. */
  predicate NothingToInline(q: NgramQuery, n: nat)
    requires !q.Leaf? && n <= |q.queries|
  {
    forall k :: 0 <= k < n ==> !SameList(q, q.queries[k])
  }

  lemma {:induction false} InlinedNodes(q: NgramQuery, n: nat)
    requires !q.Leaf? && n <= |q.queries|
    ensures var r := NodesUpTo(InlinedUpTo(q, n), |InlinedUpTo(q, n)|);
      if NothingToInline(q, n) then r == NodesUpTo(q.queries, n) else r < NodesUpTo(q.queries, n)
  {
    if n > 0 {
      InlinedNodes(q, n - 1);
      var s := q.queries[n - 1];
      var more := if SameList(q, s) then s.queries else [s];
      NodesAppend(InlinedUpTo(q, n - 1), more, |more|);
      PieceNodes(q, s);
    }
  }

  lemma PieceNodes(q: NgramQuery, s: NgramQuery)
    ensures SameList(q, s) ==> NodesUpTo(s.queries, |s.queries|) < Nodes(s)
    ensures NodesUpTo([s], 1) == Nodes(s)
  {
    if SameList(q, s) {
      NodesAre(s);
    }
    assert NodesUpTo([s], 1) == NodesUpTo([s], 0) + Nodes(s);
  }

  lemma {:induction false} InlinedNothing(q: NgramQuery, n: nat)
    requires !q.Leaf? && n <= |q.queries| && NothingToInline(q, n)
    ensures InlinedUpTo(q, n) == q.queries[..n]
  {
    if n > 0 {
      InlinedNothing(q, n - 1);
      assert q.queries[..n] == q.queries[..n - 1] + [q.queries[n - 1]];
    }
  }

  lemma InlinedSmaller(q: NgramQuery)
    ensures Inlined(q) == q || Smaller(Inlined(q), q)
    ensures Inlined(q) == q <==> !IsList(q) || NothingToInline(q, |q.queries|)
  {
    if IsList(q) {
      InlinedNodes(q, |q.queries|);
      NodesAre(q);
      NodesAre(Inlined(q));
      if NothingToInline(q, |q.queries|) {
        InlinedNothing(q, |q.queries|);
        assert q.queries[..|q.queries|] == q.queries;
      }
    }
  }

  predicate NothingRepeated(qs: seq<NgramQuery>, n: nat)
    requires n <= |qs|
  {
    forall k :: 0 <= k < n ==> !Repeated(qs, k)
  }

  lemma {:induction false} DeduplicatedNodes(qs: seq<NgramQuery>, n: nat)
    requires n <= |qs|
    ensures var r := NodesUpTo(DeduplicatedUpTo(qs, n), |DeduplicatedUpTo(qs, n)|);
      if NothingRepeated(qs, n) then r == NodesUpTo(qs, n) else r < NodesUpTo(qs, n)
  {
    if n > 0 {
      DeduplicatedNodes(qs, n - 1);
      var init, s := DeduplicatedUpTo(qs, n - 1), qs[n - 1];
      NodesAppend(init, [s], 1);
      assert NodesUpTo([s], 1) == NodesUpTo([s], 0) + Nodes(s);
      assert init + [] == init;
    }
  }

  lemma {:induction false} DeduplicatedNothing(qs: seq<NgramQuery>, n: nat)
    requires n <= |qs| && NothingRepeated(qs, n)
    ensures DeduplicatedUpTo(qs, n) == qs[..n]
  {
    if n > 0 {
      DeduplicatedNothing(qs, n - 1);
      assert qs[..n] == qs[..n - 1] + [qs[n - 1]];
    }
  }

  lemma DeduplicatedSmaller(q: NgramQuery)
    ensures Deduplicated(q) == q || Smaller(Deduplicated(q), q)
    ensures Deduplicated(q) == q <==> !IsList(q) || NothingRepeated(q.queries, |q.queries|)
  {
    if IsList(q) {
      DeduplicatedNodes(q.queries, |q.queries|);
      NodesAre(q);
      NodesAre(Deduplicated(q));
      if NothingRepeated(q.queries, |q.queries|) {
        DeduplicatedNothing(q.queries, |q.queries|);
        assert q.queries[..|q.queries|] == q.queries;
      }
    }
  }

  lemma MinOfSimplifiedSmaller(q: NgramQuery)
    ensures MinOfSimplified(q) == q || Smaller(MinOfSimplified(q), q)
    ensures MinOfSimplified(q) == q <==> (q.MinOf? ==> 1 < q.count != |q.queries|)
  {
    if q.MinOf? {
      NodesAre(q);
      NodesAre(MinOfSimplified(q));
    }
  }

  predicate NothingTrivial(qs: seq<NgramQuery>, n: nat)
    requires n <= |qs|
  {
    forall k :: 0 <= k < n ==> !IsEverything(qs[k])
  }

  lemma {:induction false} ProperNodes(qs: seq<NgramQuery>, n: nat)
    requires n <= |qs|
    ensures var r := NodesUpTo(ProperUpTo(qs, n), |ProperUpTo(qs, n)|);
      if NothingTrivial(qs, n) then r == NodesUpTo(qs, n) else r < NodesUpTo(qs, n) && Trivial(qs, n) > 0
  {
    if n > 0 {
      ProperNodes(qs, n - 1);
      var init, s := ProperUpTo(qs, n - 1), qs[n - 1];
      NodesAppend(init, [s], 1);
      assert NodesUpTo([s], 1) == NodesUpTo([s], 0) + Nodes(s);
      assert init + [] == init;
    }
  }

  lemma {:induction false} ProperNothing(qs: seq<NgramQuery>, n: nat)
    requires n <= |qs| && NothingTrivial(qs, n)
    ensures ProperUpTo(qs, n) == qs[..n]
  {
    if n > 0 {
      ProperNothing(qs, n - 1);
      assert qs[..n] == qs[..n - 1] + [qs[n - 1]];
    }
  }

  lemma PropagatedSmaller(q: NgramQuery)
    ensures Propagated(q) == q || Smaller(Propagated(q), q)
    ensures Propagated(q) == q <==> !(q.Or? || (q.MinOf? && q.count > 0)) || NothingTrivial(q.queries, |q.queries|)
  {
    if q.Or? || q.MinOf? {
      ProperNodes(q.queries, |q.queries|);
      NodesAre(q);
      NodesAre(Propagated(q));
      if NothingTrivial(q.queries, |q.queries|) {
        ProperNothing(q.queries, |q.queries|);
        assert q.queries[..|q.queries|] == q.queries;
      }
    }
  }

  // ----- the fixpoint -----

  /** No pass applies to the root of `q`. */
  predicate Settled(q: NgramQuery) {
    && (IsList(q) ==>
          && |q.queries| != 1
          && NothingToInline(q, |q.queries|)
          && NothingRepeated(q.queries, |q.queries|))
    && (q.MinOf? ==> 1 < q.count != |q.queries|)
    && (q.Or? || q.MinOf? ==> NothingTrivial(q.queries, |q.queries|))
  }

  /** An iteration makes a query smaller, unless there is nothing left to do. */
  lemma PassSmaller(q: NgramQuery)
    ensures Pass(q) == q || Smaller(Pass(q), q)
    ensures Pass(q) == q <==> Settled(q)
  {
    var a := Flattened(q);
    var b := Inlined(a);
    var c := Deduplicated(b);
    var d := MinOfSimplified(c);
    FlattenedSmaller(q);
    InlinedSmaller(a);
    DeduplicatedSmaller(b);
    MinOfSimplifiedSmaller(c);
    PropagatedSmaller(d);
  }

  /** The loop of `q_optimize`; it ends because every other iteration makes the query smaller. */
  function Fixpoint(q: NgramQuery): NgramQuery
    decreases Nodes(q), if q.MinOf? then 1 else 0
  {
    PassSmaller(q);
    if Pass(q) == q then q else Fixpoint(Pass(q))
  }

  // ----- the order of the subqueries of an AND -----

  function Cost(q: NgramQuery): nat {
    match q
    case Leaf(PrimitiveQuery(WIDE8, v)) => v
    case Leaf(PrimitiveQuery(TEXT4, v)) => 0x100_0000 + v
    case Leaf(PrimitiveQuery(HASH4, v)) => 0x200_0000 + v
    case Leaf(PrimitiveQuery(GRAM3, v)) => 0x300_0000 + v
    case And(_) => 0x400_0000
    case MinOf(_, _) => 0x500_0000
    case Or(_) => 0x600_0000
  }

  /** Which index is read first: those with the fewest files for an n-gram. */
  function Rank(t: IndexType): nat {
    match t
    case WIDE8 => 0
    case TEXT4 => 1
    case HASH4 => 2
    case GRAM3 => 3
  }

  function FormRank(q: NgramQuery): nat {
    match q
    case Leaf(_) => 0
    case And(_) => 1
    case MinOf(_, _) => 2
    case Or(_) => 3
  }

  /** Costs order queries by their form, and n-grams by their type and then by their number. */
  lemma CostExactly(q: NgramQuery, r: NgramQuery)
    ensures Cost(q) < Cost(r) <==>
      || FormRank(q) < FormRank(r)
      || (q.Leaf? && r.Leaf? && Rank(q.leaf.itype) < Rank(r.leaf.itype))
      || (q.Leaf? && r.Leaf? && q.leaf.itype == r.leaf.itype && q.leaf.trigram < r.leaf.trigram)
  {
  }

  predicate CostSorted(qs: seq<NgramQuery>) {
    forall i, j :: 0 <= i < j < |qs| ==> Cost(qs[i]) <= Cost(qs[j])
  }

  /** Puts `q` behind everything that costs no more. */
  function Insert(qs: seq<NgramQuery>, q: NgramQuery): seq<NgramQuery> {
    if qs == [] || Cost(qs[|qs| - 1]) <= Cost(q) then qs + [q]
    else Insert(qs[..|qs| - 1], q) + [qs[|qs| - 1]]
  }

  /** The first `n` subqueries, sorted by cost; equal costs keep their order. */
  function StableSort(qs: seq<NgramQuery>, n: nat): seq<NgramQuery>
    requires n <= |qs|
  {
    if n == 0 then [] else Insert(StableSort(qs, n - 1), qs[n - 1])
  }

  function OfCost(qs: seq<NgramQuery>, cost: nat): seq<NgramQuery> {
    if qs == [] then []
    else OfCost(qs[..|qs| - 1], cost) + (if Cost(qs[|qs| - 1]) == cost then [qs[|qs| - 1]] else [])
  }

  predicate CostAtMost(qs: seq<NgramQuery>, cost: nat) {
    forall i :: 0 <= i < |qs| ==> Cost(qs[i]) <= cost
  }

  lemma {:induction false} InsertAtMost(qs: seq<NgramQuery>, q: NgramQuery, cost: nat)
    requires CostAtMost(qs, cost) && Cost(q) <= cost
    ensures CostAtMost(Insert(qs, q), cost)
    decreases |qs|
  {
    if !(qs == [] || Cost(qs[|qs| - 1]) <= Cost(q)) {
      InsertAtMost(qs[..|qs| - 1], q, cost);
    }
  }

  lemma {:induction false} InsertSorts(qs: seq<NgramQuery>, q: NgramQuery)
    requires CostSorted(qs)
    ensures CostSorted(Insert(qs, q))
    decreases |qs|
  {
    if !(qs == [] || Cost(qs[|qs| - 1]) <= Cost(q)) {
      var init, last := qs[..|qs| - 1], qs[|qs| - 1];
      InsertSorts(init, q);
      InsertAtMost(init, q, Cost(last));
    }
  }

  lemma {:induction false} InsertPermutes(qs: seq<NgramQuery>, q: NgramQuery)
    ensures multiset(Insert(qs, q)) == multiset(qs) + multiset{q}
    decreases |qs|
  {
    if !(qs == [] || Cost(qs[|qs| - 1]) <= Cost(q)) {
      InsertPermutes(qs[..|qs| - 1], q);
      assert qs == qs[..|qs| - 1] + [qs[|qs| - 1]];
    }
  }

  lemma {:induction false} InsertStable(qs: seq<NgramQuery>, q: NgramQuery, cost: nat)
    requires CostSorted(qs)
    ensures OfCost(Insert(qs, q), cost) == OfCost(qs, cost) + (if Cost(q) == cost then [q] else [])
    decreases |qs|
  {
    if qs == [] || Cost(qs[|qs| - 1]) <= Cost(q) {
      assert (qs + [q])[..|qs|] == qs;
    } else {
      var init, last := qs[..|qs| - 1], qs[|qs| - 1];
      InsertStable(init, q, cost);
      assert (Insert(init, q) + [last])[..|Insert(init, q)|] == Insert(init, q);
      if Cost(q) == cost {
        assert Cost(last) != cost;
      }
    }
  }

  lemma {:induction false} StableSortSorts(qs: seq<NgramQuery>, n: nat)
    requires n <= |qs|
    ensures CostSorted(StableSort(qs, n))
  {
    if n > 0 {
      StableSortSorts(qs, n - 1);
      InsertSorts(StableSort(qs, n - 1), qs[n - 1]);
    }
  }

  lemma {:induction false} StableSortPermutes(qs: seq<NgramQuery>, n: nat)
    requires n <= |qs|
    ensures multiset(StableSort(qs, n)) == multiset(qs[..n])
  {
    if n > 0 {
      StableSortPermutes(qs, n - 1);
      InsertPermutes(StableSort(qs, n - 1), qs[n - 1]);
      PrefixMultiset(qs, n);
    }
  }

  lemma PrefixMultiset(qs: seq<NgramQuery>, n: nat)
    requires 0 < n <= |qs|
    ensures multiset(qs[..n]) == multiset(qs[..n - 1]) + multiset{qs[n - 1]}
  {
    assert qs[..n] == qs[..n - 1] + [qs[n - 1]];
  }

  /** Sorting keeps the order of subqueries of equal cost. */
  lemma {:induction false} StableSortIsStable(qs: seq<NgramQuery>, n: nat, cost: nat)
    requires n <= |qs|
    ensures OfCost(StableSort(qs, n), cost) == OfCost(qs[..n], cost)
  {
    if n > 0 {
      StableSortSorts(qs, n - 1);
      StableSortIsStable(qs, n - 1, cost);
      InsertStable(StableSort(qs, n - 1), qs[n - 1], cost);
      OfCostPrefix(qs, n, cost);
    }
  }

  lemma OfCostPrefix(qs: seq<NgramQuery>, n: nat, cost: nat)
    requires 0 < n <= |qs|
    ensures OfCost(qs[..n], cost) == OfCost(qs[..n - 1], cost) + (if Cost(qs[n - 1]) == cost then [qs[n - 1]] else [])
  {
    assert qs[..n][..n - 1] == qs[..n - 1];
  }

  lemma {:induction false} StableSortStays(qs: seq<NgramQuery>, n: nat)
    requires n <= |qs| && CostSorted(qs)
    ensures StableSort(qs, n) == qs[..n]
  {
    if n > 0 {
      StableSortStays(qs, n - 1);
      assert qs[..n] == qs[..n - 1] + [qs[n - 1]];
    }
  }

  function Reordered(q: NgramQuery): NgramQuery {
    if q.And? then And(StableSort(q.queries, |q.queries|)) else q
  }

  // ----- the whole optimizer -----

  function Optimized(q: NgramQuery): NgramQuery {
    if q.Leaf? then q
    else
      var qs := seq(|q.queries|, i requires 0 <= i < |q.queries| => Optimized(q.queries[i]));
      Reordered(Fixpoint(WithQueries(q, qs)))
  }

  // ----- optimizing preserves meaning -----

  predicate AllHold(qs: seq<NgramQuery>, p: PrimitiveQuery -> bool) {
    forall i :: 0 <= i < |qs| ==> Holds(qs[i], p)
  }

  predicate AnyHolds(qs: seq<NgramQuery>, p: PrimitiveQuery -> bool) {
    exists i :: 0 <= i < |qs| && Holds(qs[i], p)
  }

  lemma HoldAppend(a: seq<NgramQuery>, b: seq<NgramQuery>, p: PrimitiveQuery -> bool)
    ensures AllHold(a + b, p) <==> AllHold(a, p) && AllHold(b, p)
    ensures AnyHolds(a + b, p) <==> AnyHolds(a, p) || AnyHolds(b, p)
  {
    var c := a + b;
    assert forall i :: 0 <= i < |a| ==> c[i] == a[i];
    assert forall i :: 0 <= i < |b| ==> c[|a| + i] == b[i];
  }

  /** For AND and OR only the set of subqueries matters. */
  lemma HoldMembers(a: seq<NgramQuery>, b: seq<NgramQuery>, p: PrimitiveQuery -> bool)
    requires forall x :: x in a <==> x in b
    ensures AllHold(a, p) <==> AllHold(b, p)
    ensures AnyHolds(a, p) <==> AnyHolds(b, p)
  {
    assert forall i :: 0 <= i < |a| ==> a[i] in b;
    assert forall i :: 0 <= i < |b| ==> b[i] in a;
  }

  lemma {:induction false} InlinedHolds(q: NgramQuery, n: nat, p: PrimitiveQuery -> bool)
    requires IsList(q) && n <= |q.queries|
    ensures q.And? ==> (AllHold(InlinedUpTo(q, n), p) <==> AllHold(q.queries[..n], p))
    ensures q.Or? ==> (AnyHolds(InlinedUpTo(q, n), p) <==> AnyHolds(q.queries[..n], p))
  {
    if n > 0 {
      var s := q.queries[n - 1];
      InlinedHolds(q, n - 1, p);
      HoldAppend(InlinedUpTo(q, n - 1), if SameList(q, s) then s.queries else [s], p);
      HoldAppend(q.queries[..n - 1], [s], p);
      assert q.queries[..n] == q.queries[..n - 1] + [s];
      assert Holds([s][0], p) == Holds(s, p);
    }
  }

  lemma {:induction false} DeduplicatedMembers(qs: seq<NgramQuery>, n: nat, x: NgramQuery)
    requires n <= |qs|
    ensures x in DeduplicatedUpTo(qs, n) <==> x in qs[..n]
  {
    if n > 0 {
      DeduplicatedMembers(qs, n - 1, x);
      assert qs[..n] == qs[..n - 1] + [qs[n - 1]];
    }
  }

  /** Leaving out what holds anyway lowers the count by just that much. */
  lemma {:induction false} ProperTally(qs: seq<NgramQuery>, n: nat, p: PrimitiveQuery -> bool)
    requires n <= |qs|
    ensures Tally(ProperUpTo(qs, n), |ProperUpTo(qs, n)|, p) + Trivial(qs, n) == Tally(qs, n, p)
  {
    if n > 0 {
      ProperTally(qs, n - 1, p);
      var init := ProperUpTo(qs, n - 1);
      if IsEverything(qs[n - 1]) {
        assert init + [] == init;
      } else {
        TallySame(init + [qs[n - 1]], init, |init|, p, p);
      }
    }
  }

  lemma FlattenedInlinedSame(q: NgramQuery, p: PrimitiveQuery -> bool)
    ensures Holds(Flattened(q), p) == Holds(q, p)
    ensures Holds(Inlined(q), p) == Holds(q, p)
  {
    if IsList(q) {
      InlinedHolds(q, |q.queries|, p);
      assert q.queries[..|q.queries|] == q.queries;
    }
  }

  lemma DeduplicatedSame(q: NgramQuery, p: PrimitiveQuery -> bool)
    ensures Holds(Deduplicated(q), p) == Holds(q, p)
  {
    if IsList(q) {
      forall x ensures x in DeduplicatedUpTo(q.queries, |q.queries|) <==> x in q.queries {
        DeduplicatedMembers(q.queries, |q.queries|, x);
        assert q.queries[..|q.queries|] == q.queries;
      }
      HoldMembers(DeduplicatedUpTo(q.queries, |q.queries|), q.queries, p);
    }
  }

  lemma MinOfSimplifiedSame(q: NgramQuery, p: PrimitiveQuery -> bool)
    ensures Holds(MinOfSimplified(q), p) == Holds(q, p)
  {
    if q.MinOf? {
      MinOfHolds(q.count, q.queries, p);
      TallyEnds(q.queries, |q.queries|, p);
    }
  }

  lemma PropagatedSame(q: NgramQuery, p: PrimitiveQuery -> bool)
    ensures Holds(Propagated(q), p) == Holds(q, p)
  {
    if q.MinOf? || q.Or? {
      var proper := ProperUpTo(q.queries, |q.queries|);
      ProperTally(q.queries, |q.queries|, p);
      TallyEnds(q.queries, |q.queries|, p);
      if q.MinOf? {
        MinOfHolds(q.count, q.queries, p);
        if q.count > Trivial(q.queries, |q.queries|) {
          MinOfHolds(q.count - Trivial(q.queries, |q.queries|), proper, p);
        }
      }
    }
  }

  lemma PassSame(q: NgramQuery, p: PrimitiveQuery -> bool)
    ensures Holds(Pass(q), p) == Holds(q, p)
  {
    var a := Flattened(q);
    var b := Inlined(a);
    var c := Deduplicated(b);
    FlattenedInlinedSame(q, p);
    FlattenedInlinedSame(a, p);
    DeduplicatedSame(b, p);
    MinOfSimplifiedSame(c, p);
    PropagatedSame(MinOfSimplified(c), p);
  }

  lemma {:induction false} FixpointSame(q: NgramQuery, p: PrimitiveQuery -> bool)
    ensures Holds(Fixpoint(q), p) == Holds(q, p)
    decreases Nodes(q), if q.MinOf? then 1 else 0
  {
    PassSmaller(q);
    PassSame(q, p);
    if Pass(q) != q {
      FixpointSame(Pass(q), p);
    }
  }

  lemma StableSortMembers(qs: seq<NgramQuery>, x: NgramQuery)
    ensures x in StableSort(qs, |qs|) <==> x in qs
  {
    StableSortPermutes(qs, |qs|);
    assert qs[..|qs|] == qs;
    assert x in qs <==> x in multiset(qs);
    assert x in StableSort(qs, |qs|) <==> x in multiset(StableSort(qs, |qs|));
  }

  lemma ReorderedSame(q: NgramQuery, p: PrimitiveQuery -> bool)
    ensures Holds(Reordered(q), p) == Holds(q, p)
  {
    if q.And? {
      forall x ensures x in StableSort(q.queries, |q.queries|) <==> x in q.queries {
        StableSortMembers(q.queries, x);
      }
      HoldMembers(StableSort(q.queries, |q.queries|), q.queries, p);
    }
  }

  /** The optimized query is satisfied by the same files, whatever files the n-grams occur in. */
  lemma {:induction false} OptimizedSame(q: NgramQuery, p: PrimitiveQuery -> bool)
    ensures Holds(Optimized(q), p) == Holds(q, p)
  {
    if !q.Leaf? {
      var qs := seq(|q.queries|, i requires 0 <= i < |q.queries| => Optimized(q.queries[i]));
      forall i | 0 <= i < |qs| ensures Holds(qs[i], p) == Holds(q.queries[i], p) {
        OptimizedSame(q.queries[i], p);
      }
      var r := WithQueries(q, qs);
      HoldsParts(r, q, p);
      FixpointSame(r, p);
      ReorderedSame(Fixpoint(r), p);
    }
  }

  // ----- the normal form -----

  /** Nothing is left to simplify anywhere in `q`, and the subqueries of every AND are in order. */
  predicate Normal(q: NgramQuery) {
    q.Leaf? ||
    (&& Settled(q)
     && (q.And? ==> CostSorted(q.queries))
     && forall i :: 0 <= i < |q.queries| ==> Normal(q.queries[i]))
  }

  predicate AllNormal(qs: seq<NgramQuery>) {
    forall i :: 0 <= i < |qs| ==> Normal(qs[i])
  }

  predicate PartsNormal(q: NgramQuery) {
    q.Leaf? || AllNormal(q.queries)
  }

  lemma {:induction false} InlinedNormal(q: NgramQuery, n: nat)
    requires !q.Leaf? && n <= |q.queries| && AllNormal(q.queries)
    ensures AllNormal(InlinedUpTo(q, n))
  {
    if n > 0 {
      InlinedNormal(q, n - 1);
      assert Normal(q.queries[n - 1]);
    }
  }

  lemma {:induction false} DeduplicatedNormal(qs: seq<NgramQuery>, n: nat)
    requires n <= |qs| && AllNormal(qs)
    ensures AllNormal(DeduplicatedUpTo(qs, n))
  {
    if n > 0 {
      DeduplicatedNormal(qs, n - 1);
    }
  }

  lemma {:induction false} ProperNormal(qs: seq<NgramQuery>, n: nat)
    requires n <= |qs| && AllNormal(qs)
    ensures AllNormal(ProperUpTo(qs, n))
  {
    if n > 0 {
      ProperNormal(qs, n - 1);
    }
  }

  lemma PassNormal(q: NgramQuery)
    requires PartsNormal(q)
    ensures PartsNormal(Pass(q))
  {
    var a := Flattened(q);
    assert PartsNormal(a);
    if IsList(a) {
      InlinedNormal(a, |a.queries|);
    }
    var b := Inlined(a);
    if IsList(b) {
      DeduplicatedNormal(b.queries, |b.queries|);
    }
    var d := MinOfSimplified(Deduplicated(b));
    assert PartsNormal(d);
    if !d.Leaf? {
      ProperNormal(d.queries, |d.queries|);
    }
  }

  lemma {:induction false} FixpointNormal(q: NgramQuery)
    requires PartsNormal(q)
    ensures PartsNormal(Fixpoint(q)) && Settled(Fixpoint(q))
    decreases Nodes(q), if q.MinOf? then 1 else 0
  {
    PassSmaller(q);
    if Pass(q) != q {
      PassNormal(q);
      FixpointNormal(Pass(q));
    }
  }

  /** No n-gram occurs twice. */
  lemma NothingRepeatedIff(qs: seq<NgramQuery>)
    ensures NothingRepeated(qs, |qs|) <==> forall x :: x in qs && x.Leaf? ==> multiset(qs)[x] == 1
  {
    forall x | x in qs && x.Leaf? && NothingRepeated(qs, |qs|) ensures multiset(qs)[x] == 1 {
      var k :| 0 <= k < |qs| && qs[k] == x;
      OnlyOnce(qs, k, x);
    }
    if k :| 0 <= k < |qs| && Repeated(qs, k) {
      assert qs == qs[..k] + [qs[k]] + qs[k + 1..];
      assert qs[k] in multiset(qs[..k]);
      assert multiset(qs)[qs[k]] >= 2;
    }
  }

  lemma LaterIsRepeated(qs: seq<NgramQuery>, k: nat, j: nat)
    requires k < j < |qs| && qs[k].Leaf? && qs[j] == qs[k]
    ensures Repeated(qs, j)
  {
    assert qs[..j][k] == qs[j];
  }

  lemma OnlyOnce(qs: seq<NgramQuery>, k: nat, x: NgramQuery)
    requires k < |qs| && qs[k] == x && x.Leaf? && NothingRepeated(qs, |qs|)
    ensures multiset(qs)[x] == 1
  {
    assert qs == qs[..k] + [x] + qs[k + 1..];
    assert !Repeated(qs, k);
    forall j | k < j < |qs| && qs[j] == x ensures Repeated(qs, j) {
      LaterIsRepeated(qs, k, j);
    }
    assert x !in multiset(qs[..k]) && x !in multiset(qs[k + 1..]);
  }

  lemma ReorderedNormal(q: NgramQuery)
    requires PartsNormal(q) && Settled(q)
    ensures Normal(Reordered(q))
  {
    if q.And? {
      var qs, rs := q.queries, StableSort(q.queries, |q.queries|);
      StableSortSorts(qs, |qs|);
      StableSortPermutes(qs, |qs|);
      assert qs[..|qs|] == qs;
      assert |rs| == |multiset(rs)| == |multiset(qs)| == |qs|;
      NothingRepeatedIff(qs);
      NothingRepeatedIff(rs);
      forall i | 0 <= i < |rs| ensures rs[i] in qs {
        StableSortMembers(qs, rs[i]);
      }
      forall x | x in rs && x.Leaf? ensures multiset(rs)[x] == 1 {
        StableSortMembers(qs, x);
      }
    }
  }

  lemma {:induction false} OptimizedNormal(q: NgramQuery)
    ensures Normal(Optimized(q))
  {
    if !q.Leaf? {
      var qs := seq(|q.queries|, i requires 0 <= i < |q.queries| => Optimized(q.queries[i]));
      forall i | 0 <= i < |qs| ensures Normal(qs[i]) {
        OptimizedNormal(q.queries[i]);
      }
      FixpointNormal(WithQueries(q, qs));
      ReorderedNormal(Fixpoint(WithQueries(q, qs)));
    }
  }

  /** The optimizer leaves a query alone if and only if it is in normal form; so it is idempotent. */
  lemma {:induction false} OptimizedFixed(q: NgramQuery)
    ensures Optimized(q) == q <==> Normal(q)
    ensures Optimized(Optimized(q)) == Optimized(q)
  {
    OptimizedNormal(q);
    NormalFixed(Optimized(q));
    if Normal(q) {
      NormalFixed(q);
    }
  }

  lemma {:induction false} NormalFixed(q: NgramQuery)
    requires Normal(q)
    ensures Optimized(q) == q
  {
    if !q.Leaf? {
      var qs := seq(|q.queries|, i requires 0 <= i < |q.queries| => Optimized(q.queries[i]));
      forall i | 0 <= i < |qs| ensures qs[i] == q.queries[i] {
        NormalFixed(q.queries[i]);
      }
      assert qs == q.queries && WithQueries(q, qs) == q;
      PassSmaller(q);
      if q.And? {
        StableSortStays(q.queries, |q.queries|);
        assert q.queries[..|q.queries|] == q.queries;
      }
    }
  }

  // ----- what can be run stays so -----

  predicate AllFit(qs: seq<NgramQuery>, types: set<IndexType>) {
    forall i :: 0 <= i < |qs| ==> Fits(qs[i], types)
  }

  lemma {:induction false} InlinedFits(q: NgramQuery, n: nat, types: set<IndexType>)
    requires !q.Leaf? && n <= |q.queries| && AllFit(q.queries, types)
    ensures AllFit(InlinedUpTo(q, n), types)
  {
    if n > 0 {
      InlinedFits(q, n - 1, types);
      assert Fits(q.queries[n - 1], types);
    }
  }

  lemma {:induction false} DeduplicatedFits(qs: seq<NgramQuery>, n: nat, types: set<IndexType>)
    requires n <= |qs| && AllFit(qs, types)
    ensures AllFit(DeduplicatedUpTo(qs, n), types)
  {
    if n > 0 {
      DeduplicatedFits(qs, n - 1, types);
    }
  }

  lemma {:induction false} ProperFits(qs: seq<NgramQuery>, n: nat, types: set<IndexType>)
    requires n <= |qs| && AllFit(qs, types)
    ensures AllFit(ProperUpTo(qs, n), types)
  {
    if n > 0 {
      ProperFits(qs, n - 1, types);
    }
  }

  lemma PassFits(q: NgramQuery, types: set<IndexType>)
    requires Fits(q, types)
    ensures Fits(Pass(q), types)
  {
    var a := Flattened(q);
    assert Fits(a, types);
    if IsList(a) {
      InlinedFits(a, |a.queries|, types);
    }
    var b := Inlined(a);
    assert Fits(b, types);
    if IsList(b) {
      DeduplicatedFits(b.queries, |b.queries|, types);
    }
    var d := MinOfSimplified(Deduplicated(b));
    assert Fits(d, types);
    if !d.Leaf? {
      ProperFits(d.queries, |d.queries|, types);
    }
  }

  lemma {:induction false} FixpointFits(q: NgramQuery, types: set<IndexType>)
    requires Fits(q, types)
    ensures Fits(Fixpoint(q), types)
    decreases Nodes(q), if q.MinOf? then 1 else 0
  {
    PassSmaller(q);
    if Pass(q) != q {
      PassFits(q, types);
      FixpointFits(Pass(q), types);
    }
  }

  /** The optimizer raises no count and invents no n-gram of another type. */
  lemma {:induction false} OptimizedFits(q: NgramQuery, types: set<IndexType>)
    requires Fits(q, types)
    ensures Fits(Optimized(q), types)
  {
    if !q.Leaf? {
      var qs := seq(|q.queries|, i requires 0 <= i < |q.queries| => Optimized(q.queries[i]));
      forall i | 0 <= i < |qs| ensures Fits(qs[i], types) {
        OptimizedFits(q.queries[i], types);
      }
      FixpointFits(WithQueries(q, qs), types);
      var r := Fixpoint(WithQueries(q, qs));
      if r.And? {
        var rs := StableSort(r.queries, |r.queries|);
        forall i | 0 <= i < |rs| ensures Fits(rs[i], types) {
          StableSortMembers(r.queries, rs[i]);
        }
      }
    }
  }

  // ----- the optimizer, as it runs -----

  method FlattenTrivialOperations(q: NgramQuery, changed: bool) returns (r: NgramQuery, changed': bool)
    ensures r == Flattened(q) && changed' == (changed || r != q)
  {
    FlattenedSmaller(q);
    if q.And? && |q.queries| == 1 {
      return q.queries[0], true;
    }
    if q.Or? && |q.queries| == 1 {
      return q.queries[0], true;
    }
    return q, changed;
  }

  method InlineSuboperations(q: NgramQuery, changed: bool) returns (r: NgramQuery, changed': bool)
    ensures r == Inlined(q) && changed' == (changed || r != q)
  {
    InlinedSmaller(q);
    changed' := changed;
    if !q.And? && !q.Or? {
      return q, changed';
    }
    var newqueries: seq<NgramQuery> := [];
    for k := 0 to |q.queries|
      invariant newqueries == InlinedUpTo(q, k)
      invariant changed' == (changed || !NothingToInline(q, k))
    {
      var query := q.queries[k];
      if SameList(q, query) {
        newqueries := AppendAll(newqueries, query.queries);
        changed' := true;
      } else {
        newqueries := newqueries + [query];
      }
    }
    r := WithQueries(q, newqueries);
  }

  method AppendAll(to: seq<NgramQuery>, from: seq<NgramQuery>) returns (r: seq<NgramQuery>)
    ensures r == to + from
  {
    r := to;
    for j := 0 to |from|
      invariant r == to + from[..j]
    {
      r := r + [from[j]];
    }
  }

  ghost predicate Seen(seen: set<PrimitiveQuery>, qs: seq<NgramQuery>, n: nat)
    requires n <= |qs|
  {
    forall g: PrimitiveQuery :: g in seen <==> Leaf(g) in qs[..n]
  }

  lemma SeenMore(seen: set<PrimitiveQuery>, qs: seq<NgramQuery>, n: nat)
    requires n < |qs| && Seen(seen, qs, n)
    ensures Repeated(qs, n) <==> qs[n].Leaf? && qs[n].leaf in seen
    ensures Seen(if qs[n].Leaf? then seen + {qs[n].leaf} else seen, qs, n + 1)
  {
    assert qs[..n + 1] == qs[..n] + [qs[n]];
  }

  method DeduplicatePrimitives(q: NgramQuery, changed: bool) returns (r: NgramQuery, changed': bool)
    ensures r == Deduplicated(q) && changed' == (changed || r != q)
  {
    DeduplicatedSmaller(q);
    changed' := changed;
    if !q.And? && !q.Or? {
      return q, changed';
    }
    var seen: set<PrimitiveQuery> := {};
    var newqueries: seq<NgramQuery> := [];
    for k := 0 to |q.queries|
      invariant newqueries == DeduplicatedUpTo(q.queries, k)
      invariant Seen(seen, q.queries, k)
      invariant changed' == (changed || !NothingRepeated(q.queries, k))
    {
      var query := q.queries[k];
      SeenMore(seen, q.queries, k);
      if !query.Leaf? {
        newqueries := newqueries + [query];
      } else if query.leaf !in seen {
        newqueries := newqueries + [query];
        seen := seen + {query.leaf};
      } else {
        changed' := true;
        assert seen + {query.leaf} == seen;
      }
    }
    r := WithQueries(q, newqueries);
  }

  method SimplifyMinof(q: NgramQuery, changed: bool) returns (r: NgramQuery, changed': bool)
    ensures r == MinOfSimplified(q) && changed' == (changed || r != q)
  {
    if q.MinOf? {
      if q.count == |q.queries| {
        return And(q.queries), true;
      } else if q.count == 1 {
        return Or(q.queries), true;
      } else if q.count == 0 {
        return EVERYTHING, true;
      }
    }
    return q, changed;
  }

  /** The count never drops below zero, provided it does not start there. */
  method PropagateDegenerateQueries(q: NgramQuery, changed: bool) returns (r: NgramQuery, changed': bool)
    requires q.MinOf? ==> q.count > 0
    ensures r == Propagated(q) && changed' == (changed || r != q)
  {
    PropagatedSmaller(q);
    changed' := changed;
    if q.MinOf? {
      r, changed' := PropagateInMinOf(q, changed);
      return;
    }
    if q.Or? {
      for k := 0 to |q.queries|
        invariant NothingTrivial(q.queries, k)
      {
        if IsEverything(q.queries[k]) {
          ProperNodes(q.queries, |q.queries|);
          assert !NothingTrivial(q.queries, |q.queries|);
          return EVERYTHING, true;
        }
      }
    }
    r := q;
  }

  method PropagateInMinOf(q: NgramQuery, changed: bool) returns (r: NgramQuery, changed': bool)
    requires q.MinOf? && q.count > 0
    ensures r == Propagated(q) && changed' == (changed || r != q)
  {
    PropagatedSmaller(q);
    changed' := changed;
    var newqueries: seq<NgramQuery> := [];
    var count := q.count;
    for k := 0 to |q.queries|
      invariant newqueries == ProperUpTo(q.queries, k)
      invariant count > 0 && count == q.count - Trivial(q.queries, k)
      invariant changed' == (changed || !NothingTrivial(q.queries, k))
    {
      var query := q.queries[k];
      if IsEverything(query) {
        count := count - 1;
        changed' := true;
        if count == 0 {
          TrivialMonotone(q.queries, k + 1, |q.queries|);
          return EVERYTHING, changed';
        }
      } else {
        newqueries := newqueries + [query];
      }
    }
    r := MinOf(count, newqueries);
  }

  lemma {:induction false} TrivialMonotone(qs: seq<NgramQuery>, m: nat, n: nat)
    requires m <= n <= |qs|
    ensures Trivial(qs, m) <= Trivial(qs, n)
  {
    if m < n {
      TrivialMonotone(qs, m, n - 1);
    }
  }

  /** One iteration of the loop; it reports a change exactly when it makes one. */
  method Iterate(q: NgramQuery) returns (r: NgramQuery, changed: bool)
    ensures r == Pass(q) && changed == (r != q)
  {
    PassSmaller(q);
    var a, b, c, d;
    a, changed := FlattenTrivialOperations(q, false);
    b, changed := InlineSuboperations(a, changed);
    c, changed := DeduplicatePrimitives(b, changed);
    d, changed := SimplifyMinof(c, changed);
    r, changed := PropagateDegenerateQueries(d, changed);
    FlattenedSmaller(q);
    InlinedSmaller(a);
    DeduplicatedSmaller(b);
    MinOfSimplifiedSmaller(c);
    PropagatedSmaller(d);
  }

  method SimplifySubqueries(q: NgramQuery) returns (r: NgramQuery)
    requires !q.Leaf?
    ensures r == WithQueries(q, seq(|q.queries|, i requires 0 <= i < |q.queries| => Optimized(q.queries[i])))
    decreases q, 0
  {
    var newqueries: seq<NgramQuery> := [];
    for k := 0 to |q.queries|
      invariant |newqueries| == k && forall j :: 0 <= j < k ==> newqueries[j] == Optimized(q.queries[j])
    {
      var query := QOptimize(q.queries[k]);
      newqueries := newqueries + [query];
    }
    assert newqueries == seq(|q.queries|, i requires 0 <= i < |q.queries| => Optimized(q.queries[i]));
    r := WithQueries(q, newqueries);
  }

  method QOptimize(q: NgramQuery) returns (r: NgramQuery)
    ensures r == Optimized(q)
    decreases q, 1
  {
    if q.Leaf? {
      return q;
    }
    r := SimplifySubqueries(q);
    ghost var start := r;
    var changed := true;
    while changed
      invariant Fixpoint(start) == Fixpoint(r) && (!changed ==> Pass(r) == r)
      decreases Nodes(r), if r.MinOf? then 1 else 0, changed
    {
      PassSmaller(r);
      r, changed := Iterate(r);
    }
    r := ReorderSubqueries(r);
  }

  /** The parts of an AND, in order of cost; those of equal cost in their old order. */
  method ReorderSubqueries(q: NgramQuery) returns (r: NgramQuery)
    ensures r == Reordered(q)
    ensures q.And? ==> r.And? && CostSorted(r.queries) && multiset(r.queries) == multiset(q.queries)
    ensures q.And? ==> forall cost :: OfCost(r.queries, cost) == OfCost(q.queries, cost)
    ensures !q.And? ==> r == q
  {
    if q.And? {
      assert q.queries[..|q.queries|] == q.queries;
      StableSortSorts(q.queries, |q.queries|);
      StableSortPermutes(q.queries, |q.queries|);
      forall cost ensures OfCost(StableSort(q.queries, |q.queries|), cost) == OfCost(q.queries, cost) {
        StableSortIsStable(q.queries, |q.queries|, cost);
      }
      return And(StableSort(q.queries, |q.queries|));
    }
    return q;
  }
}
