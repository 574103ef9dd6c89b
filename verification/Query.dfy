/** Query trees, and what it means for a file to satisfy one. */
module Queries {
  import opened Core

  /** A query over leaves of type `L`: byte patterns before planning, n-grams after. */
  datatype Query<+L> =
    | Leaf(leaf: L)
    | And(queries: seq<Query<L>>)
    | Or(queries: seq<Query<L>>)
    | MinOf(count: nat, queries: seq<Query<L>>)

  /** An n-gram together with the type of the index to look it up in. */
  datatype PrimitiveQuery = PrimitiveQuery(itype: IndexType, trigram: TriGram)

  function CountTrue(bs: seq<bool>, n: nat): nat
    requires n <= |bs|
  {
    if n == 0 then 0 else CountTrue(bs, n - 1) + (if bs[n - 1] then 1 else 0)
  }

  /** Whether `q` is satisfied when exactly the leaves in `p` are. */
  predicate Holds<L(!new)>(q: Query<L>, p: L -> bool) {
    match q
    case Leaf(l) => p(l)
    case And(qs) => forall i :: 0 <= i < |qs| ==> Holds(qs[i], p)
    case Or(qs) => exists i :: 0 <= i < |qs| && Holds(qs[i], p)
    case MinOf(c, qs) => c <= CountTrue(seq(|qs|, i requires 0 <= i < |qs| => Holds(qs[i], p)), |qs|)
  }

  /** How many of the first `n` queries hold. */
  function Tally<L(!new)>(qs: seq<Query<L>>, n: nat, p: L -> bool): (r: nat)
    requires n <= |qs|
    ensures r <= n
  {
    if n == 0 then 0 else Tally(qs, n - 1, p) + (if Holds(qs[n - 1], p) then 1 else 0)
  }

  lemma MinOfHolds<L(!new)>(c: nat, qs: seq<Query<L>>, p: L -> bool)
    ensures Holds(MinOf(c, qs), p) <==> c <= Tally(qs, |qs|, p)
  {
    var bs := seq(|qs|, i requires 0 <= i < |qs| => Holds(qs[i], p));
    CountIsTally(qs, bs, |qs|, p);
  }

  lemma {:induction false} CountIsTally<L(!new)>(qs: seq<Query<L>>, bs: seq<bool>, n: nat, p: L -> bool)
    requires n <= |qs| == |bs| && forall i :: 0 <= i < |qs| ==> bs[i] == Holds(qs[i], p)
    ensures CountTrue(bs, n) == Tally(qs, n, p)
  {
    if n > 0 {
      CountIsTally(qs, bs, n - 1, p);
    }
  }

  /** "All of" and "one of" are the two ends of "at least so many of". */
  lemma {:induction false} TallyEnds<L(!new)>(qs: seq<Query<L>>, n: nat, p: L -> bool)
    requires n <= |qs|
    ensures Tally(qs, n, p) == n <==> forall i :: 0 <= i < n ==> Holds(qs[i], p)
    ensures Tally(qs, n, p) >= 1 <==> exists i :: 0 <= i < n && Holds(qs[i], p)
  {
    if n > 0 {
      TallyEnds(qs, n - 1, p);
    }
  }

  /** Queries that agree one by one are counted alike. */
  lemma {:induction false} TallySame<L(!new), M(!new)>(qs: seq<Query<L>>, rs: seq<Query<M>>, n: nat, p: L -> bool, q: M -> bool)
    requires n <= |qs| && n <= |rs|
    requires forall i :: 0 <= i < n ==> Holds(qs[i], p) == Holds(rs[i], q)
    ensures Tally(qs, n, p) == Tally(rs, n, q)
  {
    if n > 0 {
      TallySame(qs, rs, n - 1, p, q);
    }
  }

  lemma {:induction false} TallyMonotone<L(!new)>(qs: seq<Query<L>>, n: nat, p: L -> bool, p': L -> bool)
    requires n <= |qs| && forall i :: 0 <= i < n ==> Holds(qs[i], p) ==> Holds(qs[i], p')
    ensures Tally(qs, n, p) <= Tally(qs, n, p')
  {
    if n > 0 {
      TallyMonotone(qs, n - 1, p, p');
    }
  }

  /** A file that satisfies more leaves satisfies no fewer queries. */
  lemma {:induction false} HoldsMonotone<L(!new)>(q: Query<L>, p: L -> bool, p': L -> bool)
    requires Holds(q, p) && forall l :: p(l) ==> p'(l)
    ensures Holds(q, p')
  {
    if !q.Leaf? {
      forall i | 0 <= i < |q.queries| && Holds(q.queries[i], p) ensures Holds(q.queries[i], p') {
        HoldsMonotone(q.queries[i], p, p');
      }
      if q.MinOf? {
        MinOfHolds(q.count, q.queries, p);
        MinOfHolds(q.count, q.queries, p');
        TallyMonotone(q.queries, |q.queries|, p, p');
      }
    }
  }

  /** Queries of the same form whose parts agree, agree. */
  lemma HoldsParts<L(!new)>(q: Query<L>, r: Query<L>, p: L -> bool)
    requires !q.Leaf? && !r.Leaf? && SameForm(q, r) && |q.queries| == |r.queries|
    requires forall i :: 0 <= i < |q.queries| ==> Holds(q.queries[i], p) == Holds(r.queries[i], p)
    ensures Holds(q, p) == Holds(r, p)
  {
    if q.MinOf? {
      MinOfHolds(q.count, q.queries, p);
      MinOfHolds(r.count, r.queries, p);
      TallySame(q.queries, r.queries, |q.queries|, p, p);
    }
  }

  predicate SameForm<L>(q: Query<L>, r: Query<L>) {
    || (q.Leaf? && r.Leaf?)
    || (q.And? && r.And?)
    || (q.Or? && r.Or?)
    || (q.MinOf? && r.MinOf? && q.count == r.count)
  }

  /** The counts of MIN_OF fit into an `int`, as the parser guarantees. */
  predicate SmallCounts<L>(q: Query<L>) {
    !q.Leaf? ==>
      && (q.MinOf? ==> q.count < 0x8000_0000)
      && forall i :: 0 <= i < |q.queries| ==> SmallCounts(q.queries[i])
  }

  /** A planned query that can be run: its counts are small and its n-grams have one of the given types. */
  predicate Fits(q: Query<PrimitiveQuery>, types: set<IndexType>) {
    if q.Leaf? then q.leaf.itype in types
    else
      && (q.MinOf? ==> q.count < 0x8000_0000)
      && forall i :: 0 <= i < |q.queries| ==> Fits(q.queries[i], types)
  }

  /** Only n-grams of these types matter then. */
  lemma {:induction false} HoldsFits(q: Query<PrimitiveQuery>, types: set<IndexType>, p: PrimitiveQuery -> bool,
      p': PrimitiveQuery -> bool)
    requires Fits(q, types) && forall g: PrimitiveQuery :: g.itype in types ==> p(g) == p'(g)
    ensures Holds(q, p) == Holds(q, p')
  {
    if !q.Leaf? {
      forall i | 0 <= i < |q.queries| ensures Holds(q.queries[i], p) == Holds(q.queries[i], p') {
        HoldsFits(q.queries[i], types, p, p');
      }
      if q.MinOf? {
        MinOfHolds(q.count, q.queries, p);
        MinOfHolds(q.count, q.queries, p');
        TallySame(q.queries, q.queries, |q.queries|, p, p');
      }
    }
  }
}
