/** Sets of file ids, stored or decompressed, and the operations on them (`SortedRun`). */
module SortedRuns {
  import opened Core
  import opened Codec
  import opened RunWriters

  // ----- intersection and union of strictly increasing lists -----

  /** `std::set_intersection` */
  function Meet(a: Run, b: Run): Run
    decreases |a| + |b|
  {
    if a == [] || b == [] then []
    else if a[0] < b[0] then Meet(a[1..], b)
    else if b[0] < a[0] then Meet(a, b[1..])
    else [a[0]] + Meet(a[1..], b[1..])
  }

  /** `std::set_union` */
  function Join(a: Run, b: Run): Run
    decreases |a| + |b|
  {
    if a == [] then b
    else if b == [] then a
    else if a[0] < b[0] then [a[0]] + Join(a[1..], b)
    else if b[0] < a[0] then [b[0]] + Join(a, b[1..])
    else [a[0]] + Join(a[1..], b[1..])
  }

  lemma HeadOrTail(s: seq<int>, x: int)
    ensures x in s <==> s != [] && (x == s[0] || x in s[1..])
  {
    if s != [] {
      assert s == [s[0]] + s[1..];
    }
  }

  lemma ConsIn(first: int, s: seq<int>, x: int)
    ensures x in [first] + s <==> x == first || x in s
  {
  }

  lemma {:induction false} NotBelow(prev: int, s: seq<int>, x: int)
    requires AscendingFrom(prev, s) && x in s
    ensures prev < x
    decreases |s|
  {
    HeadOrTail(s, x);
    if x != s[0] {
      NotBelow(s[0], s[1..], x);
    }
  }

  lemma {:induction false} LowerStart(prev: int, p: int, s: seq<int>)
    requires AscendingFrom(p, s) && prev <= p
    ensures AscendingFrom(prev, s)
  {
  }

  /** The intersection is strictly increasing and holds exactly the common ids. */
  lemma {:induction false} MeetExactly(prev: int, a: Run, b: Run, x: int)
    requires AscendingFrom(prev, a) && AscendingFrom(prev, b)
    ensures AscendingFrom(prev, Meet(a, b))
    ensures x in Meet(a, b) <==> x in a && x in b
    decreases |a| + |b|
  {
    if a != [] && b != [] {
      HeadOrTail(a, x);
      HeadOrTail(b, x);
      if x in a[1..] {
        NotBelow(a[0], a[1..], x);
      }
      if x in b[1..] {
        NotBelow(b[0], b[1..], x);
      }
      if a[0] < b[0] {
        LowerStart(prev, a[0], a[1..]);
        MeetExactly(prev, a[1..], b, x);
      } else if b[0] < a[0] {
        LowerStart(prev, b[0], b[1..]);
        MeetExactly(prev, a, b[1..], x);
      } else {
        MeetExactly(a[0], a[1..], b[1..], x);
        ConsAscends(prev, a[0], Meet(a[1..], b[1..]));
        ConsIn(a[0], Meet(a[1..], b[1..]), x);
      }
    }
  }

  lemma ConsAscends(prev: int, first: int, s: seq<int>)
    requires prev < first && AscendingFrom(first, s)
    ensures AscendingFrom(prev, [first] + s)
  {
    assert ([first] + s)[1..] == s;
  }

  /** The union is strictly increasing and holds exactly the ids of either list. */
  lemma {:induction false} JoinExactly(prev: int, a: Run, b: Run, x: int)
    requires AscendingFrom(prev, a) && AscendingFrom(prev, b)
    ensures AscendingFrom(prev, Join(a, b))
    ensures x in Join(a, b) <==> x in a || x in b
    decreases |a| + |b|
  {
    if a != [] && b != [] {
      HeadOrTail(a, x);
      HeadOrTail(b, x);
      if a[0] < b[0] {
        JoinExactly(a[0], a[1..], b, x);
        ConsAscends(prev, a[0], Join(a[1..], b));
        ConsIn(a[0], Join(a[1..], b), x);
      } else if b[0] < a[0] {
        JoinExactly(b[0], a, b[1..], x);
        ConsAscends(prev, b[0], Join(a, b[1..]));
        ConsIn(b[0], Join(a, b[1..]), x);
      } else {
        JoinExactly(a[0], a[1..], b[1..], x);
        ConsAscends(prev, a[0], Join(a[1..], b[1..]));
        ConsIn(a[0], Join(a[1..], b[1..]), x);
      }
    }
  }

  lemma RunIsSet(prev: int, a: Run, b: Run)
    requires AscendingFrom(prev, a) && AscendingFrom(prev, b)
    ensures AscendingFrom(prev, Meet(a, b)) && AscendingFrom(prev, Join(a, b))
  {
    MeetExactly(prev, a, b, 0);
    JoinExactly(prev, a, b, 0);
  }

  // ----- the class -----

  lemma CanonicalDefined(bytes: Bytes)
    requires Canonical(bytes)
    ensures ShiftsDefined(bytes, 0) && AscendingFrom(-1, DecodeRun(bytes))
    ensures bytes == [] <==> DecodeRun(bytes) == []
  {
    DecodeEncode(DecodeRun(bytes));
  }

  /** A strictly increasing list of file ids, in one of two forms. */
  class SortedRun {
    var sequence: Run
    var run: Bytes

    /** Only one of the two forms is in use at any time. */
    ghost predicate Valid()
      reads this
    {
      && (sequence == [] || run == [])
      && AscendingFrom(-1, sequence) && Canonical(run)
    }

    /** The ids, whatever form they are in. */
    ghost function Ids(): Run
      reads this
    {
      if run == [] then sequence else DecodeRun(run)
    }

    constructor FromIds(ids: Run)
      requires AscendingFrom(-1, ids)
      ensures Valid() && Ids() == ids && run == []
    {
      sequence, run := ids, [];
      new;
      assert DecodeRun([]) == [];
    }

    constructor FromBytes(bytes: Bytes)
      requires Canonical(bytes)
      ensures Valid() && Ids() == DecodeRun(bytes) && sequence == []
    {
      sequence, run := [], bytes;
    }

    predicate Empty()
      reads this
    {
      sequence == [] && run == []
    }

    lemma EmptyIsEmpty()
      requires Valid()
      ensures Empty() <==> Ids() == []
      ensures AscendingFrom(-1, Ids())
    {
      CanonicalDefined(run);
    }

    predicate IsCompressed()
      reads this
    {
      run != []
    }

    method Clone() returns (r: SortedRun)
      requires Valid()
      ensures fresh(r) && r.Valid() && r.Ids() == Ids()
    {
      r := new SortedRun.FromIds([]);
      r.sequence, r.run := sequence, run;
    }

    method Decompress()
      requires Valid()
      modifies this
      ensures Valid() && run == [] && sequence == old(Ids()) == Ids()
    {
      if run == [] {
        return;
      }
      CanonicalDefined(run);
      sequence := ReadCompressedRun(run);
      run := [];
      assert DecodeRun([]) == [];
    }

    /** Adds the ids of the other run. */
    method DoOr(other: SortedRun)
      requires Valid() && other.Valid() && other != this
      modifies this
      ensures Valid() && run == [] && Ids() == Join(other.Ids(), old(Ids()))
    {
      other.EmptyIsEmpty();
      Decompress();
      RunIsSet(-1, other.Ids(), sequence);
      if other.IsCompressed() {
        sequence := UnionCompressed(other.run, sequence);
      } else {
        sequence := UnionPlain(other.sequence, sequence);
      }
    }

    /** Keeps the ids that the other run has too, overwriting the sequence while it is read. */
    method DoAnd(other: SortedRun)
      requires Valid() && other.Valid() && other != this
      modifies this
      ensures Valid() && run == [] && Ids() == Meet(other.Ids(), old(Ids()))
    {
      other.EmptyIsEmpty();
      Decompress();
      RunIsSet(-1, other.Ids(), sequence);
      if other.IsCompressed() {
        IntersectCompressed(other.run);
      } else {
        IntersectPlain(other.sequence);
      }
    }

    method IntersectPlain(a: Run)
      modifies this`sequence
      ensures sequence == Meet(a, old(sequence))
    {
      ghost var b := sequence;
      var i, j, w := 0, 0, 0;
      assert a[0..] == a && b[0..] == b;
      while i < |a| && j < |sequence|
        invariant i <= |a| && w <= j <= |sequence| == |b|
        invariant sequence[j..] == b[j..]
        invariant sequence[..w] + Meet(a[i..], b[j..]) == Meet(a, b)
        decreases |a| - i + |b| - j
      {
        Heads(sequence, b, j);
        TailOf(a, i);
        TailOf(b, j);
        if a[i] < sequence[j] {
          i := i + 1;
        } else {
          if !(sequence[j] < a[i]) {
            Overwrite(w, j, a[i], Meet(a[i + 1..], b[j + 1..]), b);
            w, i := w + 1, i + 1;
          }
          j := j + 1;
        }
      }
      sequence := sequence[..w];
    }

    /** Writes one id of the result over a part of the sequence that has been read already. */
    method Overwrite(w: nat, j: nat, x: FileId, ghost rest: Run, ghost b: Run)
      requires w <= j < |sequence| == |b| && sequence[j..] == b[j..]
      modifies this`sequence
      ensures |sequence| == |b| && sequence[j + 1..] == b[j + 1..]
      ensures sequence[..w + 1] + rest == old(sequence[..w]) + ([x] + rest)
    {
      assert sequence[j + 1..] == sequence[j..][1..] == b[j..][1..] == b[j + 1..];
      sequence := sequence[w := x];
      assert sequence[..w + 1] == old(sequence[..w]) + [x];
    }

    method IntersectCompressed(bytes: Bytes)
      requires Canonical(bytes)
      modifies this`sequence
      ensures sequence == Meet(DecodeRun(bytes), old(sequence))
    {
      ghost var b := sequence;
      var it := new RunIterator(bytes);
      ghost var a := it.rest;
      var j, w := 0, 0;
      assert b[0..] == b;
      it.MoreIsNonempty();
      while it.More() && j < |sequence|
        invariant it.Valid() && (it.More() <==> it.rest != [])
        invariant w <= j <= |sequence| == |b|
        invariant sequence[j..] == b[j..]
        invariant sequence[..w] + Meet(it.rest, b[j..]) == Meet(a, b)
        decreases |it.rest| + |b| - j
      {
        Heads(sequence, b, j);
        TailOf(b, j);
        var id := it.Current();
        if id < sequence[j] {
          it.Advance();
        } else {
          if !(sequence[j] < id) {
            Overwrite(w, j, id, Meet(it.rest[1..], b[j + 1..]), b);
            w := w + 1;
            it.Advance();
          }
          j := j + 1;
        }
        it.MoreIsNonempty();
      }
      sequence := sequence[..w];
    }
  }

  lemma Heads(s: Run, b: Run, j: nat)
    requires j < |s| == |b| && s[j..] == b[j..]
    ensures s[j] == b[j] && s[j + 1..] == b[j + 1..]
  {
    assert s[j..][0] == b[j..][0];
    assert s[j..][1..] == b[j..][1..];
  }

  lemma TailOf(s: Run, i: nat)
    requires i < |s|
    ensures s[i..] != [] && s[i..][0] == s[i] && s[i..][1..] == s[i + 1..]
  {
  }

  method UnionPlain(a: Run, b: Run) returns (r: Run)
    ensures r == Join(a, b)
  {
    r := [];
    var i, j := 0, 0;
    assert a[0..] == a && b[0..] == b;
    while i < |a| && j < |b|
      invariant i <= |a| && j <= |b|
      invariant r + Join(a[i..], b[j..]) == Join(a, b)
      decreases |a| - i + |b| - j
    {
      TailOf(a, i);
      TailOf(b, j);
      if a[i] < b[j] {
        Assoc(r, [a[i]], Join(a[i + 1..], b[j..]));
        r, i := r + [a[i]], i + 1;
      } else if b[j] < a[i] {
        Assoc(r, [b[j]], Join(a[i..], b[j + 1..]));
        r, j := r + [b[j]], j + 1;
      } else {
        Assoc(r, [a[i]], Join(a[i + 1..], b[j + 1..]));
        r, i, j := r + [a[i]], i + 1, j + 1;
      }
    }
    r := r + a[i..] + b[j..];
  }

  method UnionCompressed(bytes: Bytes, b: Run) returns (r: Run)
    requires Canonical(bytes)
    ensures r == Join(DecodeRun(bytes), b)
  {
    r := [];
    var it := new RunIterator(bytes);
    ghost var a := it.rest;
    var j := 0;
    assert b[0..] == b;
    it.MoreIsNonempty();
    while it.More() && j < |b|
      invariant it.Valid() && (it.More() <==> it.rest != []) && j <= |b|
      invariant r + Join(it.rest, b[j..]) == Join(a, b)
      decreases |it.rest| + |b| - j
    {
      TailOf(b, j);
      var id := it.Current();
      if id < b[j] {
        Assoc(r, [id], Join(it.rest[1..], b[j..]));
        r := r + [id];
        it.Advance();
      } else if b[j] < id {
        Assoc(r, [b[j]], Join(it.rest, b[j + 1..]));
        r, j := r + [b[j]], j + 1;
      } else {
        Assoc(r, [id], Join(it.rest[1..], b[j + 1..]));
        r, j := r + [id], j + 1;
        it.Advance();
      }
      it.MoreIsNonempty();
    }
    r := CopyRest(it, r, b[j..]);
  }

  /** Copies what is left of either input once the other is exhausted. */
  method CopyRest(it: RunIterator, r: Run, rest: Run) returns (r': Run)
    requires it.Valid() && (it.rest == [] || rest == [])
    modifies it
    ensures r' == r + Join(old(it.rest), rest)
  {
    r' := r;
    it.MoreIsNonempty();
    ghost var left := it.rest;
    while it.More()
      invariant it.Valid() && (it.More() <==> it.rest != [])
      invariant r' + it.rest == r + left
      decreases |it.rest|
    {
      var id := it.Current();
      Assoc(r', [id], it.rest[1..]);
      assert it.rest == [id] + it.rest[1..];
      r' := r' + [id];
      it.Advance();
      it.MoreIsNonempty();
    }
    assert r' == r + left;
    r' := r' + rest;
    assert rest == [] ==> r + left + rest == r + left;
  }

  // ----- ids that occur in enough lists -----

  /** How many of the first `n` lists hold `x`. */
  function Occurrences(lists: seq<Run>, n: nat, x: int): (r: nat)
    requires n <= |lists|
    ensures r <= n
  {
    if n == 0 then 0 else Occurrences(lists, n - 1, x) + (if x in lists[n - 1] then 1 else 0)
  }

  lemma {:induction false} OccurrencesPrefix(a: seq<Run>, b: seq<Run>, n: nat, x: int)
    requires n <= |a| && n <= |b| && a[..n] == b[..n]
    ensures Occurrences(a, n, x) == Occurrences(b, n, x)
  {
    if n > 0 {
      assert a[..n - 1] == a[..n][..n - 1] == b[..n][..n - 1] == b[..n - 1];
      assert a[n - 1] == a[..n][n - 1] == b[..n][n - 1] == b[n - 1];
      OccurrencesPrefix(a, b, n - 1, x);
    }
  }

  lemma OccurrencesMore(lists: seq<Run>, run: Run, x: int)
    ensures Occurrences(lists + [run], |lists| + 1, x) == Occurrences(lists, |lists|, x) + (if x in run then 1 else 0)
  {
    OccurrencesPrefix(lists + [run], lists, |lists|, x);
  }

  /** All heads have something left, and all that is left lies above `prev`. */
  ghost predicate Headed(heads: seq<Run>, prev: int) {
    forall i :: 0 <= i < |heads| ==> heads[i] != [] && AscendingFrom(prev, heads[i])
  }

  lemma {:induction false} NoneBelow(heads: seq<Run>, n: nat, prev: int, x: int)
    requires n <= |heads| && Headed(heads, prev)
    requires forall i :: 0 <= i < n ==> x < heads[i][0]
    ensures Occurrences(heads, n, x) == 0
  {
    if n > 0 {
      NoneBelow(heads, n - 1, prev, x);
      var h := heads[n - 1];
      if x in h {
        HeadOrTail(h, x);
        NotBelow(h[0], h[1..], x);
      }
    }
  }

  /** The first `m` lists of `a` and the first `n` of `b` agree on all ids above `id`. */
  ghost predicate SameAbove(id: int, a: seq<Run>, m: nat, b: seq<Run>, n: nat)
    requires m <= |a| && n <= |b|
  {
    forall x :: id < x ==> Occurrences(a, m, x) == Occurrences(b, n, x)
  }

  function Size(lists: seq<Run>, n: nat): nat
    requires n <= |lists|
  {
    if n == 0 then 0 else Size(lists, n - 1) + |lists[n - 1]|
  }

  lemma {:induction false} SizePrefix(a: seq<Run>, b: seq<Run>, n: nat)
    requires n <= |a| && n <= |b| && a[..n] == b[..n]
    ensures Size(a, n) == Size(b, n)
  {
    if n > 0 {
      assert a[..n - 1] == a[..n][..n - 1] == b[..n][..n - 1] == b[..n - 1];
      assert a[n - 1] == a[..n][n - 1] == b[..n][n - 1] == b[n - 1];
      SizePrefix(a, b, n - 1);
    }
  }

  lemma SizeMore(lists: seq<Run>, run: Run)
    ensures Size(lists + [run], |lists| + 1) == Size(lists, |lists|) + |run|
  {
    SizePrefix(lists + [run], lists, |lists|);
  }

  /** The first of the heads with the lowest id. */
  method FindMin(heads: seq<Run>, ghost prev: int) returns (minIndex: nat, minId: FileId)
    requires heads != [] && Headed(heads, prev)
    ensures minIndex < |heads| && heads[minIndex][0] == minId
    ensures forall i :: 0 <= i < |heads| ==> minId <= heads[i][0]
    ensures forall i :: 0 <= i < minIndex ==> minId < heads[i][0]
  {
    minIndex, minId := 0, heads[0][0];
    for i := 1 to |heads|
      invariant minIndex < i && heads[minIndex][0] == minId
      invariant forall j :: 0 <= j < i ==> minId <= heads[j][0]
      invariant forall j :: 0 <= j < minIndex ==> minId < heads[j][0]
    {
      if heads[i][0] < minId {
        minIndex, minId := i, heads[i][0];
      }
    }
  }

  /**
   * The state of the counting loop: the first `n` heads have been looked at, and `done` is what is
   * left of them after `count` of them have been moved past `id`.
   */
  ghost predicate Counted(heads: seq<Run>, n: nat, id: int, done: seq<Run>, count: nat)
    requires n <= |heads|
  {
    && Headed(done, id)
    && count == Occurrences(heads, n, id)
    && SameAbove(id, done, |done|, heads, n)
    && Size(done, |done|) + count == Size(heads, n)
  }

  lemma CountedStart(heads: seq<Run>, n: nat, prev: int, id: int)
    requires n <= |heads| && Headed(heads, prev) && forall i :: 0 <= i < n ==> id < heads[i][0]
    ensures Counted(heads, n, id, heads[..n], 0)
  {
    NoneBelow(heads, n, prev, id);
    forall x ensures Occurrences(heads[..n], n, x) == Occurrences(heads, n, x) {
      OccurrencesPrefix(heads[..n], heads, n, x);
    }
    SizePrefix(heads[..n], heads, n);
  }

  /** What becomes of one head: it is moved past `id`, and goes if nothing is left of it. */
  function Passed(h: Run, id: FileId): seq<Run>
    requires h != []
  {
    if h[0] != id then [h] else if |h| == 1 then [] else [h[1..]]
  }

  lemma CountedMore(heads: seq<Run>, n: nat, prev: int, id: FileId, done: seq<Run>, count: nat)
    requires n < |heads| && Headed(heads, prev) && id <= heads[n][0] && Counted(heads, n, id, done, count)
    ensures Counted(heads, n + 1, id, done + Passed(heads[n], id), if heads[n][0] == id then count + 1 else count)
  {
    var h := heads[n];
    HeadOrTail(h, id);
    if id in h[1..] {
      NotBelow(h[0], h[1..], id);
    }
    assert done + [] == done;
    assert Headed(done + Passed(h, id), id);
    forall x | id < x
      ensures Occurrences(done + Passed(h, id), |done + Passed(h, id)|, x) == Occurrences(heads, n + 1, x)
    {
      HeadOrTail(h, x);
      if Passed(h, id) != [] {
        OccurrencesMore(done, Passed(h, id)[0], x);
        assert done + Passed(h, id) == done + [Passed(h, id)[0]];
      }
    }
    if Passed(h, id) != [] {
      SizeMore(done, Passed(h, id)[0]);
      assert done + Passed(h, id) == done + [Passed(h, id)[0]];
    }
  }

  /** Counts the heads that start with `id`, the lowest, moving them on and erasing those that end. */
  method CountAndAdvance(heads: seq<Run>, start: nat, id: FileId, ghost prev: int)
    returns (left: seq<Run>, repeatCount: nat)
    requires Headed(heads, prev) && start < |heads| && heads[start][0] == id
    requires forall i :: 0 <= i < |heads| ==> id <= heads[i][0]
    requires forall i :: 0 <= i < start ==> id < heads[i][0]
    ensures Counted(heads, |heads|, id, left, repeatCount) && repeatCount > 0
  {
    left, repeatCount := heads, 0;
    var i: nat := start;
    ghost var n, done := start, heads[..start];
    CountedStart(heads, start, prev, id);
    while i < |left|
      invariant i == |done| && start <= n <= |heads| && (n > start ==> repeatCount > 0)
      invariant left == done + heads[n..]
      invariant Counted(heads, n, id, done, repeatCount)
      decreases |heads| - n
    {
      left, i, repeatCount := AdvanceOne(left, i, id, repeatCount, heads, n, done);
      CountedMore(heads, n, prev, id, done, if heads[n][0] == id then repeatCount - 1 else repeatCount);
      n, done := n + 1, done + Passed(heads[n], id);
    }
    assert left == done;
  }

  /** Looks at one head: counts it and moves it on if it starts with `id`. */
  method AdvanceOne(left: seq<Run>, i: nat, id: FileId, repeatCount: nat,
      ghost heads: seq<Run>, ghost n: nat, ghost done: seq<Run>)
    returns (left': seq<Run>, i': nat, repeatCount': nat)
    requires i < |left| && i == |done| && n <= |heads| && left == done + heads[n..] && left[i] != []
    ensures n < |heads| && heads[n] == left[i]
    ensures repeatCount' == if heads[n][0] == id then repeatCount + 1 else repeatCount
    ensures left' == done + Passed(heads[n], id) + heads[n + 1..] && i' == |done + Passed(heads[n], id)|
  {
    AdvanceHead(heads, n, done, left, id);
    left', repeatCount' := left, repeatCount;
    var i: int := i;
    if left'[i][0] == id {
      repeatCount' := repeatCount' + 1;
      var rest := left'[i][1..];
      if rest == [] {
        left' := left'[..i] + left'[i + 1..];
        i := i - 1;
      } else {
        left' := left'[i := rest];
      }
    }
    i' := i + 1;
  }

  /** Moving one head on, or erasing it, is replacing it by what `Passed` leaves. */
  lemma AdvanceHead(heads: seq<Run>, n: nat, done: seq<Run>, left: seq<Run>, id: FileId)
    requires n < |heads| && left == done + heads[n..] && heads[n] != []
    ensures |done| < |left| && left[|done|] == heads[n]
    ensures var i, h := |done|, heads[n];
      done + Passed(h, id) + heads[n + 1..]
      == if h[0] != id then left else if |h| == 1 then left[..i] + left[i + 1..] else left[i := h[1..]]
  {
    var i, h := |done|, heads[n];
    assert heads[n..] == [h] + heads[n + 1..];
    if h[0] == id && |h| == 1 {
      assert left[..i] == done && left[i + 1..] == heads[n + 1..];
    } else if h[0] == id {
      assert left[i := h[1..]] == done + [h[1..]] + heads[n + 1..];
    }
  }

  /** `result` holds exactly the ids up to `upTo` that occur in at least `cutoff` lists. */
  ghost predicate Picked(result: Run, upTo: int, lists: seq<Run>, cutoff: nat) {
    && AscendingFrom(-1, result) && LastOf(-1, result) <= upTo
    && forall x :: x in result <==> x <= upTo && Occurrences(lists, |lists|, x) >= cutoff
  }

  /** What is left to look at: the heads agree with the lists above the last id looked at. */
  ghost predicate Remaining(heads: seq<Run>, upTo: int, lists: seq<Run>) {
    && -1 <= upTo && Headed(heads, upTo)
    && SameAbove(upTo, heads, |heads|, lists, |lists|)
  }

  lemma PickNext(heads: seq<Run>, id: FileId, left: seq<Run>, count: nat, upTo: int, lists: seq<Run>, cutoff: nat,
      result: Run)
    requires heads != [] && Remaining(heads, upTo, lists) && Picked(result, upTo, lists, cutoff) && cutoff >= 1
    requires upTo < id && forall i :: 0 <= i < |heads| ==> id <= heads[i][0]
    requires Counted(heads, |heads|, id, left, count)
    ensures Remaining(left, id, lists)
    ensures Picked(if count >= cutoff then result + [id] else result, id, lists, cutoff)
  {
    forall x | upTo < x < id ensures Occurrences(lists, |lists|, x) == 0 {
      NoneBelow(heads, |heads|, upTo, x);
    }
    AscendingSplit(-1, result, [id]);
  }

  lemma PickDone(heads: seq<Run>, upTo: int, lists: seq<Run>, cutoff: nat, result: Run)
    requires Remaining(heads, upTo, lists) && Picked(result, upTo, lists, cutoff) && |heads| < cutoff
    ensures forall x :: x in result <==> Occurrences(lists, |lists|, x) >= cutoff
  {
    forall x | upTo < x ensures Occurrences(lists, |lists|, x) < cutoff {
      assert Occurrences(heads, |heads|, x) <= |heads|;
    }
  }

  /** The merge of all lists that finds the ids in at least `cutoff` of them, in order. */
  method PickFrom(cutoff: nat, start: seq<Run>, ghost lists: seq<Run>) returns (result: Run)
    requires cutoff >= 1 && Remaining(start, -1, lists) && Picked([], -1, lists, cutoff)
    ensures AscendingFrom(-1, result)
    ensures forall x :: x in result <==> Occurrences(lists, |lists|, x) >= cutoff
  {
    result := [];
    var heads := start;
    ghost var upTo: int := -1;
    while |heads| >= cutoff
      invariant Remaining(heads, upTo, lists) && Picked(result, upTo, lists, cutoff)
      decreases Size(heads, |heads|)
    {
      var minIndex, minId := FindMin(heads, upTo);
      var left, repeatCount := CountAndAdvance(heads, minIndex, minId, upTo);
      PickNext(heads, minId, left, repeatCount, upTo, lists, cutoff, result);
      if repeatCount >= cutoff {
        result := result + [minId];
      }
      heads, upTo := left, minId;
    }
    PickDone(heads, upTo, lists, cutoff, result);
  }

  ghost function IdsOf(sources: seq<SortedRun>): (lists: seq<Run>)
    reads sources
    ensures |lists| == |sources| && forall k :: 0 <= k < |sources| ==> lists[k] == sources[k].Ids()
  {
    seq(|sources|, k requires 0 <= k < |sources| reads sources => sources[k].Ids())
  }

  ghost predicate AllValid(sources: seq<SortedRun>)
    reads sources
  {
    forall k :: 0 <= k < |sources| ==> sources[k].Valid()
  }

  /** Nothing has been looked at yet. */
  lemma PickStart(lists: seq<Run>, cutoff: nat)
    requires cutoff >= 1
    ensures Picked([], -1, lists, cutoff)
  {
    forall x | x <= -1 ensures Occurrences(lists, |lists|, x) == 0 {
      NoNegative(lists, |lists|, x);
    }
  }

  lemma {:induction false} NoNegative(lists: seq<Run>, n: nat, x: int)
    requires n <= |lists| && x < 0
    ensures Occurrences(lists, n, x) == 0
  {
    if n > 0 {
      NoNegative(lists, n - 1, x);
    }
  }

  lemma HeadMore(heads: seq<Run>, lists: seq<Run>, n: nat)
    requires n < |lists| && Headed(heads, -1) && SameAbove(-1, heads, |heads|, lists, n)
    requires AscendingFrom(-1, lists[n])
    ensures var more := if lists[n] == [] then heads else heads + [lists[n]];
      Headed(more, -1) && SameAbove(-1, more, |more|, lists, n + 1)
  {
    forall x ensures Occurrences(heads + [lists[n]], |heads| + 1, x)
        == Occurrences(heads, |heads|, x) + (if x in lists[n] then 1 else 0) {
      OccurrencesMore(heads, lists[n], x);
    }
  }

  /** Decompresses the sources and collects those that are not empty. */
  method CollectHeads(sources: seq<SortedRun>) returns (heads: seq<Run>)
    requires AllValid(sources)
    modifies sources
    ensures AllValid(sources) && IdsOf(sources) == old(IdsOf(sources))
    ensures Remaining(heads, -1, old(IdsOf(sources)))
  {
    ghost var lists := IdsOf(sources);
    heads := [];
    for k := 0 to |sources|
      invariant AllValid(sources) && IdsOf(sources) == lists
      invariant Headed(heads, -1) && SameAbove(-1, heads, |heads|, lists, k)
    {
      sources[k].EmptyIsEmpty();
      HeadMore(heads, lists, k);
      sources[k].Decompress();
      if !sources[k].Empty() {
        heads := heads + [sources[k].sequence];
      }
    }
  }

  /** Exactly the ids that occur in at least `cutoff` of the sources; the sources keep their ids. */
  method PickCommon(cutoff: nat, sources: seq<SortedRun>) returns (r: SortedRun)
    requires cutoff >= 1 && AllValid(sources)
    modifies sources
    ensures AllValid(sources) && IdsOf(sources) == old(IdsOf(sources))
    ensures fresh(r) && r.Valid()
    ensures forall x :: x in r.Ids() <==> Occurrences(old(IdsOf(sources)), |sources|, x) >= cutoff
  {
    ghost var lists := IdsOf(sources);
    var heads := CollectHeads(sources);
    PickStart(lists, cutoff);
    var result := PickFrom(cutoff, heads, lists);
    r := new SortedRun.FromIds(result);
  }
}
