/** The byte-skipping radix sort of the flat index builder. */
module RadixSort {
  import opened Core
  import opened GramConversion
  import opened IndexFormat
  import opened Ngrams

  type u64 = x: int | 0 <= x < 0x1_0000_0000_0000_0000

  // ----- the order that radix passes build up -----

  /** Byte `j` of `v`, byte 0 being the lowest. */
  function ByteAt(v: nat, j: nat): byte {
    Shr8(v, j) % 256
  }

  /** `a` comes no later than `b` when only their low `j` bytes count. */
  predicate LowLeq(a: nat, b: nat, j: nat) {
    j == 0
    || ByteAt(a, j - 1) < ByteAt(b, j - 1)
    || (ByteAt(a, j - 1) == ByteAt(b, j - 1) && LowLeq(a, b, j - 1))
  }

  predicate SortedLow(s: seq<u64>, j: nat) {
    forall p, q :: 0 <= p < q < |s| ==> LowLeq(s[p], s[q], j)
  }

  predicate Sorted(s: seq<u64>) {
    forall p, q :: 0 <= p < q < |s| ==> s[p] <= s[q]
  }

  /** Comparing j + 1 bytes from the top is comparing the upper j bytes first, then the lowest one. */
  lemma {:induction false} LowLeqPeel(a: nat, b: nat, j: nat)
    ensures var x, y := a / 256, b / 256;
      LowLeq(a, b, j + 1) <==> LowLeq(x, y, j) && (LowLeq(y, x, j) ==> a % 256 <= b % 256)
    decreases j
  {
    assert ByteAt(a, 0) == a % 256 && ByteAt(b, 0) == b % 256;
    if j > 0 {
      LowLeqPeel(a, b, j - 1);
      LowLeqPeel(b, a, j - 1);
    }
  }

  /** On numbers of `j` bytes the order on the low `j` bytes is the order of the numbers. */
  lemma {:induction false} LowLeqIsLeq(a: nat, b: nat, j: nat)
    requires a < Range(j) && b < Range(j)
    ensures LowLeq(a, b, j) <==> a <= b
    decreases j
  {
    if j > 0 {
      LowLeqPeel(a, b, j - 1);
      LowLeqIsLeq(a / 256, b / 256, j - 1);
      LowLeqIsLeq(b / 256, a / 256, j - 1);
    }
  }

  lemma SortedLow8(s: seq<u64>)
    requires SortedLow(s, 8)
    ensures Sorted(s)
  {
    Range48();
    forall p, q | 0 <= p < q < |s| ensures s[p] <= s[q] {
      LowLeqIsLeq(s[p], s[q], 8);
    }
  }

  /** A pass over a byte that is zero everywhere is not needed. */
  lemma SkipByte(s: seq<u64>, j: nat)
    requires SortedLow(s, j) && forall d :: d in s ==> ByteAt(d, j) == 0
    ensures SortedLow(s, j + 1)
  {
    forall p, q | 0 <= p < q < |s| ensures LowLeq(s[p], s[q], j + 1) {
      assert s[p] in s && s[q] in s;
    }
  }

  // ----- one stable pass, as a function -----

  /** The elements whose byte `j` is `b`, in their order. */
  function Filter(s: seq<u64>, j: nat, b: nat): (r: seq<u64>)
    ensures |r| <= |s|
  {
    if s == [] then []
    else if ByteAt(s[0], j) == b then [s[0]] + Filter(s[1..], j, b)
    else Filter(s[1..], j, b)
  }

  /** All elements whose byte `j` is below `b`: bucket 0, then bucket 1, and so on. */
  function Buckets(s: seq<u64>, j: nat, b: nat): seq<u64> {
    if b == 0 then [] else Buckets(s, j, b - 1) + Filter(s, j, b - 1)
  }

  lemma {:induction false} FilterAppend(s: seq<u64>, t: seq<u64>, j: nat, b: nat)
    ensures Filter(s + t, j, b) == Filter(s, j, b) + Filter(t, j, b)
    decreases |s|
  {
    if s == [] {
      assert s + t == t;
    } else {
      ConsAppend(s, t);
      FilterAppend(s[1..], t, j, b);
    }
  }

  lemma {:induction false} FilterKeys(s: seq<u64>, j: nat, b: nat)
    ensures forall d :: d in Filter(s, j, b) ==> d in s && ByteAt(d, j) == b
    decreases |s|
  {
    if s != [] {
      FilterKeys(s[1..], j, b);
    }
  }

  lemma {:induction false} BucketsKeys(s: seq<u64>, j: nat, b: nat)
    ensures forall d :: d in Buckets(s, j, b) ==> ByteAt(d, j) < b
    decreases b
  {
    if b > 0 {
      BucketsKeys(s, j, b - 1);
      FilterKeys(s, j, b - 1);
    }
  }

  lemma {:induction false} BucketsMonotone(s: seq<u64>, j: nat, a: nat, b: nat)
    requires a <= b
    ensures |Buckets(s, j, a)| <= |Buckets(s, j, b)|
    decreases b
  {
    if a < b {
      BucketsMonotone(s, j, a, b - 1);
    }
  }

  /** Distributing into buckets loses nothing and invents nothing. */
  lemma {:induction false} BucketsCons(x: u64, t: seq<u64>, j: nat, b: nat)
    ensures multiset(Buckets([x] + t, j, b))
         == multiset(Buckets(t, j, b)) + (if ByteAt(x, j) < b then multiset{x} else multiset{})
    decreases b
  {
    if b > 0 {
      BucketsCons(x, t, j, b - 1);
      FilterCons(x, t, j, b - 1);
      UnionStep(Buckets([x] + t, j, b - 1), Buckets(t, j, b - 1), x, Filter(t, j, b - 1), ByteAt(x, j), b - 1);
    }
  }

  lemma FilterCons(x: u64, t: seq<u64>, j: nat, b: nat)
    ensures Filter([x] + t, j, b) == (if ByteAt(x, j) == b then [x] else []) + Filter(t, j, b)
  {
    assert ([x] + t)[1..] == t;
  }

  lemma UnionStep(u: seq<u64>, v: seq<u64>, x: u64, f: seq<u64>, key: nat, b: nat)
    requires multiset(u) == multiset(v) + (if key < b then multiset{x} else multiset{})
    ensures multiset(u + ((if key == b then [x] else []) + f))
         == multiset(v + f) + (if key < b + 1 then multiset{x} else multiset{})
  {
  }

  lemma {:induction false} BucketsPermute(s: seq<u64>, j: nat)
    ensures multiset(Buckets(s, j, 256)) == multiset(s)
    ensures |Buckets(s, j, 256)| == |s|
    decreases |s|
  {
    if s == [] {
      BucketsEmpty(j, 256);
    } else {
      BucketsPermute(s[1..], j);
      BucketsCons(s[0], s[1..], j, 256);
      assert s == [s[0]] + s[1..];
    }
    assert |multiset(Buckets(s, j, 256))| == |multiset(s)|;
  }

  lemma {:induction false} BucketsEmpty(j: nat, b: nat)
    ensures Buckets([], j, b) == []
    decreases b
  {
    if b > 0 {
      BucketsEmpty(j, b - 1);
    }
  }

  lemma {:induction false} FilterSorted(s: seq<u64>, j: nat, b: nat)
    requires SortedLow(s, j)
    ensures SortedLow(Filter(s, j, b), j)
    decreases |s|
  {
    if s != [] {
      var t := s[1..];
      assert forall p :: 0 <= p < |t| ==> t[p] == s[p + 1];
      FilterSorted(t, j, b);
      var r := Filter(s, j, b);
      if ByteAt(s[0], j) == b {
        forall p, q | 0 <= p < q < |r| ensures LowLeq(r[p], r[q], j) {
          assert r[q] == Filter(t, j, b)[q - 1];
          if p == 0 {
            assert r[q] in Filter(t, j, b);
            FilterKeys(t, j, b);
            var k :| 0 <= k < |t| && t[k] == r[q];
            assert LowLeq(s[0], s[k + 1], j);
          }
        }
      }
    }
  }

  /** A stable pass over byte `j` of a list sorted by its low `j` bytes sorts it by its low j + 1. */
  lemma {:induction false} BucketsSorted(s: seq<u64>, j: nat, b: nat)
    requires SortedLow(s, j)
    ensures SortedLow(Buckets(s, j, b), j + 1)
    decreases b
  {
    if b > 0 {
      var u, v := Buckets(s, j, b - 1), Filter(s, j, b - 1);
      BucketsSorted(s, j, b - 1);
      BucketsKeys(s, j, b - 1);
      FilterKeys(s, j, b - 1);
      FilterSorted(s, j, b - 1);
      var r := Buckets(s, j, b);
      forall p, q | 0 <= p < q < |r| ensures LowLeq(r[p], r[q], j + 1) {
        assert p < |u| ==> r[p] == u[p] && u[p] in u;
        assert p >= |u| ==> r[p] == v[p - |u|] && v[p - |u|] in v;
        assert q < |u| ==> r[q] == u[q] && u[q] in u;
        assert q >= |u| ==> r[q] == v[q - |u|] && v[q - |u|] in v;
      }
    }
  }

  // ----- the pass in place -----

  /** Slots that the backward loop has filled: the end of bucket `b` holds the part of it in `done`. */
  ghost predicate Placed(swap: seq<u64>, s: seq<u64>, done: seq<u64>, j: nat, b: nat) {
    var hi := |Buckets(s, j, b + 1)|;
    var f := Filter(done, j, b);
    |f| <= hi <= |swap| && swap[hi - |f|..hi] == f
  }

  /** The next slot of bucket `b`: its end minus what has been placed. */
  ghost function Slot(s: seq<u64>, done: seq<u64>, j: nat, b: nat): int {
    |Buckets(s, j, b + 1)| - |Filter(done, j, b)|
  }

  lemma SlotRange(s: seq<u64>, i: nat, j: nat, b: nat)
    requires i < |s| && b < 256
    ensures |Buckets(s, j, b)| <= Slot(s, s[i + 1..], j, b) <= |Buckets(s, j, b + 1)| <= |s|
    ensures ByteAt(s[i], j) == b ==> |Buckets(s, j, b)| < Slot(s, s[i + 1..], j, b)
  {
    assert s == s[..i] + s[i..];
    FilterAppend(s[..i], s[i..], j, b);
    assert s[i..][1..] == s[i + 1..];
    BucketsMonotone(s, j, b + 1, 256);
    BucketsPermute(s, j);
  }

  lemma SlotStep(s: seq<u64>, i: nat, j: nat, b: nat)
    requires i < |s|
    ensures Filter(s[i..], j, b)
         == (if b == ByteAt(s[i], j) then [s[i]] else []) + Filter(s[i + 1..], j, b)
    ensures Slot(s, s[i..], j, b) == Slot(s, s[i + 1..], j, b) - (if b == ByteAt(s[i], j) then 1 else 0)
  {
    assert s[i..][1..] == s[i + 1..] && s[i..][0] == s[i];
  }

  lemma UpdateBelow<T>(s: seq<T>, pos: nat, x: T, lo: nat, hi: nat)
    requires pos < |s| && lo <= hi <= |s| && (pos < lo || hi <= pos)
    ensures s[pos := x][lo..hi] == s[lo..hi]
  {
  }

  lemma UpdateFront<T>(s: seq<T>, lo: nat, x: T, hi: nat)
    requires 0 < lo <= hi <= |s|
    ensures s[lo - 1 := x][lo - 1..hi] == [x] + s[lo..hi]
  {
  }

  /** The slots of different buckets are apart from each other. */
  lemma SlotsApart(s: seq<u64>, i: nat, j: nat, b: nat, k: nat)
    requires i < |s| && b < 256 && k < 256 && b != k && k == ByteAt(s[i], j)
    ensures var pos := Slot(s, s[i + 1..], j, k) - 1;
      pos < Slot(s, s[i + 1..], j, b) || |Buckets(s, j, b + 1)| <= pos
  {
    if b < k {
      SlotRange(s, i, j, k);
      BucketsMonotone(s, j, b + 1, k);
    } else {
      SlotRange(s, i, j, b);
      SlotRange(s, i, j, k);
      BucketsMonotone(s, j, k + 1, b);
    }
  }

  /** Writing `s[i]` into the next slot of its bucket `k` keeps every bucket placed. */
  lemma PlaceStep(swap: seq<u64>, s: seq<u64>, i: nat, j: nat, b: nat, k: nat, pos: nat)
    requires i < |s| == |swap| && b < 256 && k == ByteAt(s[i], j)
    requires Placed(swap, s, s[i + 1..], j, b)
    requires pos == Slot(s, s[i + 1..], j, k) - 1 && pos < |swap|
    ensures Placed(swap[pos := s[i]], s, s[i..], j, b)
    ensures Slot(s, s[i..], j, b) == Slot(s, s[i + 1..], j, b) - (if b == k then 1 else 0)
  {
    SlotStep(s, i, j, b);
    if b != k {
      SlotsApart(s, i, j, b, k);
    }
    PlaceOne(swap, s, i, j, b, k, pos, Slot(s, s[i + 1..], j, b), |Buckets(s, j, b + 1)|);
  }

  lemma PlaceOne(swap: seq<u64>, s: seq<u64>, i: nat, j: nat, b: nat, k: nat, pos: nat, lo: nat, hi: nat)
    requires i < |s| && k == ByteAt(s[i], j) && hi == |Buckets(s, j, b + 1)|
    requires pos < |swap| && lo <= hi <= |swap| && lo == hi - |Filter(s[i + 1..], j, b)|
    requires b == k ==> lo == pos + 1
    requires b != k ==> pos < lo || hi <= pos
    requires swap[lo..hi] == Filter(s[i + 1..], j, b)
    ensures Placed(swap[pos := s[i]], s, s[i..], j, b)
  {
    SlotStep(s, i, j, b);
    if b == k {
      UpdateFront(swap, lo, s[i], hi);
    } else {
      UpdateBelow(swap, pos, s[i], lo, hi);
    }
  }

  lemma PlacedNothing(swap: seq<u64>, s: seq<u64>, j: nat, b: nat)
    requires |swap| == |s| && b < 256
    ensures Placed(swap, s, [], j, b)
  {
    BucketsMonotone(s, j, b + 1, 256);
    BucketsPermute(s, j);
  }

  /** When every bucket is placed in full, the array holds the buckets one after the other. */
  lemma {:induction false} AllPlaced(swap: seq<u64>, s: seq<u64>, j: nat, b: nat)
    requires |swap| == |s| && b <= 256
    requires forall c :: 0 <= c < 256 ==> Placed(swap, s, s, j, c)
    ensures |Buckets(s, j, b)| <= |swap| && swap[..|Buckets(s, j, b)|] == Buckets(s, j, b)
    decreases b
  {
    BucketsMonotone(s, j, b, 256);
    BucketsPermute(s, j);
    if b > 0 {
      AllPlaced(swap, s, j, b - 1);
      assert Placed(swap, s, s, j, b - 1);
      var lo, hi := |Buckets(s, j, b - 1)|, |Buckets(s, j, b)|;
      assert swap[..hi] == swap[..lo] + swap[lo..hi];
    }
  }

  /** How often each byte value occurs at position `j`. */
  method CountKeys(data: array<u64>, j: nat) returns (count: array<nat>)
    ensures fresh(count) && count.Length == 256
    ensures forall b :: 0 <= b < 256 ==> count[b] == |Filter(data[..], j, b)|
  {
    ghost var s := data[..];
    count := new nat[256](_ => 0);
    for i := 0 to data.Length
      invariant forall b :: 0 <= b < 256 ==> count[b] == |Filter(s[..i], j, b)|
    {
      var k := ByteAt(data[i], j);
      forall b | 0 <= b < 256
        ensures |Filter(s[..i + 1], j, b)| == count[b] + (if b == k then 1 else 0)
      {
        assert s[..i + 1] == s[..i] + [s[i]];
        FilterAppend(s[..i], [s[i]], j, b);
      }
      count[k] := count[k] + 1;
    }
    assert s[..data.Length] == s;
  }

  /** Turns the counts into the ends of the buckets. */
  method PrefixSums(count: array<nat>, ghost s: seq<u64>, ghost j: nat)
    requires count.Length == 256 && forall b :: 0 <= b < 256 ==> count[b] == |Filter(s, j, b)|
    modifies count
    ensures forall b :: 0 <= b < 256 ==> count[b] == |Buckets(s, j, b + 1)|
  {
    assert count[0] == |Buckets(s, j, 1)| by {
      assert Buckets(s, j, 0) == [];
    }
    for i := 1 to 256
      invariant forall b :: 0 <= b < i ==> count[b] == |Buckets(s, j, b + 1)|
      invariant forall b :: i <= b < 256 ==> count[b] == |Filter(s, j, b)|
    {
      count[i] := count[i] + count[i - 1];
    }
  }

  ghost predicate Ready(counts: seq<nat>, swap: seq<u64>, s: seq<u64>, done: seq<u64>, j: nat) {
    && |counts| == 256 && |swap| == |s|
    && (forall b :: 0 <= b < 256 ==> counts[b] == Slot(s, done, j, b))
    && (forall b :: 0 <= b < 256 ==> Placed(swap, s, done, j, b))
  }

  lemma MoveSlot(counts: seq<nat>, swap: seq<u64>, s: seq<u64>, i: nat, j: nat)
    requires i < |s| && Ready(counts, swap, s, s[i + 1..], j)
    ensures 0 < counts[ByteAt(s[i], j)] <= |swap|
  {
    SlotRange(s, i, j, ByteAt(s[i], j));
  }

  lemma MoveOne(counts: seq<nat>, swap: seq<u64>, s: seq<u64>, i: nat, j: nat, b: nat, k: nat, pos: nat)
    requires i < |s| && Ready(counts, swap, s, s[i + 1..], j) && b < 256
    requires k == ByteAt(s[i], j) && counts[k] == pos + 1 && pos < |swap|
    ensures counts[k := pos][b] == Slot(s, s[i..], j, b)
    ensures Placed(swap[pos := s[i]], s, s[i..], j, b)
  {
    PlaceStep(swap, s, i, j, b, k, pos);
  }

  lemma MoveStep(counts: seq<nat>, swap: seq<u64>, s: seq<u64>, i: nat, j: nat)
    requires i < |s| && Ready(counts, swap, s, s[i + 1..], j)
    ensures var k := ByteAt(s[i], j);
      0 < counts[k] <= |swap| && Ready(counts[k := counts[k] - 1], swap[counts[k] - 1 := s[i]], s, s[i..], j)
  {
    var k := ByteAt(s[i], j);
    MoveSlot(counts, swap, s, i, j);
    var pos := counts[k] - 1;
    var counts', swap' := counts[k := pos], swap[pos := s[i]];
    forall b | 0 <= b < 256
      ensures counts'[b] == Slot(s, s[i..], j, b)
      ensures Placed(swap', s, s[i..], j, b)
    {
      MoveOne(counts, swap, s, i, j, b, k, pos);
    }
    assert Ready(counts', swap', s, s[i..], j);
  }

  lemma NothingMoved(counts: seq<nat>, swap: seq<u64>, s: seq<u64>, j: nat)
    requires |counts| == 256 && |swap| == |s| && forall b :: 0 <= b < 256 ==> counts[b] == |Buckets(s, j, b + 1)|
    ensures Ready(counts, swap, s, [], j)
  {
    forall b | 0 <= b < 256 ensures Placed(swap, s, [], j, b) {
      PlacedNothing(swap, s, j, b);
    }
  }

  lemma AllMoved(counts: seq<nat>, swap: seq<u64>, s: seq<u64>, j: nat)
    requires Ready(counts, swap, s, s, j)
    ensures swap == Buckets(s, j, 256)
  {
    AllPlaced(swap, s, j, 256);
    BucketsPermute(s, j);
    assert swap[..|s|] == swap;
  }

  /** Moves each element to the last free slot of its bucket, from the last element to the first. */
  method Distribute(data: array<u64>, swap: array<u64>, count: array<nat>, j: nat)
    requires data != swap && data.Length == swap.Length
    requires data as object != count && swap as object != count
    requires count.Length == 256 && forall b :: 0 <= b < 256 ==> count[b] == |Buckets(data[..], j, b + 1)|
    modifies swap, count
    ensures swap[..] == Buckets(data[..], j, 256)
  {
    ghost var s := data[..];
    var i := data.Length;
    assert s[i..] == [];
    NothingMoved(count[..], swap[..], s, j);
    while i > 0
      invariant 0 <= i <= data.Length && data[..] == s
      invariant Ready(count[..], swap[..], s, s[i..], j)
    {
      i := i - 1;
      MoveStep(count[..], swap[..], s, i, j);
      var k := ByteAt(data[i], j);
      ghost var counts, slots := count[..], swap[..];
      swap[count[k] - 1] := data[i];
      count[k] := count[k] - 1;
      assert count[..] == counts[k := counts[k] - 1];
      assert swap[..] == slots[counts[k] - 1 := s[i]];
    }
    assert s[0..] == s;
    AllMoved(count[..], swap[..], s, j);
  }

  /**
   * `countsort`: distributes `data` over `swap` by the byte at `shift`, and exchanges the two. Returns
   * false, the size-mismatch error, when the buffers differ in size.
   */
  method CountSort(data: array<u64>, swap: array<u64>, shift: nat)
    returns (ok: bool, sorted: array<u64>, spare: array<u64>)
    requires data != swap && shift % 8 == 0
    modifies swap
    ensures ok <==> data.Length == swap.Length
    ensures ok ==> sorted == swap && spare == data && sorted[..] == Buckets(data[..], shift / 8, 256)
    ensures !ok ==> sorted == data && spare == swap && swap[..] == old(swap[..])
  {
    if data.Length != swap.Length {
      return false, data, swap;
    }
    var count := CountKeys(data, shift / 8);
    PrefixSums(count, data[..], shift / 8);
    Distribute(data, swap, count, shift / 8);
    return true, swap, data;
  }

  // ----- all passes -----

  lemma {:induction false} ShrPositive(x: nat, k: nat)
    ensures Shr8(x, k) > 0 <==> x >= Range(k)
    ensures Shr8(x, k + 1) == Shr8(x, k) / 256
    decreases k
  {
    if k > 0 {
      ShrPositive(x / 256, k - 1);
    }
  }

  /** `count_bytes`: how many bytes the number needs; 0 for 0. */
  method CountBytes(integer: FileId) returns (bytes: nat)
    ensures bytes <= 4 && integer < Range(bytes)
    ensures bytes > 0 ==> integer >= Range(bytes - 1)
  {
    bytes := 0;
    var rest: nat := integer;
    Range48();
    while rest > 0
      invariant bytes <= 4 && rest == Shr8(integer, bytes)
      invariant bytes > 0 ==> integer >= Range(bytes - 1)
      decreases rest
    {
      ShrPositive(integer, bytes);
      assert bytes == 4 ==> false;
      rest := rest / 256;
      bytes := bytes + 1;
    }
    ShrPositive(integer, bytes);
  }

  /** Byte `j < k` of `f + g * 256^k` is byte `j` of `f`. */
  lemma {:induction false} ByteBelow(f: nat, g: nat, k: nat, j: nat)
    requires j < k
    ensures ByteAt(f + g * Range(k), j) == ByteAt(f, j)
    decreases k
  {
    var y := g * Range(k - 1);
    assert g * Range(k) == 256 * y;
    assert (f + 256 * y) % 256 == f % 256 && (f + 256 * y) / 256 == f / 256 + y;
    if j > 0 {
      ByteBelow(f / 256, g, k - 1, j - 1);
      assert ByteAt(f + 256 * y, j) == ByteAt(f / 256 + y, j - 1);
    }
  }

  lemma {:induction false} ByteAbove(f: nat, k: nat, j: nat)
    requires f < Range(k) && k <= j
    ensures ByteAt(f, j) == 0
    decreases j
  {
    if j > 0 {
      if k == 0 {
        ByteAbove(0, 0, j - 1);
      } else {
        ByteAbove(f / 256, k - 1, j - 1);
      }
    }
  }

  // A record of the builder: the n-gram in the upper 24 bits, the file id in the lower 40.

  function Record(fid: nat, gram: nat): nat {
    fid + gram * 0x100_0000_0000
  }

  function RecordFile(d: nat): nat {
    d % 0x100_0000_0000
  }

  function RecordGram(d: nat): nat {
    d / 0x100_0000_0000
  }

  /** Bytes between the size of the largest file id and byte 5 are zero in every record. */
  lemma SkippedBytesZero(d: u64, bytes: nat, j: nat)
    requires RecordFile(d) < Range(bytes) && bytes <= j < 5
    ensures ByteAt(d, j) == 0
  {
    Range48();
    assert Range(5) == 0x100_0000_0000;
    assert d == RecordFile(d) + RecordGram(d) * Range(5);
    ByteBelow(RecordFile(d), RecordGram(d), 5, j);
    ByteAbove(RecordFile(d), bytes, j);
  }

  /**
   * `flat_radixsort`: sorts by the full 64-bit value although the passes from the size of the largest
   * file id up to byte 5 are left out. The result is in one of the two buffers.
   */
  method FlatRadixSort(data: array<u64>, maxFileid: FileId) returns (sorted: array<u64>)
    requires forall d :: d in data[..] ==> RecordFile(d) <= maxFileid
    modifies data
    ensures sorted == data || fresh(sorted)
    ensures Sorted(sorted[..]) && multiset(sorted[..]) == multiset(old(data[..]))
  {
    ghost var all := data[..];
    var spare := new u64[data.Length](_ => 0);
    ghost var other := spare;
    var bytes := CountBytes(maxFileid);
    var skipTo := bytes * 8;
    var shift := 0;
    sorted := data;
    while shift < 64
      invariant shift % 8 == 0 && 0 <= shift <= 64
      invariant sorted != spare && {sorted, spare} <= {data, other}
      invariant sorted.Length == spare.Length
      invariant Pass(sorted[..], all, shift / 8)
    {
      sorted, spare := OnePass(sorted, spare, shift, skipTo, all, maxFileid, bytes);
      shift := shift + 8;
    }
    SortedLow8(sorted[..]);
  }

  /** One iteration of the sort: either skips the byte at `shift` or sorts by it. */
  method OnePass(data: array<u64>, swap: array<u64>, shift: nat, skipTo: nat,
      ghost all: seq<u64>, ghost maxFileid: FileId, ghost bytes: nat)
    returns (sorted: array<u64>, spare: array<u64>)
    requires data != swap && data.Length == swap.Length && shift % 8 == 0
    requires skipTo == bytes * 8 && maxFileid < Range(bytes)
    requires forall d :: d in all ==> RecordFile(d) <= maxFileid
    requires Pass(data[..], all, shift / 8)
    modifies swap
    ensures (sorted == data && spare == swap) || (sorted == swap && spare == data)
    ensures Pass(sorted[..], all, shift / 8 + 1)
  {
    if shift >= skipTo && shift < 40 {
      SkipPass(data[..], all, maxFileid, bytes, shift / 8);
      return data, swap;
    }
    DoPass(data[..], all, shift / 8);
    var ok;
    ok, sorted, spare := CountSort(data, swap, shift);
  }

  /** `s` holds the elements of `all`, sorted by their low `j` bytes. */
  ghost predicate Pass(s: seq<u64>, all: seq<u64>, j: nat) {
    multiset(s) == multiset(all) && SortedLow(s, j)
  }

  lemma DoPass(s: seq<u64>, all: seq<u64>, j: nat)
    requires Pass(s, all, j)
    ensures Pass(Buckets(s, j, 256), all, j + 1) && |Buckets(s, j, 256)| == |s|
  {
    BucketsPermute(s, j);
    BucketsSorted(s, j, 256);
  }

  lemma SkipPass(s: seq<u64>, all: seq<u64>, maxFileid: FileId, bytes: nat, j: nat)
    requires Pass(s, all, j) && forall d :: d in all ==> RecordFile(d) <= maxFileid
    requires maxFileid < Range(bytes) && bytes <= j < 5
    ensures Pass(s, all, j + 1)
  {
    forall d | d in s ensures ByteAt(d, j) == 0 {
      assert d in multiset(all);
      SkippedBytesZero(d, bytes, j);
    }
    SkipByte(s, j);
  }
}
