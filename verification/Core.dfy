/** The shared vocabulary of the database: byte strings, file ids, n-gram ids and index types. */
module Core {

  type byte = x: int | 0 <= x < 0x100

  /** Bytes of a file on disk, or of a buffer in memory. */
  type Bytes = seq<byte>

  /** An unsigned 32-bit number of a file inside its dataset. */
  type FileId = x: int | 0 <= x < 0x1_0000_0000

  /** A list of the files that contain some n-gram; always strictly increasing. */
  type Run = seq<FileId>

  const NUM_TRIGRAMS: nat := 16777216

  /** A 24-bit n-gram number; every generator masks its output to this range. */
  type TriGram = x: int | 0 <= x < 16777216

  const DB_MAGIC: nat := 0xCA7DA7A

  const INDEX_VERSION: nat := 6

  datatype IndexType = GRAM3 | TEXT4 | HASH4 | WIDE8

  datatype Option<+T> = None | Some(value: T)

  predicate Ascending(s: seq<int>) {
    forall i, j :: 0 <= i < j < |s| ==> s[i] < s[j]
  }

  /** `s` is strictly increasing and all of it lies above `prev`. */
  predicate AscendingFrom(prev: int, s: seq<int>)
    decreases |s|
  {
    s != [] ==> prev < s[0] && AscendingFrom(s[0], s[1..])
  }

  lemma Assoc<T>(a: seq<T>, b: seq<T>, c: seq<T>)
    ensures a + (b + c) == (a + b) + c
  {
  }

  lemma ConsAppend<T>(a: seq<T>, b: seq<T>)
    requires a != []
    ensures a + b == [a[0]] + (a[1..] + b)
    ensures (a + b)[1..] == a[1..] + b
  {
  }

  lemma SubSlice<T>(s: seq<T>, a: nat, b: nat, c: nat, d: nat)
    requires a <= b <= c <= d <= |s|
    ensures s[a..d][b - a..c - a] == s[b..c]
  {
    var u := s[a..d];
    var v := u[b - a..c - a];
    assert forall i :: 0 <= i < |v| ==> v[i] == s[b + i];
  }

  lemma PrefixMore<T>(s: seq<T>, k: nat)
    requires k < |s|
    ensures s[..k + 1] == s[..k] + [s[k]]
  {
  }

  /** The element a writer remembers after writing `s` on top of `prev`. */
  function LastOf(prev: int, s: seq<int>): int {
    if s == [] then prev else s[|s| - 1]
  }

  lemma AscendingTail(s: seq<int>, x: int)
    requires Ascending(s) && s != []
    ensures x in s[1..] <==> x in s && x != s[0]
  {
    assert s == [s[0]] + s[1..];
    if x in s[1..] {
      var i :| 0 <= i < |s[1..]| && s[1..][i] == x;
      assert s[0] < s[i + 1];
    }
  }

  lemma FirstIn(s: seq<int>)
    ensures s != [] ==> s[0] in s
  {
  }

  /** A strictly increasing sequence is determined by its set of elements. */
  lemma {:induction false} AscendingUnique(a: seq<int>, b: seq<int>)
    requires Ascending(a) && Ascending(b)
    requires forall x :: x in a <==> x in b
    ensures a == b
  {
    FirstIn(a);
    FirstIn(b);
    if a != [] && b != [] {
      assert a[0] == b[0];
      forall x ensures x in a[1..] <==> x in b[1..] {
        AscendingTail(a, x);
        AscendingTail(b, x);
      }
      AscendingUnique(a[1..], b[1..]);
      assert a == [a[0]] + a[1..];
      assert b == [b[0]] + b[1..];
    }
  }

  lemma {:induction false} AscendingSplit(prev: int, a: seq<int>, b: seq<int>)
    ensures AscendingFrom(prev, a + b) <==> AscendingFrom(prev, a) && AscendingFrom(LastOf(prev, a), b)
    decreases |a|
  {
    if a == [] {
      assert a + b == b;
    } else {
      assert (a + b)[1..] == a[1..] + b;
      AscendingSplit(a[0], a[1..], b);
    }
  }

  /** The recursive and the quantified reading of "strictly increasing" agree. */
  lemma {:induction false} AscendingFromIff(prev: int, s: seq<int>)
    ensures AscendingFrom(prev, s) <==> Ascending(s) && forall i :: 0 <= i < |s| ==> prev < s[i]
    decreases |s|
  {
    if s != [] {
      var t := s[1..];
      AscendingFromIff(s[0], t);
      assert forall i :: 0 <= i < |t| ==> t[i] == s[i + 1];
      if AscendingFrom(prev, s) {
        forall i, j | 0 <= i < j < |s| ensures s[i] < s[j] {
          assert s[j] == t[j - 1];
          assert i > 0 ==> s[i] == t[i - 1];
        }
      }
      if Ascending(s) && forall i :: 0 <= i < |s| ==> prev < s[i] {
        assert forall i, j :: 0 <= i < j < |t| ==> t[i] < t[j];
        assert forall i :: 0 <= i < |t| ==> s[0] < t[i];
      }
    }
  }

  /** Every id of `run` moved up by `base`. */
  function Shift(base: int, run: seq<int>): (r: seq<int>)
    ensures |r| == |run|
    ensures forall i :: 0 <= i < |r| ==> r[i] == base + run[i]
  {
    seq(|run|, i requires 0 <= i < |run| => base + run[i])
  }

  lemma ShiftAppend(base: int, a: seq<int>, b: seq<int>)
    ensures Shift(base, a + b) == Shift(base, a) + Shift(base, b)
  {
  }

  /** All elements lie between the bound below and the last element. */
  lemma {:induction false} AscendingBelow(prev: int, s: seq<int>)
    requires AscendingFrom(prev, s)
    ensures forall i :: 0 <= i < |s| ==> prev < s[i] <= LastOf(prev, s)
    decreases |s|
  {
    if s != [] {
      AscendingBelow(s[0], s[1..]);
      assert forall i :: 1 <= i < |s| ==> s[i] == s[1..][i - 1];
    }
  }

  // ----- selecting ids -----

  /** The numbers below `n` that satisfy `f`, in order. */
  function Select(n: nat, f: nat -> bool): (r: seq<nat>)
    ensures forall i :: 0 <= i < |r| ==> r[i] < n
  {
    if n == 0 then [] else Select(n - 1, f) + (if f(n - 1) then [n - 1] else [])
  }

  lemma {:induction false} SelectMember(n: nat, f: nat -> bool, i: int)
    ensures i in Select(n, f) <==> 0 <= i < n && f(i)
  {
    if n > 0 {
      SelectMember(n - 1, f, i);
    }
  }

  lemma {:induction false} SelectAscending(n: nat, f: nat -> bool)
    ensures AscendingFrom(-1, Select(n, f))
  {
    if n > 0 {
      var s := Select(n - 1, f);
      SelectAscending(n - 1, f);
      assert LastOf(-1, s) < n - 1;
      assert s + [] == s;
      AscendingSplit(-1, s, [n - 1]);
    }
  }

  lemma SelectExactly(n: nat, f: nat -> bool)
    ensures forall i :: i in Select(n, f) <==> 0 <= i < n && f(i)
    ensures AscendingFrom(-1, Select(n, f))
  {
    SelectAscending(n, f);
    forall i ensures i in Select(n, f) <==> 0 <= i < n && f(i) {
      SelectMember(n, f, i);
    }
  }

  lemma {:induction false} SelectSame(n: nat, f: nat -> bool, g: nat -> bool)
    requires forall i: nat :: i < n ==> f(i) == g(i)
    ensures Select(n, f) == Select(n, g)
  {
    if n > 0 {
      SelectSame(n - 1, f, g);
    }
  }

  /** Selecting from a range of a + b numbers is selecting from both parts. */
  lemma {:induction false} SelectConcat(a: nat, b: nat, f: nat -> bool, g: nat -> bool)
    requires forall i: nat :: i < b ==> g(i) == f(a + i)
    ensures Select(a + b, f) == Select(a, f) + Shift(a, Select(b, g))
    decreases b
  {
    if b > 0 {
      SelectConcat(a, b - 1, f, g);
      var more := if g(b - 1) then [b - 1] else [];
      ShiftAppend(a, Select(b - 1, g), more);
      Assoc(Select(a, f), Shift(a, Select(b - 1, g)), Shift(a, more));
      assert Shift(a, more) == if f(a + b - 1) then [a + b - 1] else [];
    }
  }

  /** `f` and `g` agree below `n`, if `g` starts at `from`. */
  predicate Agree(n: nat, f: nat -> bool, g: nat -> bool, from: nat) {
    forall i: nat :: i < n ==> f(i) == g(from + i)
  }

  /** Selecting from two parts, with predicates of their own. */
  lemma SelectJoined(a: nat, b: nat, all: nat -> bool, left: nat -> bool, right: nat -> bool)
    requires Agree(a, left, all, 0) && Agree(b, right, all, a)
    ensures Select(a + b, all) == Select(a, left) + Shift(a, Select(b, right))
  {
    SelectConcat(a, b, all, right);
    SelectSame(a, all, left);
  }

  /** A strictly increasing list of exactly the selected numbers is the selection. */
  lemma SelectUnique(n: nat, f: nat -> bool, s: seq<int>)
    requires AscendingFrom(-1, s) && forall i :: i in s <==> 0 <= i < n && f(i)
    ensures s == Select(n, f)
  {
    SelectExactly(n, f);
    AscendingFromIff(-1, s);
    AscendingFromIff(-1, Select(n, f));
    AscendingUnique(s, Select(n, f));
  }

  // ----- division -----

  lemma MulGrows(m: nat, d: int)
    ensures (d >= 1 ==> m * d >= m) && (d <= -1 ==> m * d + m <= 0)
  {
  }

  lemma DivUnique(x: nat, m: nat, q: nat, r: nat)
    requires r < m && x == m * q + r
    ensures x / m == q
  {
    var d := x / m - q;
    MulGrows(m, d);
    assert m * (x / m) + x % m == x && m * d == m * (x / m) - m * q;
  }

  lemma DivParts(x: nat, m: nat)
    requires m > 0
    ensures x == m * (x / m) + x % m && x % m < m
  {
  }

  lemma MulParts(a: nat, b: nat, q: nat, r: nat)
    requires a > 0 && r < b
    ensures a * (b * q + r) == (a * b) * q + a * r && a * r + a <= a * b
  {
    assert a * (b - 1 - r) >= 0;
  }

  /** Dividing by a product is dividing twice. */
  lemma DivTwice(x: nat, a: nat, b: nat)
    requires a > 0 && b > 0
    ensures a * b > 0 && x / (a * b) == (x / a) / b
  {
    var q, r, t := (x / a) / b, (x / a) % b, x % a;
    DivParts(x, a);
    DivParts(x / a, b);
    MulParts(a, b, q, r);
    DivUnique(x, a * b, q, a * r + t);
  }
}
