/**
 * The compressed form of a run: consecutive differences minus one, each written as an unsigned
 * base-128 number, low group first, with the high bit as the continuation bit (unsigned LEB128,
 * section 7.6 of DWARF Version 5).
 */
module Codec {
  import opened Core

  /** `d << n`, without overflow. */
  function Shl(d: nat, n: nat): nat {
    if n == 0 then d else 2 * Shl(d, n - 1)
  }

  lemma ShlSeven(d: nat, n: nat)
    ensures Shl(d, n + 7) == 128 * Shl(d, n)
  {
    assert Shl(d, n + 7) == 2 * Shl(d, n + 6) == 4 * Shl(d, n + 5) == 8 * Shl(d, n + 4);
    assert Shl(d, n + 4) == 2 * Shl(d, n + 3) == 4 * Shl(d, n + 2) == 8 * Shl(d, n + 1);
  }

  lemma {:induction false} ShlSum(a: nat, b: nat, n: nat)
    ensures Shl(a + b, n) == Shl(a, n) + Shl(b, n)
    decreases n
  {
    if n > 0 {
      ShlSum(a, b, n - 1);
    }
  }

  lemma {:induction false} ShlMove(d: nat, n: nat)
    ensures Shl(128 * d, n) == Shl(d, n + 7)
    decreases n
  {
    if n > 0 {
      ShlMove(d, n - 1);
    } else {
      ShlSeven(d, 0);
    }
  }

  lemma Shl28(d: nat)
    ensures Shl(d, 28) == 0x1000_0000 * d
  {
    ShlSeven(d, 0);
    ShlSeven(d, 7);
    ShlSeven(d, 14);
    ShlSeven(d, 21);
  }

  // ----- encoding -----

  /** One difference, low seven bits first. */
  function EncodeGap(d: nat): (r: Bytes)
    ensures r != []
    decreases d
  {
    if d >= 128 then [128 + d % 128] + EncodeGap(d / 128) else [d]
  }

  /** The value of an unsigned LEB128 number (section 7.6 of the DWARF Debugging Information Format, version 5). */
  function Leb128(bytes: Bytes): nat {
    if bytes == [] then 0 else bytes[0] % 128 + 128 * Leb128(bytes[1..])
  }

  /** A difference is stored as an unsigned LEB128 number: the high bit is set in all bytes but the last. */
  lemma {:induction false} GapIsLeb128(d: nat)
    ensures Leb128(EncodeGap(d)) == d
    ensures forall k :: 0 <= k < |EncodeGap(d)| ==> (EncodeGap(d)[k] >= 128 <==> k < |EncodeGap(d)| - 1)
    decreases d
  {
    if d >= 128 {
      GapIsLeb128(d / 128);
      assert EncodeGap(d)[1..] == EncodeGap(d / 128);
    }
  }

  /** The bytes a writer emits for `run` when the last id it wrote was `prev`. */
  function EncodeFrom(prev: int, run: seq<int>): Bytes
    requires AscendingFrom(prev, run)
    decreases |run|
  {
    if run == [] then [] else EncodeGap(run[0] - prev - 1) + EncodeFrom(run[0], run[1..])
  }

  /** A whole run, as stored in an index file. */
  function EncodeRun(run: Run): Bytes
    requires AscendingFrom(-1, run)
  {
    EncodeFrom(-1, run)
  }

  lemma EncodeCons(prev: int, x: int, rest: seq<int>)
    requires prev < x && AscendingFrom(x, rest)
    ensures AscendingFrom(prev, [x] + rest)
    ensures EncodeFrom(prev, [x] + rest) == EncodeGap(x - prev - 1) + EncodeFrom(x, rest)
  {
    assert ([x] + rest)[1..] == rest;
  }

  lemma {:induction false} EncodeAppend(prev: int, a: seq<int>, b: seq<int>)
    requires AscendingFrom(prev, a) && AscendingFrom(LastOf(prev, a), b)
    ensures AscendingFrom(prev, a + b)
    ensures EncodeFrom(prev, a + b) == EncodeFrom(prev, a) + EncodeFrom(LastOf(prev, a), b)
    decreases |a|
  {
    if a == [] {
      assert a + b == b;
    } else {
      var x, tail := a[0], a[1..];
      EncodeAppend(x, tail, b);
      EncodeCons(prev, x, tail + b);
      ConsAppend(a, b);
      Assoc(EncodeGap(x - prev - 1), EncodeFrom(x, tail), EncodeFrom(LastOf(x, tail), b));
    }
  }

  /** Moving a whole run does not change the bytes after its first element. */
  lemma {:induction false} EncodeShift(base: int, prev: int, run: seq<int>)
    requires AscendingFrom(prev, run)
    ensures AscendingFrom(base + prev, Shift(base, run))
    ensures EncodeFrom(base + prev, Shift(base, run)) == EncodeFrom(prev, run)
    decreases |run|
  {
    if run != [] {
      assert Shift(base, run)[1..] == Shift(base, run[1..]);
      EncodeShift(base, run[0], run[1..]);
    }
  }

  // ----- decoding -----

  /** `(b & 0x7F) << shift` in 32-bit arithmetic. */
  function Group(b: byte, shift: nat): nat
  {
    Shl(b % 128, shift) % 0x1_0000_0000
  }

  /** The ids produced from `bytes` in the state `(acc, shift, prev)` of the decoding loop. */
  function DecodeFrom(bytes: Bytes, acc: nat, shift: nat, prev: int): Run
    decreases |bytes|
  {
    if bytes == [] then []
    else
      var acc' := acc + Group(bytes[0], shift);
      if bytes[0] >= 128 then DecodeFrom(bytes[1..], acc', shift + 7, prev)
      else
        var next := prev + acc' + 1;
        [next % 0x1_0000_0000] + DecodeFrom(bytes[1..], 0, 0, next)
  }

  function DecodeRun(bytes: Bytes): Run {
    DecodeFrom(bytes, 0, 0, -1)
  }

  /** No group of `bytes` is shifted by more than 28 bits, so that every shift is defined on 32 bits. */
  predicate ShiftsDefined(bytes: Bytes, shift: nat)
    decreases |bytes|
  {
    bytes != [] ==>
      shift <= 28 && ShiftsDefined(bytes[1..], if bytes[0] >= 128 then shift + 7 else 0)
  }

  /** `bytes` is the stored form of some run; the run is then `DecodeRun(bytes)`. */
  predicate Canonical(bytes: Bytes) {
    var run := DecodeRun(bytes);
    AscendingFrom(-1, run) && EncodeRun(run) == bytes
  }

  /** Splitting off the low seven bits of a gap keeps its value, in 32 bits. */
  lemma GroupStep(d: nat, shift: nat)
    requires d >= 128 && shift % 7 == 0 && shift <= 28 && Shl(d, shift) < 0x1_0000_0000
    ensures shift + 7 <= 28
    ensures Shl(d, shift) == Shl(d / 128, shift + 7) + Group(128 + d % 128, shift)
  {
    assert shift < 28 by {
      Shl28(d);
    }
    ShlSum(128 * (d / 128), d % 128, shift);
    ShlMove(d / 128, shift);
    assert (128 + d % 128) % 128 == d % 128;
  }

  lemma DecodeMore(b: byte, rest: Bytes, acc: nat, shift: nat, prev: int)
    requires b >= 128
    ensures DecodeFrom([b] + rest, acc, shift, prev) == DecodeFrom(rest, acc + Group(b, shift), shift + 7, prev)
  {
    assert ([b] + rest)[1..] == rest;
  }

  lemma DecodeLast(b: byte, rest: Bytes, acc: nat, shift: nat, prev: int, next: int)
    requires b < 128 && next == prev + acc + Group(b, shift) + 1
    ensures DecodeFrom([b] + rest, acc, shift, prev) == [next % 0x1_0000_0000] + DecodeFrom(rest, 0, 0, next)
  {
    assert ([b] + rest)[1..] == rest;
  }

  /** Decoding in the middle of a gap, of which `d` is left, when the next group starts at bit `shift`. */
  lemma {:induction false} DecodeGap(d: nat, rest: Bytes, acc: nat, shift: nat, prev: int, next: int)
    requires shift % 7 == 0 && shift <= 28 && Shl(d, shift) < 0x1_0000_0000
    requires next == prev + acc + Shl(d, shift) + 1
    ensures DecodeFrom(EncodeGap(d) + rest, acc, shift, prev) == [next % 0x1_0000_0000] + DecodeFrom(rest, 0, 0, next)
    decreases d
  {
    if d >= 128 {
      var b := 128 + d % 128;
      GroupStep(d, shift);
      Assoc([b], EncodeGap(d / 128), rest);
      DecodeMore(b, EncodeGap(d / 128) + rest, acc, shift, prev);
      DecodeGap(d / 128, rest, acc + Group(b, shift), shift + 7, prev, next);
    } else {
      DecodeLast(d, rest, acc, shift, prev, next);
    }
  }

  lemma {:induction false} ShiftsInGap(d: nat, rest: Bytes, shift: nat)
    requires shift % 7 == 0 && shift <= 28 && Shl(d, shift) < 0x1_0000_0000
    requires ShiftsDefined(rest, 0)
    ensures ShiftsDefined(EncodeGap(d) + rest, shift)
    decreases d
  {
    var bytes := EncodeGap(d) + rest;
    if d >= 128 {
      GroupStep(d, shift);
      ShiftsInGap(d / 128, rest, shift + 7);
      assert bytes[1..] == EncodeGap(d / 128) + rest;
    } else {
      assert bytes[1..] == rest;
    }
  }

  /** Decoding the gap to the next id, which fits into 32 bits. */
  lemma DecodeNext(prev: int, first: FileId, rest: Bytes)
    requires -1 <= prev < first && ShiftsDefined(rest, 0)
    ensures DecodeFrom(EncodeGap(first - prev - 1) + rest, 0, 0, prev) == [first] + DecodeFrom(rest, 0, 0, first)
    ensures ShiftsDefined(EncodeGap(first - prev - 1) + rest, 0)
  {
    var gap: nat := first - prev - 1;
    assert Shl(gap, 0) == gap;
    DecodeGap(gap, rest, 0, 0, prev, first);
    ShiftsInGap(gap, rest, 0);
    assert first % 0x1_0000_0000 == first;
  }

  /** Decoding what a writer appended after `prev` gives back the ids. */
  lemma {:induction false} DecodeEncodeFrom(prev: int, run: Run)
    requires -1 <= prev && AscendingFrom(prev, run)
    ensures DecodeFrom(EncodeFrom(prev, run), 0, 0, prev) == run
    ensures ShiftsDefined(EncodeFrom(prev, run), 0)
    decreases |run|
  {
    if run != [] {
      DecodeEncodeFrom(run[0], run[1..]);
      DecodeNext(prev, run[0], EncodeFrom(run[0], run[1..]));
      assert run == [run[0]] + run[1..];
    }
  }

  /** Round trip: decoding undoes encoding for every run, and no shift leaves the 32-bit range. */
  lemma DecodeEncode(run: Run)
    requires AscendingFrom(-1, run)
    ensures DecodeRun(EncodeRun(run)) == run
    ensures ShiftsDefined(EncodeRun(run), 0)
    ensures Canonical(EncodeRun(run))
  {
    DecodeEncodeFrom(-1, run);
  }

  lemma {:induction false} GapLengthAtMost(d: nat, k: nat)
    requires d < Shl(128, 7 * k)
    ensures |EncodeGap(d)| <= k + 1
    decreases k
  {
    if d >= 128 {
      ShlSeven(128, 7 * (k - 1));
      GapLengthAtMost(d / 128, k - 1);
    }
  }

  /** A 32-bit difference takes at most five bytes. */
  lemma GapLength(d: nat)
    requires d < 0x1_0000_0000
    ensures |EncodeGap(d)| <= 5
  {
    Shl28(128);
    GapLengthAtMost(d, 4);
  }

  /** A run of n ids takes between n and 5n bytes. */
  lemma {:induction false} RunLength(prev: int, run: Run)
    requires -1 <= prev && AscendingFrom(prev, run)
    ensures |run| <= |EncodeFrom(prev, run)| <= 5 * |run|
    decreases |run|
  {
    if run != [] {
      GapLength(run[0] - prev - 1);
      RunLength(run[0], run[1..]);
    }
  }

  // ----- decoding loops -----

  /**
   * A decoding loop has `bytes` left, has read `acc` of the current gap and expects its next group at
   * bit `shift`; the last id was `p`, the ids still to come are `rest`, and `left` is what `bytes`
   * still holds of the current gap.
   */
  ghost predicate Midway(bytes: Bytes, acc: nat, shift: nat, p: int, rest: Run, left: nat) {
    && shift % 7 == 0 && shift <= 28
    && AscendingFrom(p, rest)
    && (rest == [] ==> bytes == [] && acc == 0 && shift == 0)
    && (rest != [] ==>
          && acc + Shl(left, shift) == rest[0] - p - 1
          && bytes == EncodeGap(left) + EncodeFrom(rest[0], rest[1..]))
  }

  ghost function FirstGap(p: int, rest: Run): nat
    requires AscendingFrom(p, rest)
  {
    if rest == [] then 0 else rest[0] - p - 1
  }

  lemma MidwayStart(p: int, rest: Run)
    requires AscendingFrom(p, rest)
    ensures Midway(EncodeFrom(p, rest), 0, 0, p, rest, FirstGap(p, rest))
  {
  }

  lemma MidwayStep(bytes: Bytes, acc: nat, shift: nat, p: int, rest: Run, left: nat)
    requires Midway(bytes, acc, shift, p, rest, left) && -1 <= p && bytes != []
    ensures rest != []
    ensures bytes[0] >= 128 ==>
      && shift < 28
      && Midway(bytes[1..], acc + Group(bytes[0], shift), shift + 7, p, rest, left / 128)
    ensures bytes[0] < 128 ==>
      && p + acc + Group(bytes[0], shift) + 1 == rest[0]
      && bytes[1..] == EncodeFrom(rest[0], rest[1..])
      && Midway(bytes[1..], 0, 0, rest[0], rest[1..], FirstGap(rest[0], rest[1..]))
  {
    var more := EncodeFrom(rest[0], rest[1..]);
    if left >= 128 {
      GroupStep(left, shift);
      assert bytes[1..] == EncodeGap(left / 128) + more;
    } else {
      assert bytes[0] == left && bytes[1..] == more;
    }
  }
}
