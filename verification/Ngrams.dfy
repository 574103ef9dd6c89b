/**
 * The four n-gram generators. Each is a loop with rolling state; `Grams` is the same list described
 * window by window, without any state.
 */
module Ngrams {
  import opened Core

  // ----- windows -----

  function Width(t: IndexType): nat {
    match t
    case GRAM3 => 3
    case TEXT4 => 4
    case HASH4 => 4
    case WIDE8 => 8
  }

  /** The position of a character in the 64-letter text alphabet, or -1. */
  function B64Value(c: byte): int {
    if 'A' as int <= c <= 'Z' as int then c - 'A' as int
    else if 'a' as int <= c <= 'z' as int then c - 'a' as int + 26
    else if '0' as int <= c <= '9' as int then c - '0' as int + 52
    else if c == ' ' as int then 62
    else if c == '\n' as int then 63
    else -1
  }

  predicate IsText(c: byte) {
    B64Value(c) >= 0
  }

  /** The letters of the text alphabet, in the order of their values: A to Z, a to z, 0 to 9, space, line break. */
  function Alphabet(): (r: Bytes)
    ensures |r| == 64
  {
    var upper: Bytes := seq(26, k requires 0 <= k < 26 => 65 + k);
    var lower: Bytes := seq(26, k requires 0 <= k < 26 => 97 + k);
    var digits: Bytes := seq(10, k requires 0 <= k < 10 => 48 + k);
    upper + lower + digits + [32, 10]
  }

  /** The value of a letter is its position in the alphabet, and other bytes are not in it. */
  lemma B64IsPosition(c: byte)
    ensures IsText(c) ==> B64Value(c) < 64 && Alphabet()[B64Value(c)] == c
    ensures !IsText(c) ==> c !in Alphabet()
  {
  }

  lemma B64Injective(a: byte, b: byte)
    requires IsText(a) && B64Value(a) == B64Value(b)
    ensures a == b
  {
  }

  /** Whether a generator of type `t` can represent the window `w`. */
  predicate Shape(t: IndexType, w: Bytes) {
    && |w| == Width(t)
    && (t == TEXT4 ==> IsText(w[0]) && IsText(w[1]) && IsText(w[2]) && IsText(w[3]))
    && (t == WIDE8 ==>
          && IsText(w[0]) && w[1] == 0 && IsText(w[2]) && w[3] == 0
          && IsText(w[4]) && w[5] == 0 && IsText(w[6]) && w[7] == 0)
  }

  /** Four letters of the text alphabet, packed into 24 bits. */
  function Pack4(a: byte, b: byte, c: byte, d: byte): TriGram
    requires IsText(a) && IsText(b) && IsText(c) && IsText(d)
  {
    B64Value(a) * 262144 + B64Value(b) * 4096 + B64Value(c) * 64 + B64Value(d)
  }

  /** Three bytes, packed into 24 bits. */
  function Pack3(a: byte, b: byte, c: byte): TriGram {
    a * 65536 + b * 256 + c
  }

  /** The bitwise exclusive or of the low `n` bits. */
  function XorBits(a: nat, b: nat, n: nat): (r: nat)
    ensures r < Bit(n)
    decreases n
  {
    if n == 0 then 0
    else (if a % 2 != b % 2 then 1 else 0) + 2 * XorBits(a / 2, b / 2, n - 1)
  }

  function Bit(n: nat): nat {
    if n == 0 then 1 else 2 * Bit(n - 1)
  }

  lemma Bit24()
    ensures Bit(24) == 16777216
  {
    assert Bit(6) == 64 && Bit(12) == 64 * Bit(6) && Bit(18) == 64 * Bit(12) && Bit(24) == 64 * Bit(18);
  }

  function Xor(a: TriGram, b: TriGram): TriGram {
    Bit24();
    XorBits(a, b, 24)
  }

  /** The n-gram number of a window. */
  function Code(t: IndexType, w: Bytes): TriGram
    requires Shape(t, w)
  {
    match t
    case GRAM3 => Pack3(w[0], w[1], w[2])
    case TEXT4 => Pack4(w[0], w[1], w[2], w[3])
    case HASH4 => Xor(Pack3(w[0], w[1], w[2]), Pack3(w[1], w[2], w[3]))
    case WIDE8 => Pack4(w[0], w[2], w[4], w[6])
  }

  lemma {:induction false} BitPositive(k: nat)
    ensures Bit(k) > 0
  {
    if k > 0 {
      BitPositive(k - 1);
    }
  }

  /** Bit `k` of a number is bit `k - 1` of its half. */
  lemma HalfBit(x: nat, k: nat)
    requires k > 0
    ensures Bit(k) > 0 && Bit(k - 1) > 0 && x / Bit(k) == (x / 2) / Bit(k - 1)
  {
    BitPositive(k - 1);
    DivTwice(x, 2, Bit(k - 1));
  }

  lemma XorHalf(a: nat, b: nat, n: nat)
    requires n > 0
    ensures XorBits(a, b, n) / 2 == XorBits(a / 2, b / 2, n - 1)
    ensures XorBits(a, b, n) % 2 == 1 <==> a % 2 != b % 2
  {
  }

  /** Each bit of the exclusive or tells whether the two numbers differ there. */
  lemma {:induction false} XorBitsExactly(a: nat, b: nat, n: nat, k: nat)
    requires k < n
    ensures Bit(k) > 0
    ensures XorBits(a, b, n) / Bit(k) % 2 == 1 <==> a / Bit(k) % 2 != b / Bit(k) % 2
    decreases n
  {
    XorHalf(a, b, n);
    if k > 0 {
      XorBitsExactly(a / 2, b / 2, n - 1, k - 1);
      HalfBit(a, k);
      HalfBit(b, k);
      HalfBit(XorBits(a, b, n), k);
    }
  }

  /** Where the letters of a window are in its number: the first ones are highest. */
  lemma TextDigits(w: Bytes)
    requires Shape(TEXT4, w)
    ensures var x := Code(TEXT4, w);
      && x % 64 == B64Value(w[3]) && x / 64 % 64 == B64Value(w[2])
      && x / 64 / 64 % 64 == B64Value(w[1]) && x / 64 / 64 / 64 == B64Value(w[0])
  {
    var high: nat := B64Value(w[0]) * 4096 + B64Value(w[1]) * 64 + B64Value(w[2]);
    assert Code(TEXT4, w) / 64 == high;
  }

  lemma WideDigits(w: Bytes)
    requires Shape(WIDE8, w)
    ensures Code(WIDE8, w) == Code(TEXT4, [w[0], w[2], w[4], w[6]])
  {
  }

  lemma TrigramDigits(w: Bytes)
    requires Shape(GRAM3, w)
    ensures var x := Code(GRAM3, w); x % 256 == w[2] && x / 256 % 256 == w[1] && x / 256 / 256 == w[0]
  {
    var high: nat := (w[0] as int) * 256 + (w[1] as int);
    assert Code(GRAM3, w) / 256 == high;
  }

  /** A hash is the exclusive or, bit by bit, of the two trigrams in its window. */
  lemma HashBits(w: Bytes, k: nat)
    requires Shape(HASH4, w) && k < 24
    ensures Bit(k) > 0
    ensures Code(HASH4, w) / Bit(k) % 2 == 1 <==> Code(GRAM3, w[..3]) / Bit(k) % 2 != Code(GRAM3, w[1..]) / Bit(k) % 2
  {
    XorBitsExactly(Code(GRAM3, w[..3]), Code(GRAM3, w[1..]), 24, k);
  }

  /** All types but HASH4 lose nothing: equal numbers come from equal windows. */
  lemma CodeInjective(t: IndexType, v: Bytes, w: Bytes)
    requires t != HASH4 && Shape(t, v) && Shape(t, w) && Code(t, v) == Code(t, w)
    ensures v == w
  {
    match t
    case GRAM3 =>
    case TEXT4 =>
      Pack4Injective(v[0], v[1], v[2], v[3], w[0], w[1], w[2], w[3]);
    case WIDE8 =>
      Pack4Injective(v[0], v[2], v[4], v[6], w[0], w[2], w[4], w[6]);
  }

  lemma Pack4Injective(a: byte, b: byte, c: byte, d: byte, a': byte, b': byte, c': byte, d': byte)
    requires IsText(a) && IsText(b) && IsText(c) && IsText(d)
    requires IsText(a') && IsText(b') && IsText(c') && IsText(d')
    requires Pack4(a, b, c, d) == Pack4(a', b', c', d')
    ensures a == a' && b == b' && c == c' && d == d'
  {
    assert B64Value(a) == B64Value(a');
    assert B64Value(b) == B64Value(b');
    assert B64Value(c) == B64Value(c');
    assert B64Value(d) == B64Value(d');
    B64Injective(a, a');
    B64Injective(b, b');
    B64Injective(c, c');
    B64Injective(d, d');
  }

  // ----- the list of n-grams, window by window -----

  /**
   * The counter of the wide generator after `n` bytes: how many bytes of the pattern
   * letter, 0, letter, 0, ... it believes to have seen. A byte that breaks the pattern resets it, and
   * is not looked at again as the start of a new one.
   */
  function WideRun(mem: Bytes, n: nat): nat
    requires n <= |mem|
  {
    if n == 0 then 0
    else
      var g := WideRun(mem, n - 1);
      if (if g % 2 == 1 then mem[n - 1] == 0 else IsText(mem[n - 1])) then g + 1 else 0
  }

  /** Whether the window of type `t` that starts at `i` is passed to the callback. */
  predicate Emits(t: IndexType, mem: Bytes, i: nat) {
    && i + Width(t) <= |mem|
    && Shape(t, mem[i..i + Width(t)])
    && (t == WIDE8 ==> WideRun(mem, i) % 2 == 0)
  }

  /** The n-gram emitted for the window that starts at `i`, if any. */
  function GramAt(t: IndexType, mem: Bytes, i: nat): Option<TriGram> {
    if Emits(t, mem, i) then Some(Code(t, mem[i..i + Width(t)])) else None
  }

  /** The values of `f` below `n`, in order. */
  function Collect(f: nat -> Option<TriGram>, n: nat): (r: seq<TriGram>)
    ensures |r| <= n
  {
    if n == 0 then []
    else Collect(f, n - 1) + (if f(n - 1).Some? then [f(n - 1).value] else [])
  }

  lemma {:induction false} CollectExactly(f: nat -> Option<TriGram>, n: nat, g: TriGram)
    ensures g in Collect(f, n) <==> exists i: nat :: i < n && f(i) == Some(g)
  {
    if n > 0 {
      CollectExactly(f, n - 1, g);
      assert g in Collect(f, n) <==> g in Collect(f, n - 1) || f(n - 1) == Some(g);
    }
  }

  /** The number of windows of type `t` that end within the first `n` bytes. */
  function Windows(t: IndexType, n: nat): nat {
    if n < Width(t) then 0 else n - Width(t) + 1
  }

  /** The n-grams of the windows that end within the first `n` bytes, in order. */
  function GramsUpTo(t: IndexType, mem: Bytes, n: nat): seq<TriGram> {
    Collect(i => GramAt(t, mem, i), Windows(t, n))
  }

  function Grams(t: IndexType, mem: Bytes): seq<TriGram> {
    GramsUpTo(t, mem, |mem|)
  }

  lemma GramsExtend(t: IndexType, mem: Bytes, n: nat)
    ensures n + 1 < Width(t) ==> GramsUpTo(t, mem, n + 1) == GramsUpTo(t, mem, n) == []
    ensures n + 1 >= Width(t) ==>
      var hit := GramAt(t, mem, n + 1 - Width(t));
      GramsUpTo(t, mem, n + 1) == GramsUpTo(t, mem, n) + (if hit.Some? then [hit.value] else [])
  {
  }

  /** A file has the n-gram `g` exactly when some emitted window has that number. */
  lemma GramsExactly(t: IndexType, mem: Bytes, g: TriGram)
    ensures g in Grams(t, mem) <==> exists i: nat :: GramAt(t, mem, i) == Some(g)
  {
    var f: nat -> Option<TriGram> := i => GramAt(t, mem, i);
    CollectExactly(f, Windows(t, |mem|), g);
    if i: nat :| GramAt(t, mem, i) == Some(g) {
      assert i < Windows(t, |mem|) && f(i) == Some(g);
    }
    if i: nat :| i < Windows(t, |mem|) && f(i) == Some(g) {
      assert GramAt(t, mem, i) == Some(g);
    }
  }

  /** A file of n bytes produces at most n - 2 n-grams of any type. */
  lemma GramsCount(t: IndexType, mem: Bytes)
    ensures |Grams(t, mem)| <= if |mem| < 3 then 0 else |mem| - 2
  {
  }

  // ----- the generators -----

  /** `(x << 8) | b` */
  function Append8(x: int, b: int): int {
    x * 256 + b
  }

  /** `((gram3 & 0xFFFF) << 8) | b` */
  function Roll3(gram3: int, b: byte): int {
    Append8(gram3 % 65536, b)
  }

  /** `((gram4 & 0xFFFFFF) << 8) | b` */
  function Roll4(gram4: int, b: byte): int {
    Append8(gram4 % 16777216, b)
  }

  /** The accumulator of the trigram generator after `n` bytes. */
  ghost function TriAcc(mem: Bytes, n: nat): int
    requires 2 <= n <= |mem|
  {
    if n == 2 then Append8(mem[0], mem[1]) else Roll3(TriAcc(mem, n - 1), mem[n - 1])
  }

  lemma {:induction false} TriAccLow(mem: Bytes, n: nat)
    requires 2 <= n <= |mem|
    ensures TriAcc(mem, n) % 65536 == Append8(mem[n - 2], mem[n - 1])
    ensures n >= 3 ==> TriAcc(mem, n) == Pack3(mem[n - 3], mem[n - 2], mem[n - 1])
    decreases n
  {
    if n >= 3 {
      TriAccLow(mem, n - 1);
      Pack3Parts(mem[n - 3], mem[n - 2], mem[n - 1]);
    }
  }

  /** What one more byte adds to the list, in terms of the state after it. */
  lemma TriStep(mem: Bytes, n: nat)
    requires 2 <= n < |mem|
    ensures 0 <= TriAcc(mem, n + 1) < 16777216
    ensures GramsUpTo(GRAM3, mem, n + 1) == GramsUpTo(GRAM3, mem, n) + [TriAcc(mem, n + 1)]
  {
    var w := mem[n - 2..n + 1];
    assert w == [mem[n - 2], mem[n - 1], mem[n]];
    TriAccLow(mem, n + 1);
    GramsExtend(GRAM3, mem, n);
  }

  method GenTrigrams(mem: Bytes) returns (out: seq<TriGram>)
    ensures out == Grams(GRAM3, mem)
  {
    out := [];
    if |mem| < 3 {
      return;
    }
    var gram3 := Append8(mem[0], mem[1]);
    for offset := 2 to |mem|
      invariant gram3 == TriAcc(mem, offset)
      invariant out == GramsUpTo(GRAM3, mem, offset)
    {
      TriStep(mem, offset);
      gram3 := Roll3(gram3, mem[offset]);
      out := out + [gram3];
    }
  }

  // A division by a power of two with a known quotient and remainder.

  lemma Split8(x: int, q: int, r: int)
    requires x == 256 * q + r && 0 <= r < 256
    ensures x % 256 == r && x / 256 == q
  {
  }

  lemma Split16(x: int, q: int, r: int)
    requires x == 65536 * q + r && 0 <= r < 65536
    ensures x % 65536 == r
  {
  }

  lemma Split18(x: int, q: int, r: int)
    requires x == 262144 * q + r && 0 <= r < 262144
    ensures x % 262144 == r
  {
  }

  lemma Split24(x: int, q: int, r: int)
    requires x == 16777216 * q + r && 0 <= r < 16777216
    ensures x % 16777216 == r
  {
  }

  lemma Pack3Parts(a: byte, b: byte, c: byte)
    ensures Append8(Append8(a, b), c) == Pack3(a, b, c)
    ensures Pack3(a, b, c) % 65536 == Append8(b, c)
    ensures Pack3(a, b, c) % 256 == c as int
  {
    Split16(Pack3(a, b, c), a, Append8(b, c));
    Split8(Pack3(a, b, c), Append8(a, b), c);
  }

  method GenH4grams(mem: Bytes) returns (out: seq<TriGram>)
    ensures out == Grams(HASH4, mem)
  {
    out := [];
    if |mem| < 4 {
      return;
    }
    var gram4: nat := 0;
    for offset := 0 to |mem|
      invariant gram4 == Last4(mem, offset)
      invariant out == Hashes(mem, offset)
    {
      gram4 := Roll4(gram4, mem[offset]);
      if offset >= 3 {
        out := out + [H4Of(gram4)];
      }
    }
    HashesAre(mem, |mem|);
  }

  /** The 32-bit accumulator of the hash generator after `n` bytes. */
  ghost function Last4(mem: Bytes, n: nat): (r: nat)
    requires n <= |mem|
    ensures r < 0x1_0000_0000
  {
    if n == 0 then 0 else Roll4(Last4(mem, n - 1), mem[n - 1])
  }

  /** `((x >> 8) & 0xFFFFFF) ^ (x & 0xFFFFFF)` */
  function H4Of(x: nat): TriGram {
    Xor(x / 256 % 16777216, x % 16777216)
  }

  /** The hashes emitted for the first `n` bytes, in terms of the accumulator. */
  ghost function Hashes(mem: Bytes, n: nat): seq<TriGram>
    requires n <= |mem|
  {
    if n == 0 then [] else Hashes(mem, n - 1) + (if n > 3 then [H4Of(Last4(mem, n))] else [])
  }

  lemma {:induction false} HashesAre(mem: Bytes, n: nat)
    requires n <= |mem|
    ensures Hashes(mem, n) == GramsUpTo(HASH4, mem, n)
  {
    if n > 0 {
      HashesAre(mem, n - 1);
      H4Step(mem, n - 1);
    }
  }

  /** What one more byte adds to the list, in terms of the state after it. */
  lemma H4Step(mem: Bytes, n: nat)
    requires n < |mem|
    ensures GramsUpTo(HASH4, mem, n + 1)
         == GramsUpTo(HASH4, mem, n) + (if n >= 3 then [H4Of(Last4(mem, n + 1))] else [])
  {
    GramsExtend(HASH4, mem, n);
    if n >= 3 {
      H4Window(mem, n + 1);
    }
  }

  lemma AppendMod(x: nat, b: byte)
    ensures Append8(x, b) % 256 == b as int
    ensures Append8(x, b) % 65536 == Append8(x % 256, b)
    ensures Append8(x, b) % 16777216 == Append8(x % 65536, b)
    ensures Append8(x, b) / 256 == x
  {
    Split8(Append8(x, b), x, b);
    Split16(Append8(x, b), x / 256, Append8(x % 256, b));
    Split24(Append8(x, b), x / 65536, Append8(x % 65536, b));
  }

  lemma ModMod(x: nat)
    ensures x % 16777216 % 256 == x % 256
    ensures x % 16777216 % 65536 == x % 65536
  {
    var q, r := x / 16777216, x % 16777216;
    Split8(x, 65536 * q + r / 256, r % 256);
    Split16(x, 256 * q + r / 65536, r % 65536);
  }

  lemma Last4Low(mem: Bytes, n: nat)
    requires 3 <= n <= |mem|
    ensures Last4(mem, n) % 16777216 == Pack3(mem[n - 3], mem[n - 2], mem[n - 1])
  {
    var x, y, z := Last4(mem, n - 3), Last4(mem, n - 2), Last4(mem, n - 1);
    AppendMod(x % 16777216, mem[n - 3]);
    AppendMod(y % 16777216, mem[n - 2]);
    AppendMod(z % 16777216, mem[n - 1]);
    ModMod(y);
    ModMod(z);
    Pack3Parts(mem[n - 3], mem[n - 2], mem[n - 1]);
  }

  lemma H4Window(mem: Bytes, n: nat)
    requires 4 <= n <= |mem|
    ensures GramAt(HASH4, mem, n - 4) == Some(H4Of(Last4(mem, n)))
  {
    var w := mem[n - 4..n];
    assert w == [mem[n - 4], mem[n - 3], mem[n - 2], mem[n - 1]];
    Last4High(mem, n);
    Last4Low(mem, n);
    assert Code(HASH4, w) == Xor(Pack3(w[0], w[1], w[2]), Pack3(w[1], w[2], w[3]));
  }

  lemma Last4High(mem: Bytes, n: nat)
    requires 4 <= n <= |mem|
    ensures Last4(mem, n) / 256 % 16777216 == Pack3(mem[n - 4], mem[n - 3], mem[n - 2])
  {
    AppendHigh(Last4(mem, n - 1) % 16777216, mem[n - 1]);
    Last4Low(mem, n - 1);
  }

  lemma AppendHigh(x: nat, b: byte)
    requires x < 16777216
    ensures Append8(x, b) / 256 % 16777216 == x
  {
    Split8(Append8(x, b), x, b);
  }

  /** The counter and the accumulator of the text generator after `n` bytes. */
  ghost function TextRun(mem: Bytes, n: nat): nat
    requires n <= |mem|
  {
    if n == 0 || !IsText(mem[n - 1]) then 0 else TextRun(mem, n - 1) + 1
  }

  function Push(acc: TriGram, c: byte): TriGram
    requires IsText(c)
  {
    (acc * 64 + B64Value(c)) % 16777216
  }

  lemma PushIs(acc: TriGram, c: byte)
    requires IsText(c)
    ensures Push(acc, c) == (acc % 262144) * 64 + B64Value(c)
  {
    Split24(acc * 64 + B64Value(c), acc / 262144, (acc % 262144) * 64 + B64Value(c));
  }

  /** Whatever was in the accumulator, four letters push it out. */
  lemma PushFour(x: TriGram, a: byte, b: byte, c: byte, d: byte)
    requires IsText(a) && IsText(b) && IsText(c) && IsText(d)
    ensures Push(Push(Push(Push(x, a), b), c), d) == Pack4(a, b, c, d)
  {
    var y := Push(x, a);
    var z := Push(y, b);
    var u := Push(z, c);
    PushIs(x, a);
    PushIs(y, b);
    PushIs(z, c);
    PushIs(u, d);
    Shifted(x % 262144, B64Value(a), B64Value(b), B64Value(c), B64Value(d));
  }

  lemma Shifted(x: nat, a: nat, b: nat, c: nat, d: nat)
    requires x < 262144 && a < 64 && b < 64 && c < 64 && d < 64
    ensures var y := x * 64 + a;
            var z := (y % 262144) * 64 + b;
            var u := (z % 262144) * 64 + c;
            (u % 262144) * 64 + d == a * 262144 + b * 4096 + c * 64 + d
  {
    var y := x * 64 + a;
    Split18(y, x / 4096, (x % 4096) * 64 + a);
    var z := (y % 262144) * 64 + b;
    Split18(z, (x % 4096) / 64, (x % 4096) % 64 * 4096 + a * 64 + b);
    var u := (z % 262144) * 64 + c;
    Split18(u, (x % 4096) % 64, a * 4096 + b * 64 + c);
  }

  ghost function TextAcc(mem: Bytes, n: nat): TriGram
    requires n <= |mem|
  {
    if n == 0 then 0
    else if IsText(mem[n - 1]) then Push(TextAcc(mem, n - 1), mem[n - 1])
    else TextAcc(mem, n - 1)
  }

  lemma TextWindow(mem: Bytes, n: nat)
    requires 4 <= n <= |mem|
    ensures TextRun(mem, n) >= 4 <==> Shape(TEXT4, mem[n - 4..n])
    ensures TextRun(mem, n) >= 4 ==> TextAcc(mem, n) == Code(TEXT4, mem[n - 4..n])
  {
    var w := mem[n - 4..n];
    assert w[0] == mem[n - 4] && w[1] == mem[n - 3] && w[2] == mem[n - 2] && w[3] == mem[n - 1];
    assert TextRun(mem, n - 1) >= 3 <==> IsText(w[0]) && IsText(w[1]) && IsText(w[2]) by {
      assert TextRun(mem, n - 2) >= 2 <==> IsText(w[0]) && IsText(w[1]) by {
        assert TextRun(mem, n - 3) >= 1 <==> IsText(w[0]);
      }
    }
    if TextRun(mem, n) >= 4 {
      PushFour(TextAcc(mem, n - 4), w[0], w[1], w[2], w[3]);
      assert TextAcc(mem, n - 2) == Push(TextAcc(mem, n - 3), w[1]);
    }
  }

  lemma {:induction false} TextRunBound(mem: Bytes, n: nat)
    requires n <= |mem|
    ensures TextRun(mem, n) <= n
    decreases n
  {
    if n > 0 {
      TextRunBound(mem, n - 1);
    }
  }

  /** What one more byte adds to the list, in terms of the state after it. */
  lemma TextStep(mem: Bytes, n: nat)
    requires n < |mem|
    ensures GramsUpTo(TEXT4, mem, n + 1)
         == GramsUpTo(TEXT4, mem, n) + (if TextRun(mem, n + 1) >= 4 then [TextAcc(mem, n + 1)] else [])
  {
    TextRunBound(mem, n + 1);
    GramsExtend(TEXT4, mem, n);
    if n + 1 >= 4 {
      TextWindow(mem, n + 1);
    }
  }

  method GenB64grams(mem: Bytes) returns (out: seq<TriGram>)
    ensures out == Grams(TEXT4, mem)
  {
    out := [];
    if |mem| < 4 {
      return;
    }
    var gram4: TriGram := 0;
    var goodRun := 0;
    for offset := 0 to |mem|
      invariant goodRun == TextRun(mem, offset) && gram4 == TextAcc(mem, offset)
      invariant out == GramsUpTo(TEXT4, mem, offset)
    {
      var next := B64Value(mem[offset]);
      if next < 0 {
        goodRun := 0;
      } else {
        gram4 := (gram4 * 64 + next) % 16777216;
        goodRun := goodRun + 1;
      }
      TextStep(mem, offset);
      if goodRun >= 4 {
        out := out + [gram4];
      }
    }
  }

  // ----- the wide generator -----

  ghost function WideAcc(mem: Bytes, n: nat): TriGram
    requires n <= |mem|
  {
    if n == 0 then 0
    else if WideRun(mem, n - 1) % 2 == 0 && IsText(mem[n - 1]) then Push(WideAcc(mem, n - 1), mem[n - 1])
    else WideAcc(mem, n - 1)
  }

  /** The bytes of the pattern letter, 0, letter, 0, ... that starts at `i`, up to `k` of them. */
  ghost predicate Alternates(mem: Bytes, i: nat, k: nat)
    requires i + k <= |mem|
  {
    k > 0 ==>
      && Alternates(mem, i, k - 1)
      && if k % 2 == 1 then IsText(mem[i + k - 1]) else mem[i + k - 1] == 0
  }

  /** A counter of at least `k` means that the last `k` bytes each raised it by one, and conversely. */
  lemma {:induction false} WideBack(mem: Bytes, n: nat, k: nat, m: nat)
    requires n <= |mem| && WideRun(mem, n) == m + k && m % 2 == 0
    ensures k <= n && WideRun(mem, n - k) == m && Alternates(mem, n - k, k)
    decreases k
  {
    if k > 0 {
      assert n > 0 && WideRun(mem, n - 1) == m + k - 1;
      WideBack(mem, n - 1, k - 1, m);
    }
  }

  lemma {:induction false} WideForward(mem: Bytes, i: nat, k: nat)
    requires i + k <= |mem| && WideRun(mem, i) % 2 == 0 && Alternates(mem, i, k)
    ensures WideRun(mem, i + k) == WideRun(mem, i) + k
    decreases k
  {
    if k > 0 {
      WideForward(mem, i, k - 1);
    }
  }

  lemma AlternatesShape(mem: Bytes, i: nat)
    requires i + 8 <= |mem|
    ensures Alternates(mem, i, 8) <==> Shape(WIDE8, mem[i..i + 8])
  {
    var w := mem[i..i + 8];
    assert w == [mem[i], mem[i + 1], mem[i + 2], mem[i + 3], mem[i + 4], mem[i + 5], mem[i + 6], mem[i + 7]];
    assert Alternates(mem, i, 2) <==> IsText(mem[i]) && mem[i + 1] == 0 by {
      assert Alternates(mem, i, 1) <==> IsText(mem[i]);
    }
    assert Alternates(mem, i, 4) <==> Alternates(mem, i, 2) && IsText(mem[i + 2]) && mem[i + 3] == 0;
    assert Alternates(mem, i, 6) <==> Alternates(mem, i, 4) && IsText(mem[i + 4]) && mem[i + 5] == 0;
  }

  /** The generator calls back after an odd position of its counter, once it has counted to eight. */
  lemma WideWindow(mem: Bytes, n: nat)
    requires 8 <= n <= |mem|
    ensures WideRun(mem, n) >= 8 && WideRun(mem, n) % 2 == 0 <==> Emits(WIDE8, mem, n - 8)
  {
    AlternatesShape(mem, n - 8);
    if WideRun(mem, n) >= 8 && WideRun(mem, n) % 2 == 0 {
      WideBack(mem, n, 8, WideRun(mem, n) - 8);
    } else if Emits(WIDE8, mem, n - 8) {
      WideForward(mem, n - 8, 8);
    }
  }

  /** One letter and one zero from an even counter: one letter is pushed. */
  lemma WidePair(mem: Bytes, i: nat)
    requires i + 2 <= |mem| && WideRun(mem, i) % 2 == 0 && IsText(mem[i]) && mem[i + 1] == 0
    ensures WideRun(mem, i + 2) == WideRun(mem, i) + 2
    ensures WideAcc(mem, i + 2) == Push(WideAcc(mem, i), mem[i])
  {
  }

  lemma WideLetters(mem: Bytes, i: nat)
    requires Emits(WIDE8, mem, i)
    ensures IsText(mem[i]) && IsText(mem[i + 2]) && IsText(mem[i + 4]) && IsText(mem[i + 6])
    ensures mem[i + 1] == mem[i + 3] == mem[i + 5] == mem[i + 7] == 0
    ensures Code(WIDE8, mem[i..i + 8]) == Pack4(mem[i], mem[i + 2], mem[i + 4], mem[i + 6])
  {
    var w := mem[i..i + 8];
    assert w[0] == mem[i] && w[1] == mem[i + 1] && w[2] == mem[i + 2] && w[3] == mem[i + 3];
    assert w[4] == mem[i + 4] && w[5] == mem[i + 5] && w[6] == mem[i + 6] && w[7] == mem[i + 7];
  }

  lemma WidePushes(mem: Bytes, i: nat)
    requires Emits(WIDE8, mem, i)
    ensures WideAcc(mem, i + 8) == Code(WIDE8, mem[i..i + 8])
  {
    WideLetters(mem, i);
    WidePair(mem, i);
    WidePair(mem, i + 2);
    WidePair(mem, i + 4);
    WidePair(mem, i + 6);
    PushFour(WideAcc(mem, i), mem[i], mem[i + 2], mem[i + 4], mem[i + 6]);
  }

  lemma {:induction false} WideRunBound(mem: Bytes, n: nat)
    requires n <= |mem|
    ensures WideRun(mem, n) <= n
    decreases n
  {
    if n > 0 {
      WideRunBound(mem, n - 1);
    }
  }

  /** What one more byte adds to the list, in terms of the state after it. */
  lemma WideStep(mem: Bytes, n: nat)
    requires n < |mem|
    ensures var g := WideRun(mem, n + 1);
      GramsUpTo(WIDE8, mem, n + 1)
      == GramsUpTo(WIDE8, mem, n) + (if g >= 8 && g % 2 == 0 then [WideAcc(mem, n + 1)] else [])
  {
    WideRunBound(mem, n + 1);
    GramsExtend(WIDE8, mem, n);
    if n + 1 >= 8 {
      WideWindow(mem, n + 1);
      if Emits(WIDE8, mem, n - 7) {
        WidePushes(mem, n - 7);
      }
    }
  }

  method GenWideB64grams(mem: Bytes) returns (out: seq<TriGram>)
    ensures out == Grams(WIDE8, mem)
  {
    out := [];
    if |mem| < 8 {
      return;
    }
    var gram4: TriGram := 0;
    var goodRun := 0;
    for offset := 0 to |mem|
      invariant goodRun == WideRun(mem, offset) && gram4 == WideAcc(mem, offset)
      invariant out == GramsUpTo(WIDE8, mem, offset)
    {
      WideStep(mem, offset);
      var call;
      gram4, goodRun, call := WideNext(mem, offset, gram4, goodRun);
      if call {
        out := out + [gram4];
      }
    }
  }

  /** The body of the loop: the new state, and whether to call back. */
  method WideNext(mem: Bytes, offset: nat, gram4: TriGram, goodRun: nat) returns (gram4': TriGram, goodRun': nat, call: bool)
    requires offset < |mem| && goodRun == WideRun(mem, offset) && gram4 == WideAcc(mem, offset)
    ensures goodRun' == WideRun(mem, offset + 1) && gram4' == WideAcc(mem, offset + 1)
    ensures call <==> goodRun % 2 == 1 && goodRun' >= 8
  {
    gram4', call := gram4, false;
    if goodRun % 2 == 1 {
      goodRun' := if mem[offset] == 0 then goodRun + 1 else 0;
      call := goodRun' >= 8;
    } else {
      var next := B64Value(mem[offset]);
      if next < 0 {
        goodRun' := 0;
      } else {
        gram4' := (gram4 * 64 + next) % 16777216;
        goodRun' := goodRun + 1;
      }
    }
  }

  /** `get_generator_for` */
  method Generate(t: IndexType, mem: Bytes) returns (out: seq<TriGram>)
    ensures out == Grams(t, mem)
  {
    match t
    case GRAM3 => out := GenTrigrams(mem);
    case TEXT4 => out := GenB64grams(mem);
    case HASH4 => out := GenH4grams(mem);
    case WIDE8 => out := GenWideB64grams(mem);
  }

  // ----- which wide windows are found -----

  /**
   * A byte outside the alphabet, or the start of the file, in front of a window puts the counter of
   * the wide generator into an even position.
   */
  lemma WideRunEvenAfterGap(mem: Bytes, i: nat)
    requires i <= |mem| && (i > 0 ==> !IsText(mem[i - 1]))
    ensures WideRun(mem, i) % 2 == 0
  {
  }

  /** The file "AA\0B\0C\0D\0" holds the wide window of ABCD, but the generator emits nothing for it. */
  lemma WideWindowMissed()
    ensures var mem: Bytes := [65, 65, 0, 66, 0, 67, 0, 68, 0];
      Shape(WIDE8, mem[1..9]) && Grams(WIDE8, mem) == []
  {
    var mem: Bytes := [65, 65, 0, 66, 0, 67, 0, 68, 0];
    var w := mem[1..9];
    assert w == [65, 0, 66, 0, 67, 0, 68, 0];
    assert WideRun(mem, 1) == 1;
    assert GramAt(WIDE8, mem, 1) == None;
    assert GramAt(WIDE8, mem, 0) == None by {
      assert mem[0..8][1] == 65;
    }
    GramsExtend(WIDE8, mem, 7);
    GramsExtend(WIDE8, mem, 8);
  }
}
