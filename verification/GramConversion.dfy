/** Turning a stretch of a query string into one n-gram (`convert_gram`). */
module GramConversion {
  import opened Core
  import opened Ngrams

  /** The byte values a position of a query string accepts. */
  type QToken = seq<byte>

  type QString = seq<QToken>

  predicate Unique(token: QToken) {
    |token| == 1
  }

  predicate AllUnique(tokens: QString) {
    forall k :: 0 <= k < |tokens| ==> Unique(tokens[k])
  }

  /** The only byte string that tokens without alternatives accept. */
  function Singles(tokens: QString): (w: Bytes)
    requires AllUnique(tokens)
    ensures |w| == |tokens|
    ensures forall k :: 0 <= k < |w| ==> tokens[k] == [w[k]]
  {
    seq(|tokens|, k requires 0 <= k < |tokens| => tokens[k][0])
  }

  /** The n-gram of a window, if its shape fits the type. */
  function WindowGram(t: IndexType, w: Bytes): Option<TriGram> {
    if Shape(t, w) then Some(Code(t, w)) else None
  }

  /** The n-gram of type `t` that a match of `value` must contain at position `i`, if there is one. */
  function ConvertAt(t: IndexType, value: QString, i: nat): Option<TriGram> {
    if i + Width(t) > |value| || !AllUnique(value[i..i + Width(t)]) then None
    else WindowGram(t, Singles(value[i..i + Width(t)]))
  }

  // ----- bytes packed into one number, first byte highest -----

  function PackBytes(w: Bytes): nat {
    if w == [] then 0 else PackBytes(w[..|w| - 1]) * 256 + w[|w| - 1]
  }

  function Unpack(x: nat, n: nat): (w: Bytes)
    ensures |w| == n
  {
    if n == 0 then [] else Unpack(x / 256, n - 1) + [x % 256]
  }

  lemma {:induction false} UnpackPack(w: Bytes)
    ensures Unpack(PackBytes(w), |w|) == w
    decreases |w|
  {
    if w != [] {
      var init, last := w[..|w| - 1], w[|w| - 1];
      UnpackPack(init);
      Split8(PackBytes(w), PackBytes(init), last);
    }
  }

  /** `x >> (8 * k)` */
  function Shr8(x: nat, k: nat): nat
    decreases k
  {
    if k == 0 then x else Shr8(x / 256, k - 1)
  }

  lemma {:induction false} UnpackAt(x: nat, n: nat, i: nat)
    requires i < n
    ensures Unpack(x, n)[i] == Shr8(x, n - 1 - i) % 256
    decreases n
  {
    if i < n - 1 {
      UnpackAt(x / 256, n - 1, i);
    }
  }

  /** A window is packed, unpacked and given to the generator; the first n-gram is the result. */
  method ConvertGram(t: IndexType, source: nat) returns (r: Option<TriGram>)
    ensures r == WindowGram(t, Unpack(source, Width(t)))
  {
    var mem: Bytes := [];
    var size := Width(t);
    for i := 0 to size
      invariant mem == Unpack(source, size)[..i]
    {
      UnpackAt(source, size, i);
      mem := mem + [Shr8(source, size - i - 1) % 256];
    }
    assert mem == Unpack(source, size);
    var result := Generate(t, mem);
    GramsOfWindow(t, mem);
    r := if result == [] then None else Some(result[0]);
  }

  /** On a buffer of exactly one window, a generator emits that window or nothing. */
  lemma GramsOfWindow(t: IndexType, w: Bytes)
    requires |w| == Width(t)
    ensures Grams(t, w) == if Shape(t, w) then [Code(t, w)] else []
  {
    assert w[0..0 + Width(t)] == w;
    assert WideRun(w, 0) == 0;
    GramsExtend(t, w, Width(t) - 1);
  }

  /** The window of the pattern at `i` accepts the bytes `w` and no others. */
  predicate Demands(value: QString, i: nat, w: Bytes) {
    i + |w| <= |value| && forall k :: 0 <= k < |w| ==> value[i + k] == [w[k]]
  }

  /**
   * A pattern has the n-gram `g` at `i` if and only if its window there accepts one byte string only,
   * and `g` is what the generator finds in that string by itself.
   */
  lemma ConvertExactly(t: IndexType, value: QString, i: nat, g: TriGram)
    ensures ConvertAt(t, value, i) == Some(g) <==> exists w: Bytes :: |w| == Width(t) && Demands(value, i, w) && Grams(t, w) == [g]
  {
    if ConvertAt(t, value, i) == Some(g) {
      var w := Singles(value[i..i + Width(t)]);
      forall k | 0 <= k < |w| ensures value[i + k] == [w[k]] {
        assert value[i..i + Width(t)][k] == value[i + k];
      }
      assert Demands(value, i, w);
      GramsOfWindow(t, w);
    }
    if w: Bytes :| |w| == Width(t) && Demands(value, i, w) && Grams(t, w) == [g] {
      GramsOfWindow(t, w);
      DemandsSingles(value, i, w);
    }
  }

  lemma DemandsSingles(value: QString, i: nat, w: Bytes)
    requires Demands(value, i, w)
    ensures AllUnique(value[i..i + |w|]) && Singles(value[i..i + |w|]) == w
  {
    var tokens := value[i..i + |w|];
    assert forall k :: 0 <= k < |w| ==> tokens[k] == [w[k]];
    assert forall k :: 0 <= k < |w| ==> [Singles(tokens)[k]] == [w[k]];
  }

  method ConvertGramAt(t: IndexType, index: nat, value: QString) returns (r: Option<TriGram>)
    ensures r == ConvertAt(t, value, index)
  {
    var size := Width(t);
    if index + size > |value| {
      return None;
    }
    ghost var window := value[index..index + size];
    var source: nat := 0;
    for i := 0 to size
      invariant AllUnique(window[..i]) && source == PackBytes(Singles(window[..i]))
    {
      if |value[index + i]| != 1 {
        assert !Unique(window[i]);
        return None;
      }
      assert window[..i + 1] == window[..i] + [window[i]];
      assert Singles(window[..i + 1]) == Singles(window[..i]) + [value[index + i][0]];
      source := source * 256 + value[index + i][0];
    }
    assert window[..size] == window;
    UnpackPack(Singles(window));
    r := ConvertGram(t, source);
  }
}
