/**
 * The layout of an index file: a 16-byte header, the stored runs of all n-grams in n-gram order, and
 * a footer of 64-bit offsets, one per n-gram and one for the end of the last run.
 */
module IndexFormat {
  import opened Core
  import opened Codec

  // ----- little-endian numbers -----

  function LE(x: nat, n: nat): (r: Bytes)
    ensures |r| == n
  {
    if n == 0 then [] else [x % 256] + LE(x / 256, n - 1)
  }

  function FromLE(b: Bytes): nat {
    if b == [] then 0 else b[0] + 256 * FromLE(b[1..])
  }

  /** The number of values that fit in `n` bytes. */
  function Range(n: nat): nat {
    if n == 0 then 1 else 256 * Range(n - 1)
  }

  lemma {:induction false} LERoundTrip(x: nat, n: nat)
    requires x < Range(n)
    ensures FromLE(LE(x, n)) == x
    decreases n
  {
    if n > 0 {
      assert x / 256 < Range(n - 1);
      LERoundTrip(x / 256, n - 1);
      assert LE(x, n)[1..] == LE(x / 256, n - 1);
    }
  }

  /** The lowest byte of a number comes first. */
  lemma {:induction false} LEDigits(x: nat, n: nat, i: nat)
    requires i < n
    ensures Range(i) > 0 && LE(x, n)[i] == x / Range(i) % 256
    decreases n
  {
    if i > 0 {
      LEDigits(x / 256, n - 1, i - 1);
      assert LE(x, n)[i] == LE(x / 256, n - 1)[i - 1];
      DivTwice(x, 256, Range(i - 1));
    }
  }

  lemma Range48()
    ensures Range(4) == 0x1_0000_0000 && Range(8) == 0x1_0000_0000_0000_0000
  {
    assert Range(4) == 256 * Range(3) == 256 * 256 * Range(2);
    assert Range(8) == 256 * Range(7) == 256 * 256 * Range(6);
    assert Range(6) == 256 * Range(5) == 256 * 256 * Range(4);
  }

  // ----- header -----

  const DATA_OFFSET: nat := 16

  function RawType(t: IndexType): nat {
    match t
    case GRAM3 => 1
    case TEXT4 => 2
    case HASH4 => 3
    case WIDE8 => 4
  }

  function FromRawType(raw: nat): Option<IndexType> {
    if raw == 1 then Some(GRAM3)
    else if raw == 2 then Some(TEXT4)
    else if raw == 3 then Some(HASH4)
    else if raw == 4 then Some(WIDE8)
    else None
  }

  function Header(t: IndexType): (r: Bytes)
    ensures |r| == DATA_OFFSET
  {
    LE(DB_MAGIC, 4) + LE(INDEX_VERSION, 4) + LE(RawType(t), 4) + LE(0, 4)
  }

  /** The header: magic number, version 6, the type as 1 to 4, and four reserved bytes. */
  lemma HeaderBytes(t: IndexType)
    ensures Header(t) == [0x7A, 0xDA, 0xA7, 0x0C, 6, 0, 0, 0] +
      [match t case GRAM3 => 1 case TEXT4 => 2 case HASH4 => 3 case WIDE8 => 4] + [0, 0, 0, 0, 0, 0, 0]
  {
    LE4(DB_MAGIC);
    LE4(INDEX_VERSION);
    LE4(RawType(t));
    LE4(0);
  }

  lemma LE4(x: nat)
    ensures LE(x, 4) == [x % 256, x / 256 % 256, x / 256 / 256 % 256, x / 256 / 256 / 256 % 256]
  {
    assert LE(x / 256 / 256 / 256, 1) == [x / 256 / 256 / 256 % 256];
    assert LE(x / 256 / 256, 2) == [x / 256 / 256 % 256] + LE(x / 256 / 256 / 256, 1);
    assert LE(x / 256, 3) == [x / 256 % 256] + LE(x / 256 / 256, 2);
  }

  // ----- runs and footer -----

  predicate ValidRuns(runs: seq<Run>) {
    forall v :: 0 <= v < |runs| ==> AscendingFrom(-1, runs[v])
  }

  /** All runs, stored one after the other. */
  function EncodeAll(runs: seq<Run>): Bytes
    requires ValidRuns(runs)
  {
    if runs == [] then [] else EncodeAll(runs[..|runs| - 1]) + EncodeRun(runs[|runs| - 1])
  }

  /** Where the run of n-gram `v` starts in the file. */
  function Start(runs: seq<Run>, v: nat): nat
    requires ValidRuns(runs) && v <= |runs|
  {
    DATA_OFFSET + |EncodeAll(runs[..v])|
  }

  function Starts(runs: seq<Run>): (r: seq<nat>)
    requires ValidRuns(runs)
    ensures |r| == |runs| + 1
    ensures forall v :: 0 <= v <= |runs| ==> r[v] == Start(runs, v)
  {
    seq(|runs| + 1, v requires 0 <= v <= |runs| => Start(runs, v))
  }

  function Footer(offsets: seq<nat>): (r: Bytes)
    ensures |r| == 8 * |offsets|
  {
    if offsets == [] then []
    else Footer(offsets[..|offsets| - 1]) + LE(offsets[|offsets| - 1], 8)
  }

  /** The index file of type `t` in which n-gram `v` occurs in exactly the files `runs[v]`. */
  function Serialize(t: IndexType, runs: seq<Run>): Bytes
    requires ValidRuns(runs)
  {
    Header(t) + EncodeAll(runs) + Footer(Starts(runs))
  }

  /** The slice of the concatenation between two run starts is that run, and starts are monotone. */
  lemma {:induction false} EncodeAllSlice(runs: seq<Run>, v: nat)
    requires ValidRuns(runs) && v < |runs|
    ensures |EncodeAll(runs[..v])| <= |EncodeAll(runs[..v + 1])| <= |EncodeAll(runs)|
    ensures EncodeAll(runs)[|EncodeAll(runs[..v])|..|EncodeAll(runs[..v + 1])|] == EncodeRun(runs[v])
    decreases |runs|
  {
    var init := runs[..|runs| - 1];
    if v == |runs| - 1 {
      assert runs[..v + 1] == runs;
    } else {
      assert init[..v] == runs[..v] && init[..v + 1] == runs[..v + 1];
      EncodeAllSlice(init, v);
    }
  }

  lemma EncodeAllExtend(runs: seq<Run>, v: nat)
    requires ValidRuns(runs) && v < |runs|
    ensures EncodeAll(runs[..v + 1]) == EncodeAll(runs[..v]) + EncodeRun(runs[v])
  {
    assert runs[..v + 1][..v] == runs[..v];
  }

  /** n-grams without files take no space. */
  lemma {:induction false} EncodeAllEmpty(runs: seq<Run>, v: nat, w: nat)
    requires ValidRuns(runs) && v <= w <= |runs|
    requires forall u :: v <= u < w ==> runs[u] == []
    ensures EncodeAll(runs[..w]) == EncodeAll(runs[..v])
    decreases w
  {
    if v < w {
      EncodeAllExtend(runs, w - 1);
      EncodeAllEmpty(runs, v, w - 1);
    }
  }

  lemma {:induction false} FooterSlice(offsets: seq<nat>, v: nat)
    requires v < |offsets|
    ensures Footer(offsets)[8 * v..8 * v + 8] == LE(offsets[v], 8)
    decreases |offsets|
  {
    var init := offsets[..|offsets| - 1];
    if v < |offsets| - 1 {
      FooterSlice(init, v);
      assert Footer(offsets)[8 * v..8 * v + 8] == Footer(init)[8 * v..8 * v + 8];
    } else {
      assert Footer(offsets)[8 * v..8 * v + 8] == LE(offsets[v], 8);
    }
  }

  /** The file up to the run of n-gram `i`, and where that run starts. */
  ghost predicate SavedUpTo(header: Bytes, runs: seq<Run>, i: nat, content: Bytes, offset: nat) {
    && ValidRuns(runs) && i <= |runs|
    && content == header + EncodeAll(runs[..i])
    && offset == Start(runs, i)
  }

  lemma SaveOne(header: Bytes, runs: seq<Run>, i: nat, content: Bytes, offset: nat)
    requires SavedUpTo(header, runs, i, content, offset) && i < |runs|
    ensures SavedUpTo(header, runs, i + 1, content + EncodeRun(runs[i]), offset + |EncodeRun(runs[i])|)
  {
    EncodeAllExtend(runs, i);
    Assoc(header, EncodeAll(runs[..i]), EncodeRun(runs[i]));
  }

  // ----- reading an index file -----

  function RunArraySize(grams: nat): nat {
    (grams + 1) * 8
  }

  /** The checks made when a file of at least `grams` runs is opened; the type if all succeed. */
  function OpenIndex(file: Bytes, grams: nat): Option<IndexType> {
    if |file| < DATA_OFFSET + RunArraySize(grams) then None
    else if FromLE(file[0..4]) != DB_MAGIC then None
    else if FromLE(file[4..8]) != INDEX_VERSION then None
    else if FromRawType(FromLE(file[8..12])) == None then None
    else if FromLE(file[12..16]) != 0 then None
    else FromRawType(FromLE(file[8..12]))
  }

  /** The bytes of entry `v` of the offset table at the end of the file. */
  function RunOffsetBytes(file: Bytes, grams: nat, v: nat): Bytes
    requires v <= grams && RunArraySize(grams) <= |file|
  {
    var at := |file| - RunArraySize(grams) + v * 8;
    file[at..at + 8]
  }

  function RunOffset(file: Bytes, grams: nat, v: nat): nat
    requires v <= grams && RunArraySize(grams) <= |file|
  {
    FromLE(RunOffsetBytes(file, grams, v))
  }

  /** The bytes of the run of n-gram `v`; `None` is the "invalid run" error. */
  function GetRun(file: Bytes, grams: nat, v: nat): Option<Bytes>
    requires v < grams && RunArraySize(grams) <= |file|
  {
    var ptr, nextPtr := RunOffset(file, grams, v), RunOffset(file, grams, v + 1);
    if ptr > nextPtr || nextPtr > |file| then None else Some(file[ptr..nextPtr])
  }

  lemma ReadHeader(t: IndexType)
    ensures var h := Header(t);
      && FromLE(h[0..4]) == DB_MAGIC && FromLE(h[4..8]) == INDEX_VERSION
      && FromLE(h[8..12]) == RawType(t) && FromLE(h[12..16]) == 0
  {
    var a, b, c, d := LE(DB_MAGIC, 4), LE(INDEX_VERSION, 4), LE(RawType(t), 4), LE(0, 4);
    var h := Header(t);
    assert h == a + b + c + d;
    assert h[0..4] == a && h[4..8] == b && h[8..12] == c && h[12..16] == d;
    Range48();
    LERoundTrip(DB_MAGIC, 4);
    LERoundTrip(INDEX_VERSION, 4);
    LERoundTrip(RawType(t), 4);
    LERoundTrip(0, 4);
  }

  lemma OpenSerialized(t: IndexType, runs: seq<Run>)
    requires ValidRuns(runs)
    ensures OpenIndex(Serialize(t, runs), |runs|) == Some(t)
  {
    var file, h := Serialize(t, runs), Header(t);
    ReadHeader(t);
    assert file[0..4] == h[0..4] && file[4..8] == h[4..8];
    assert file[8..12] == h[8..12] && file[12..16] == h[12..16];
  }

  lemma {:induction false} StartMonotone(runs: seq<Run>, v: nat, w: nat)
    requires ValidRuns(runs) && v <= w <= |runs|
    ensures DATA_OFFSET <= Start(runs, v) <= Start(runs, w) <= DATA_OFFSET + |EncodeAll(runs)|
    decreases |runs| - v
  {
    if v < w {
      EncodeAllSlice(runs, v);
      StartMonotone(runs, v + 1, w);
    } else if w < |runs| {
      EncodeAllSlice(runs, w);
      StartMonotone(runs, w + 1, |runs|);
    } else {
      assert runs[..|runs|] == runs;
    }
  }

  lemma Slice(pre: Bytes, mid: Bytes, post: Bytes, a: nat, b: nat)
    requires a <= b <= |mid|
    ensures (pre + mid + post)[|pre| + a..|pre| + b] == mid[a..b]
  {
  }

  lemma RunOffsetInFooter(body: Bytes, foot: Bytes, grams: nat, v: nat)
    requires |foot| == RunArraySize(grams) && v <= grams
    ensures RunOffsetBytes(body + foot, grams, v) == foot[8 * v..8 * v + 8]
  {
    Slice(body, foot, [], 8 * v, 8 * v + 8);
    assert body + foot + [] == body + foot;
  }

  lemma ReadRunOffset(t: IndexType, runs: seq<Run>, v: nat)
    requires ValidRuns(runs) && v <= |runs| && |Serialize(t, runs)| < 0x1_0000_0000_0000_0000
    ensures RunOffset(Serialize(t, runs), |runs|, v) == Start(runs, v)
  {
    RunOffsetInFooter(Header(t) + EncodeAll(runs), Footer(Starts(runs)), |runs|, v);
    FooterSlice(Starts(runs), v);
    StartMonotone(runs, v, v);
    Range48();
    LERoundTrip(Start(runs, v), 8);
  }

  /** Reading n-gram `v` back from a stored index and decoding it gives exactly `runs[v]`. */
  lemma ReadBack(t: IndexType, runs: seq<Run>, v: nat)
    requires ValidRuns(runs) && v < |runs| && |Serialize(t, runs)| < 0x1_0000_0000_0000_0000
    ensures GetRun(Serialize(t, runs), |runs|, v) == Some(EncodeRun(runs[v]))
    ensures DecodeRun(EncodeRun(runs[v])) == runs[v]
  {
    ReadRunOffset(t, runs, v);
    ReadRunOffset(t, runs, v + 1);
    RunBytes(t, runs, v);
    DecodeEncode(runs[v]);
  }

  lemma RunBytes(t: IndexType, runs: seq<Run>, v: nat)
    requires ValidRuns(runs) && v < |runs|
    ensures Start(runs, v) <= Start(runs, v + 1) <= |Serialize(t, runs)|
    ensures Serialize(t, runs)[Start(runs, v)..Start(runs, v + 1)] == EncodeRun(runs[v])
  {
    EncodeAllSlice(runs, v);
    Slice(Header(t), EncodeAll(runs), Footer(Starts(runs)), |EncodeAll(runs[..v])|, |EncodeAll(runs[..v + 1])|);
  }

  /** The offset table together with the bodies determines the runs: no two indexes share a file. */
  lemma SerializeInjective(t: IndexType, a: seq<Run>, b: seq<Run>)
    requires ValidRuns(a) && ValidRuns(b) && |a| == |b|
    requires Serialize(t, a) == Serialize(t, b) && |Serialize(t, a)| < 0x1_0000_0000_0000_0000
    ensures a == b
  {
    forall v | 0 <= v < |a| ensures a[v] == b[v] {
      ReadBack(t, a, v);
      ReadBack(t, b, v);
    }
  }
}
