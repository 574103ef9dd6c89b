/** Merging index files run by run, without decoding them (`on_disk_merge`). */
module OnDiskIndexes {
  import opened Core
  import opened Codec
  import opened IndexFormat
  import opened InvertedIndex
  import opened RunWriters
  import opened FlatIndexBuilders

  /** One input of a merge: an open index file, its number of files and its offset table. */
  datatype IndexMergeHelper = IndexMergeHelper(file: Bytes, ntype: IndexType, fileCount: nat, offsets: seq<nat>)
  {
    predicate InOrder() {
      && |offsets| == NUM_TRIGRAMS + 1
      && forall v :: 0 <= v < NUM_TRIGRAMS ==> offsets[v] <= offsets[v + 1]
    }

    /** Where the `count` runs from n-gram `gram` on are in the file. */
    function RunStart(gram: nat): nat
      requires gram < |offsets|
    {
      offsets[gram]
    }

    /** The number of bytes of these runs. */
    function RunSize(gram: nat, count: nat): int {
      if gram + count < |offsets| then offsets[gram + count] as int - offsets[gram] as int else 0
    }

    /** The bytes of the run of n-gram `v`. */
    function Stored(v: nat): Bytes {
      if v + 1 < |offsets| && offsets[v] <= offsets[v + 1] <= |file| then file[offsets[v]..offsets[v + 1]] else []
    }
  }

  /** What an input stands for: the run of every n-gram, over `fileCount` files. */
  datatype Source = Source(runs: seq<Run>, fileCount: nat)
  {
    function RunAt(v: nat): Run {
      if v < |runs| then runs[v] else []
    }
  }

  predicate ValidSource(s: Source) {
    && |s.runs| == NUM_TRIGRAMS && ValidRuns(s.runs)
    && forall v :: 0 <= v < NUM_TRIGRAMS ==> LastOf(-1, s.RunAt(v)) < s.fileCount
  }

  ghost predicate RepresentsParts(h: IndexMergeHelper, s: Source) {
    && ValidSource(s)
    && h.InOrder() && h.offsets[NUM_TRIGRAMS] <= |h.file|
    && (forall v :: 0 <= v < NUM_TRIGRAMS ==> h.Stored(v) == EncodeFrom(-1, s.RunAt(v)))
    && h.fileCount == s.fileCount
  }

  /**
   * The offset table of `h` delimits, for every n-gram, the stored form of its run in `s`. It is stated
   * of everything equal to `s`, so that the parts come into a proof only where it names them.
   */
  ghost predicate Represents(h: IndexMergeHelper, s: Source) {
    forall t {:trigger RepresentsParts(h, t)} :: t == s ==> RepresentsParts(h, t)
  }

  /** The first `n` inputs represent the first `n` sources. */
  ghost predicate AllRepresent(indexes: seq<IndexMergeHelper>, src: seq<Source>, n: nat)
    requires n <= |src| && |indexes| == |src|
  {
    n > 0 ==> AllRepresent(indexes, src, n - 1) && Represents(indexes[n - 1], src[n - 1])
  }

  lemma {:induction false} PickRepresents(indexes: seq<IndexMergeHelper>, src: seq<Source>, n: nat, k: nat)
    requires k < n <= |src| && |indexes| == |src| && AllRepresent(indexes, src, n)
    ensures Represents(indexes[k], src[k])
  {
    if k < n - 1 {
      PickRepresents(indexes, src, n - 1, k);
    }
  }

  // ----- the meaning of a merge -----

  /** The number of files of the first `n` sources. */
  function Total(src: seq<Source>, n: nat): nat
    requires n <= |src|
  {
    if n == 0 then 0 else Total(src, n - 1) + src[n - 1].fileCount
  }

  predicate ValidSources(src: seq<Source>, n: nat)
    requires n <= |src|
  {
    n > 0 ==> ValidSources(src, n - 1) && ValidSource(src[n - 1])
  }

  lemma {:induction false} PickValid(src: seq<Source>, n: nat, k: nat)
    requires k < n <= |src| && ValidSources(src, n)
    ensures ValidSource(src[k]) && ValidSources(src, k)
  {
    if k < n - 1 {
      PickValid(src, n - 1, k);
    }
  }

  /** The runs of n-gram `v` in the first `n` sources, each moved up by the file counts before it. */
  function MergedRun(src: seq<Source>, n: nat, v: nat): seq<int>
    requires n <= |src|
  {
    if n == 0 then [] else MergedRun(src, n - 1, v) + Shift(Total(src, n - 1), src[n - 1].RunAt(v))
  }

  lemma {:induction false} MergedRunIsRun(src: seq<Source>, n: nat, v: nat)
    requires n <= |src| && ValidSources(src, n) && v < NUM_TRIGRAMS
    ensures AscendingFrom(-1, MergedRun(src, n, v))
    ensures LastOf(-1, MergedRun(src, n, v)) < Total(src, n)
  {
    if n > 0 {
      MergedRunIsRun(src, n - 1, v);
      MergedAppend(MergedRun(src, n - 1, v), Total(src, n - 1), src[n - 1], v);
    }
  }

  /** The run of one more source lies above all ids before it. */
  lemma MergedAppend(run: seq<int>, base: nat, s: Source, v: nat)
    requires ValidSource(s) && v < NUM_TRIGRAMS && AscendingFrom(-1, run) && LastOf(-1, run) < base
    ensures var more := Shift(base, s.RunAt(v));
      && AscendingFrom(LastOf(-1, run), more)
      && AscendingFrom(-1, run + more)
      && LastOf(-1, run + more) < base + s.fileCount
  {
    var more := Shift(base, s.RunAt(v));
    EncodeShift(base, -1, s.RunAt(v));
    assert AscendingFrom(LastOf(-1, run), more);
    AscendingSplit(-1, run, more);
  }

  /** The run of every n-gram in the merged index. */
  function Merged(src: seq<Source>): (runs: seq<Run>)
    requires ValidSources(src, |src|) && Total(src, |src|) <= MAX_FILES
    ensures ValidRuns(runs) && MergedRuns(src, runs)
  {
    MergedRunsAreRuns(src);
    seq(NUM_TRIGRAMS, v requires 0 <= v < NUM_TRIGRAMS => MergedRun(src, |src|, v))
  }

  predicate MergedRuns(src: seq<Source>, runs: seq<Run>) {
    && |runs| == NUM_TRIGRAMS
    && forall v :: 0 <= v < NUM_TRIGRAMS ==> runs[v] == MergedRun(src, |src|, v)
  }

  lemma MergedRunsAreRuns(src: seq<Source>)
    requires ValidSources(src, |src|) && Total(src, |src|) <= MAX_FILES
    ensures forall v: nat :: v < NUM_TRIGRAMS ==>
      var run := MergedRun(src, |src|, v);
      AscendingFrom(-1, run) && forall i :: 0 <= i < |run| ==> 0 <= run[i] < MAX_FILES
  {
    forall v: nat | v < NUM_TRIGRAMS
      ensures var run := MergedRun(src, |src|, v);
        AscendingFrom(-1, run) && forall i :: 0 <= i < |run| ==> 0 <= run[i] < MAX_FILES
    {
      MergedRunIsRun(src, |src|, v);
      AscendingBelow(-1, MergedRun(src, |src|, v));
    }
  }

  // ----- batches -----

  /** The bytes that the `count` runs from `gram` on take in the first `n` inputs together. */
  function BytesOf(indexes: seq<IndexMergeHelper>, n: nat, gram: nat, count: nat): int
    requires n <= |indexes|
  {
    if n == 0 then 0 else BytesOf(indexes, n - 1, gram, count) + indexes[n - 1].RunSize(gram, count)
  }

  function BatchBytes(indexes: seq<IndexMergeHelper>, gram: nat, count: nat): int {
    BytesOf(indexes, |indexes|, gram, count)
  }

  predicate Readable(indexes: seq<IndexMergeHelper>) {
    forall k :: 0 <= k < |indexes| ==> indexes[k].InOrder()
  }

  /** `find_max_batch` from the candidate size `i` on. */
  function MaxBatchFrom(indexes: seq<IndexMergeHelper>, gram: nat, maxBytes: nat, i: nat): (r: nat)
    requires Readable(indexes) && gram < NUM_TRIGRAMS && 1 <= i <= NUM_TRIGRAMS - gram
    ensures r <= NUM_TRIGRAMS - gram
    decreases NUM_TRIGRAMS - i
  {
    if gram + i >= NUM_TRIGRAMS then NUM_TRIGRAMS - gram
    else if BatchBytes(indexes, gram, i) > maxBytes then i - 1
    else MaxBatchFrom(indexes, gram, maxBytes, i + 1)
  }

  function MaxBatch(indexes: seq<IndexMergeHelper>, gram: nat, maxBytes: nat): (r: nat)
    requires Readable(indexes) && gram < NUM_TRIGRAMS
    ensures r <= NUM_TRIGRAMS - gram
  {
    MaxBatchFrom(indexes, gram, maxBytes, 1)
  }

  lemma {:induction false} BytesMonotone(indexes: seq<IndexMergeHelper>, n: nat, gram: nat, i: nat)
    requires Readable(indexes) && n <= |indexes| && gram + i < NUM_TRIGRAMS
    ensures BytesOf(indexes, n, gram, i) <= BytesOf(indexes, n, gram, i + 1)
  {
    if n > 0 {
      BytesMonotone(indexes, n - 1, gram, i);
      assert indexes[n - 1].InOrder();
    }
  }

  lemma {:induction false} BatchMonotoneTo(indexes: seq<IndexMergeHelper>, gram: nat, i: nat, j: nat)
    requires Readable(indexes) && i <= j && gram + j <= NUM_TRIGRAMS
    ensures BatchBytes(indexes, gram, i) <= BatchBytes(indexes, gram, j)
    decreases j - i
  {
    if i < j {
      BytesMonotone(indexes, |indexes|, gram, i);
      BatchMonotoneTo(indexes, gram, i + 1, j);
    }
  }

  lemma {:induction false} BytesOfNone(indexes: seq<IndexMergeHelper>, n: nat, gram: nat)
    requires Readable(indexes) && n <= |indexes| && gram < NUM_TRIGRAMS
    ensures BytesOf(indexes, n, gram, 0) == 0
  {
    if n > 0 {
      BytesOfNone(indexes, n - 1, gram);
    }
  }

  /**
   * What `find_max_batch` returns: a batch that ends before the last n-gram fits and is the longest
   * that does; otherwise it is all the rest, and everything but the last n-gram is known to fit.
   */
  lemma {:induction false} MaxBatchExactly(indexes: seq<IndexMergeHelper>, gram: nat, maxBytes: nat, i: nat)
    requires Readable(indexes) && gram < NUM_TRIGRAMS && 1 <= i <= NUM_TRIGRAMS - gram
    requires BatchBytes(indexes, gram, i - 1) <= maxBytes
    ensures var r, rest := MaxBatchFrom(indexes, gram, maxBytes, i), NUM_TRIGRAMS - gram;
      if r < rest then r + 1 < rest && BatchBytes(indexes, gram, r) <= maxBytes < BatchBytes(indexes, gram, r + 1)
      else r == rest && BatchBytes(indexes, gram, rest - 1) <= maxBytes
    decreases NUM_TRIGRAMS - i
  {
    if gram + i < NUM_TRIGRAMS && BatchBytes(indexes, gram, i) <= maxBytes {
      MaxBatchExactly(indexes, gram, maxBytes, i + 1);
    }
  }

  /** The last n-gram is not what makes the runs from `gram` on exceed `maxBytes`. */
  predicate TailFits(indexes: seq<IndexMergeHelper>, gram: nat, maxBytes: nat)
    requires Readable(indexes) && gram < NUM_TRIGRAMS
  {
    var rest := NUM_TRIGRAMS - gram;
    BatchBytes(indexes, gram, rest - 1) <= maxBytes ==> BatchBytes(indexes, gram, rest) <= maxBytes
  }

  /**
   * The chosen batch fits into the buffer if and only if it is not the last n-gram that makes the rest
   * of the file too big: the batch that includes the last n-gram is never measured.
   */
  lemma BatchFitsExactly(indexes: seq<IndexMergeHelper>, gram: nat, maxBytes: nat)
    requires Readable(indexes) && gram < NUM_TRIGRAMS
    ensures BatchBytes(indexes, gram, MaxBatch(indexes, gram, maxBytes)) <= maxBytes
      <==> TailFits(indexes, gram, maxBytes)
  {
    BytesOfNone(indexes, |indexes|, gram);
    MaxBatchExactly(indexes, gram, maxBytes, 1);
    var r, rest := MaxBatch(indexes, gram, maxBytes), NUM_TRIGRAMS - gram;
    if r < rest {
      BatchMonotoneTo(indexes, gram, r + 1, rest - 1);
    }
  }

  /** Every batch the merge reads from `gram` on fits into a buffer of `maxBytes` bytes. */
  predicate BatchesFit(indexes: seq<IndexMergeHelper>, gram: nat, maxBytes: nat)
    requires Readable(indexes) && gram <= NUM_TRIGRAMS
    decreases NUM_TRIGRAMS - gram
  {
    gram < NUM_TRIGRAMS ==>
      var b := MaxBatch(indexes, gram, maxBytes);
      b > 0 ==>
        BatchBytes(indexes, gram, b) <= maxBytes && BatchesFit(indexes, gram + b, maxBytes)
  }

  /** They all do when the last n-gram never tips the balance. */
  lemma {:induction false} BatchesFitIf(indexes: seq<IndexMergeHelper>, gram: nat, maxBytes: nat)
    requires Readable(indexes) && gram <= NUM_TRIGRAMS
    requires forall g: nat :: g < NUM_TRIGRAMS ==> TailFits(indexes, g, maxBytes)
    ensures BatchesFit(indexes, gram, maxBytes)
    decreases NUM_TRIGRAMS - gram
  {
    if gram < NUM_TRIGRAMS {
      BatchFitsExactly(indexes, gram, maxBytes);
      var b := MaxBatch(indexes, gram, maxBytes);
      if b > 0 {
        BatchesFitIf(indexes, gram + b, maxBytes);
      }
    }
  }

  /** Where the batch that contains the last n-gram starts, if the merge gets that far. */
  function LastBatch(indexes: seq<IndexMergeHelper>, gram: nat, maxBytes: nat): (r: Option<nat>)
    requires Readable(indexes) && gram <= NUM_TRIGRAMS
    ensures r.Some? ==> gram <= r.value < NUM_TRIGRAMS
    decreases NUM_TRIGRAMS - gram
  {
    if gram == NUM_TRIGRAMS then None
    else
      var b := MaxBatch(indexes, gram, maxBytes);
      if b == 0 then None
      else if gram + b == NUM_TRIGRAMS then Some(gram)
      else LastBatch(indexes, gram + b, maxBytes)
  }

  /** The batches of a merge fit if and only if the one that contains the last n-gram does. */
  lemma {:induction false} BatchesFitExactly(indexes: seq<IndexMergeHelper>, gram: nat, maxBytes: nat)
    requires Readable(indexes) && gram <= NUM_TRIGRAMS
    ensures BatchesFit(indexes, gram, maxBytes) <==> LastFits(indexes, LastBatch(indexes, gram, maxBytes), maxBytes)
    decreases NUM_TRIGRAMS - gram
  {
    if gram < NUM_TRIGRAMS {
      var b := MaxBatch(indexes, gram, maxBytes);
      OneBatch(indexes, gram, maxBytes, b);
      if 0 < b < NUM_TRIGRAMS - gram {
        BatchesFitExactly(indexes, gram + b, maxBytes);
      }
    }
  }

  /** How one batch relates to the rest of the merge. */
  lemma OneBatch(indexes: seq<IndexMergeHelper>, gram: nat, maxBytes: nat, b: nat)
    requires Readable(indexes) && gram < NUM_TRIGRAMS && b == MaxBatch(indexes, gram, maxBytes)
    ensures b == 0 ==> BatchesFit(indexes, gram, maxBytes) && LastBatch(indexes, gram, maxBytes) == None
    ensures 0 < b < NUM_TRIGRAMS - gram ==>
      && BatchesFit(indexes, gram, maxBytes) == BatchesFit(indexes, gram + b, maxBytes)
      && LastBatch(indexes, gram, maxBytes) == LastBatch(indexes, gram + b, maxBytes)
    ensures 0 < b == NUM_TRIGRAMS - gram ==>
      && BatchesFit(indexes, gram, maxBytes) == (BatchBytes(indexes, gram, b) <= maxBytes)
      && LastBatch(indexes, gram, maxBytes) == Some(gram)
  {
    BeforeLastFits(indexes, gram, maxBytes);
  }

  predicate LastFits(indexes: seq<IndexMergeHelper>, last: Option<nat>, maxBytes: nat)
    requires last.Some? ==> last.value < NUM_TRIGRAMS
  {
    last.None? || BatchBytes(indexes, last.value, NUM_TRIGRAMS - last.value) <= maxBytes
  }

  /** A batch that ends before the last n-gram fits. */
  lemma BeforeLastFits(indexes: seq<IndexMergeHelper>, gram: nat, maxBytes: nat)
    requires Readable(indexes) && gram < NUM_TRIGRAMS
    ensures var b := MaxBatch(indexes, gram, maxBytes);
      b < NUM_TRIGRAMS - gram ==> BatchBytes(indexes, gram, b) <= maxBytes
  {
    BytesOfNone(indexes, |indexes|, gram);
    MaxBatchExactly(indexes, gram, maxBytes, 1);
  }

  method FindMaxBatch(indexes: seq<IndexMergeHelper>, gram: nat, maxBytes: nat) returns (batch: nat)
    requires Readable(indexes) && gram < NUM_TRIGRAMS
    ensures batch == MaxBatch(indexes, gram, maxBytes)
  {
    var i := 1;
    while gram + i < NUM_TRIGRAMS
      invariant 1 <= i <= NUM_TRIGRAMS - gram
      invariant MaxBatch(indexes, gram, maxBytes) == MaxBatchFrom(indexes, gram, maxBytes, i)
      decreases NUM_TRIGRAMS - i
    {
      var batchBytes := 0;
      for k := 0 to |indexes|
        invariant batchBytes == BytesOf(indexes, k, gram, i)
      {
        batchBytes := batchBytes + indexes[k].RunSize(gram, i);
      }
      if batchBytes > maxBytes {
        return i - 1;
      }
      i := i + 1;
    }
    return NUM_TRIGRAMS - gram;
  }

  lemma {:induction false} BytesSplit(indexes: seq<IndexMergeHelper>, n: nat, gram: nat, i: nat, j: nat)
    requires Readable(indexes) && n <= |indexes| && gram + i + j <= NUM_TRIGRAMS
    ensures BytesOf(indexes, n, gram, i + j) == BytesOf(indexes, n, gram, i) + BytesOf(indexes, n, gram + i, j)
  {
    if n > 0 {
      BytesSplit(indexes, n - 1, gram, i, j);
    }
  }

  /** One n-gram of a batch takes no more than the batch. */
  lemma BatchPart(indexes: seq<IndexMergeHelper>, gram: nat, r: nat, g: nat)
    requires Readable(indexes) && gram <= g < gram + r <= NUM_TRIGRAMS
    ensures BatchBytes(indexes, g, 1) <= BatchBytes(indexes, gram, r)
  {
    BytesSplit(indexes, |indexes|, gram, g - gram, 1);
    BytesOfNone(indexes, |indexes|, gram);
    BatchMonotoneTo(indexes, gram, 0, g - gram);
    BatchMonotoneTo(indexes, gram, g - gram + 1, r);
  }

  /** If no file has the last n-gram, every batch of every merge fits. */
  lemma BatchesFitWithoutLast(indexes: seq<IndexMergeHelper>, maxBytes: nat)
    requires Readable(indexes) && BatchBytes(indexes, NUM_TRIGRAMS - 1, 1) == 0
    ensures BatchesFit(indexes, 0, maxBytes)
  {
    forall g: nat | g < NUM_TRIGRAMS ensures TailFits(indexes, g, maxBytes) {
      BytesSplit(indexes, |indexes|, g, NUM_TRIGRAMS - g - 1, 1);
    }
    BatchesFitIf(indexes, 0, maxBytes);
  }

  lemma {:induction false} RepresentValid(indexes: seq<IndexMergeHelper>, src: seq<Source>, n: nat)
    requires n <= |src| && |indexes| == |src| && AllRepresent(indexes, src, n)
    ensures ValidSources(src, n)
  {
    if n > 0 {
      RepresentValid(indexes, src, n - 1);
      assert RepresentsParts(indexes[n - 1], src[n - 1]);
    }
  }

  lemma RepresentReadable(indexes: seq<IndexMergeHelper>, src: seq<Source>)
    requires |indexes| == |src| && AllRepresent(indexes, src, |src|)
    ensures Readable(indexes)
  {
    forall k | 0 <= k < |indexes| ensures indexes[k].InOrder() {
      PickRepresents(indexes, src, |src|, k);
      assert RepresentsParts(indexes[k], src[k]);
    }
  }

  /** Opening a stored index file gives an input that represents what was stored. */
  lemma SerializedRepresents(h: IndexMergeHelper, s: Source)
    requires ValidSource(s) && h.file == Serialize(h.ntype, s.runs) && h.offsets == Starts(s.runs)
    requires h.fileCount == s.fileCount
    ensures Represents(h, s)
  {
    StartMonotone(s.runs, NUM_TRIGRAMS, NUM_TRIGRAMS);
    forall v | 0 <= v < NUM_TRIGRAMS
      ensures h.offsets[v] <= h.offsets[v + 1] && h.Stored(v) == EncodeFrom(-1, s.RunAt(v))
    {
      RunBytes(h.ntype, s.runs, v);
    }
    assert RepresentsParts(h, s);
  }

  // ----- an oversized last batch -----

  /** The ids from `k` on, below `n`. */
  function IdsFrom(k: nat, n: nat): (r: Run)
    requires k <= n <= MAX_FILES
    ensures AscendingFrom(k - 1, r) && (forall x :: x in r <==> k <= x < n)
    ensures |EncodeFrom(k - 1, r)| == n - k && (k < n ==> LastOf(k - 1, r) == n - 1)
    decreases n - k
  {
    if k == n then []
    else
      var rest := IdsFrom(k + 1, n);
      EncodeCons(k - 1, k, rest);
      [k] + rest
  }

  function LastOnlyRun(files: nat, v: nat): (r: Run)
    requires 0 < files <= MAX_FILES
    ensures AscendingFrom(-1, r) && LastOf(-1, r) < files
  {
    if v == NUM_TRIGRAMS - 1 then IdsFrom(0, files) else []
  }

  /** As many files, each of which contains the last n-gram and no other. */
  function LastOnly(files: nat): (s: Source)
    requires 0 < files <= MAX_FILES
    ensures ValidSource(s)
  {
    var runs: seq<Run> := seq(NUM_TRIGRAMS, v requires 0 <= v => LastOnlyRun(files, v));
    Source(runs, files)
  }

  function LastOnlyHelper(files: nat): IndexMergeHelper
    requires 0 < files <= MAX_FILES
  {
    IndexMergeHelper(Serialize(GRAM3, LastOnly(files).runs), GRAM3, files, Starts(LastOnly(files).runs))
  }

  lemma LastOnlySizes(files: nat)
    requires 0 < files <= MAX_FILES
    ensures Represents(LastOnlyHelper(files), LastOnly(files))
    ensures LastOnlyHelper(files).RunSize(0, NUM_TRIGRAMS - 1) == 0
    ensures LastOnlyHelper(files).RunSize(0, NUM_TRIGRAMS) == files
  {
    var runs, n := LastOnly(files).runs, NUM_TRIGRAMS - 1;
    SerializedRepresents(LastOnlyHelper(files), LastOnly(files));
    EncodeAllEmpty(runs, 0, n);
    EncodeAllExtend(runs, n);
    assert EncodeRun(runs[n]) == EncodeFrom(-1, IdsFrom(0, files));
  }

  /**
   * Whatever the size of the buffer, merging two such datasets of more than half as many files each
   * reads a last batch that does not fit.
   */
  lemma OversizedLastBatch(files: nat, maxBytes: nat)
    requires maxBytes < 2 * files < MAX_FILES
    ensures var h, s := LastOnlyHelper(files), LastOnly(files);
      && AllRepresent([h, h], [s, s], 2) && Readable([h, h]) && Total([s, s], 2) < MAX_FILES
      && MaxBatch([h, h], 0, maxBytes) == NUM_TRIGRAMS && BatchBytes([h, h], 0, NUM_TRIGRAMS) == 2 * files
      && !BatchesFit([h, h], 0, maxBytes)
  {
    var h, s := LastOnlyHelper(files), LastOnly(files);
    LastOnlySizes(files);
    TwoRepresent(h, s);
    RepresentReadable([h, h], [s, s]);
    LastIsOversized(h, maxBytes);
  }

  lemma TwoRepresent(h: IndexMergeHelper, s: Source)
    requires Represents(h, s)
    ensures AllRepresent([h, h], [s, s], 2) && Total([s, s], 2) == 2 * s.fileCount
  {
    var indexes, src := [h, h], [s, s];
    assert AllRepresent(indexes, src, 0) && AllRepresent(indexes, src, 1);
    assert Total(src, 1) == s.fileCount;
  }

  lemma LastIsOversized(h: IndexMergeHelper, maxBytes: nat)
    requires Readable([h, h]) && h.RunSize(0, NUM_TRIGRAMS - 1) == 0 && 2 * h.RunSize(0, NUM_TRIGRAMS) > maxBytes
    ensures MaxBatch([h, h], 0, maxBytes) == NUM_TRIGRAMS && !BatchesFit([h, h], 0, maxBytes)
    ensures BatchBytes([h, h], 0, NUM_TRIGRAMS) == 2 * h.RunSize(0, NUM_TRIGRAMS)
  {
    TwiceBytes(h, NUM_TRIGRAMS - 1);
    TwiceBytes(h, NUM_TRIGRAMS);
    BytesOfNone([h, h], 2, 0);
    MaxBatchExactly([h, h], 0, maxBytes, 1);
    var r := MaxBatch([h, h], 0, maxBytes);
    if r < NUM_TRIGRAMS {
      BatchMonotoneTo([h, h], 0, r + 1, NUM_TRIGRAMS - 1);
    }
  }

  lemma TwiceBytes(h: IndexMergeHelper, count: nat)
    ensures BatchBytes([h, h], 0, count) == 2 * h.RunSize(0, count)
  {
    assert BytesOf([h, h], 1, 0, count) == BytesOf([h, h], 0, 0, count) + h.RunSize(0, count);
  }

  // ----- one batch in memory -----

  /** Where input `k` starts in the buffer, when `batch` runs of each input are read. */
  ghost predicate Loaded(buf: Bytes, indexes: seq<IndexMergeHelper>, n: nat, gram: nat, batch: nat)
    requires n <= |indexes|
  {
    n > 0 ==>
      && Loaded(buf, indexes, n - 1, gram, batch)
      && LoadedAt(buf, BytesOf(indexes, n - 1, gram, batch), indexes[n - 1], gram, batch)
  }

  lemma {:induction false} PickLoaded(buf: Bytes, indexes: seq<IndexMergeHelper>, n: nat, gram: nat, batch: nat, k: nat)
    requires k < n <= |indexes| && Loaded(buf, indexes, n, gram, batch)
    ensures LoadedAt(buf, BytesOf(indexes, k, gram, batch), indexes[k], gram, batch)
  {
    if k < n - 1 {
      PickLoaded(buf, indexes, n - 1, gram, batch, k);
    }
  }

  /** The runs of one input are in the buffer from `at` on. */
  ghost predicate LoadedAt(buf: Bytes, at: int, h: IndexMergeHelper, gram: nat, batch: nat) {
    gram + batch < |h.offsets| &&
    var from, to := h.offsets[gram], h.offsets[gram + batch];
    && 0 <= at <= at + to - from <= |buf|
    && from <= to <= |h.file|
    && buf[at..at + to - from] == h.file[from..to]
  }

  /** `pread`: copies bytes of a file into the buffer. */
  method Pread(file: Bytes, buf: array<byte>, at: nat, size: nat, offset: nat)
    requires at + size <= buf.Length && offset + size <= |file|
    modifies buf
    ensures buf[..] == old(buf[..at]) + file[offset..offset + size] + old(buf[at + size..])
  {
    for i := 0 to size
      invariant buf[..] == old(buf[..at]) + file[offset..offset + i] + old(buf[at + i..])
    {
      assert file[offset..offset + i + 1] == file[offset..offset + i] + [file[offset + i]];
      buf[at + i] := file[offset + i];
    }
  }

  lemma {:induction false} BytesBelow(indexes: seq<IndexMergeHelper>, gram: nat, batch: nat, j: nat, k: nat)
    requires Readable(indexes) && gram + batch <= NUM_TRIGRAMS && j <= k <= |indexes|
    ensures 0 <= BytesOf(indexes, j, gram, batch) <= BytesOf(indexes, k, gram, batch)
  {
    if k > 0 {
      assert indexes[k - 1].InOrder();
      OffsetsMonotone(indexes[k - 1].offsets, gram, gram + batch);
      BytesBelow(indexes, gram, batch, if j < k then j else k - 1, k - 1);
    }
  }

  lemma {:induction false} OffsetsMonotone(offsets: seq<nat>, v: nat, w: nat)
    requires v <= w < |offsets| && forall u :: 0 <= u < |offsets| - 1 ==> offsets[u] <= offsets[u + 1]
    ensures offsets[v] <= offsets[w]
    decreases w - v
  {
    if v < w {
      OffsetsMonotone(offsets, v, w - 1);
    }
  }

  /** What `Pread` leaves in the buffer: the bytes it read, and all others as they were. */
  lemma Spliced(before: Bytes, after: Bytes, at: nat, h: IndexMergeHelper, gram: nat, batch: nat)
    requires gram + batch < |h.offsets| && h.offsets[gram] <= h.offsets[gram + batch] <= |h.file|
    requires at + h.RunSize(gram, batch) <= |before|
    requires after == before[..at] + h.file[h.offsets[gram]..h.offsets[gram + batch]] + before[at + h.RunSize(gram, batch)..]
    ensures |after| == |before| && after[..at] == before[..at] && LoadedAt(after, at, h, gram, batch)
  {
    var size := h.RunSize(gram, batch);
    assert after[at..at + size] == h.file[h.offsets[gram]..h.offsets[gram + batch]];
  }

  lemma {:induction false} StillLoaded(before: Bytes, after: Bytes, indexes: seq<IndexMergeHelper>, n: nat, k: nat,
      gram: nat, batch: nat, at: nat)
    requires Readable(indexes) && n <= k <= |indexes| && gram + batch <= NUM_TRIGRAMS
    requires Loaded(before, indexes, n, gram, batch) && at == BytesOf(indexes, k, gram, batch)
    requires at <= |before| == |after| && after[..at] == before[..at]
    ensures Loaded(after, indexes, n, gram, batch)
  {
    if n > 0 {
      StillLoaded(before, after, indexes, n - 1, k, gram, batch, at);
      BytesBelow(indexes, gram, batch, n - 1, n);
      BytesBelow(indexes, gram, batch, n, k);
      LoadKeep(before, after, at, BytesOf(indexes, n - 1, gram, batch), indexes[n - 1], gram, batch);
    }
  }

  /** What lies below the bytes just read stays in the buffer. */
  lemma LoadKeep(before: Bytes, after: Bytes, at: nat, start: nat, h: IndexMergeHelper, gram: nat, batch: nat)
    requires at <= |before| == |after| && after[..at] == before[..at]
    requires gram + batch < |h.offsets| && LoadedAt(before, start, h, gram, batch)
    requires start + h.RunSize(gram, batch) <= at
    ensures LoadedAt(after, start, h, gram, batch)
  {
    var end := start + h.RunSize(gram, batch);
    assert after[start..end] == after[..at][start..end] == before[..at][start..end] == before[start..end];
  }

  /** The runs of a batch lie inside the files. */
  predicate InFiles(indexes: seq<IndexMergeHelper>, gram: nat, batch: nat)
    requires Readable(indexes) && gram + batch <= NUM_TRIGRAMS
  {
    forall k :: 0 <= k < |indexes| ==>
      indexes[k].offsets[gram] <= indexes[k].offsets[gram + batch] <= |indexes[k].file|
  }

  /** Reads the runs of one batch of n-grams from all inputs, one input after the other. */
  method ReadBatch(indexes: seq<IndexMergeHelper>, gram: nat, batch: nat, buf: array<byte>)
    requires Readable(indexes) && gram + batch <= NUM_TRIGRAMS && InFiles(indexes, gram, batch)
    requires BatchBytes(indexes, gram, batch) <= buf.Length
    modifies buf
    ensures Loaded(buf[..], indexes, |indexes|, gram, batch)
  {
    var at: nat := 0;
    for k := 0 to |indexes|
      invariant at == BytesOf(indexes, k, gram, batch)
      invariant Loaded(buf[..], indexes, k, gram, batch)
    {
      at := ReadOne(indexes, k, gram, batch, buf, at);
    }
  }

  method ReadOne(indexes: seq<IndexMergeHelper>, k: nat, gram: nat, batch: nat, buf: array<byte>, at: nat)
    returns (at': nat)
    requires Readable(indexes) && gram + batch <= NUM_TRIGRAMS && InFiles(indexes, gram, batch)
    requires k < |indexes| && BatchBytes(indexes, gram, batch) <= buf.Length
    requires at == BytesOf(indexes, k, gram, batch) && Loaded(buf[..], indexes, k, gram, batch)
    modifies buf
    ensures at' == BytesOf(indexes, k + 1, gram, batch) && Loaded(buf[..], indexes, k + 1, gram, batch)
  {
    BytesBelow(indexes, gram, batch, k, k + 1);
    BytesBelow(indexes, gram, batch, k + 1, |indexes|);
    ghost var before := buf[..];
    at' := ReadRuns(indexes[k], gram, batch, buf, at);
    StillLoaded(before, buf[..], indexes, k, k, gram, batch, at);
  }

  /** Reads the runs of one input to the place `at` of the buffer. */
  method ReadRuns(h: IndexMergeHelper, gram: nat, batch: nat, buf: array<byte>, at: nat) returns (at': nat)
    requires gram + batch < |h.offsets| && h.offsets[gram] <= h.offsets[gram + batch] <= |h.file|
    requires at + h.RunSize(gram, batch) <= buf.Length
    modifies buf
    ensures at' == at + h.RunSize(gram, batch)
    ensures buf[..at] == old(buf[..at]) && LoadedAt(buf[..], at, h, gram, batch)
  {
    var size: nat := h.RunSize(gram, batch);
    ghost var before := buf[..];
    Pread(h.file, buf, at, size, h.RunStart(gram));
    Spliced(before, buf[..], at, h, gram, batch);
    at' := at + size;
  }

  /** The offsets of the inputs lie inside their files. */
  lemma RunsInFiles(indexes: seq<IndexMergeHelper>, src: seq<Source>, gram: nat, batch: nat)
    requires |indexes| == |src| && AllRepresent(indexes, src, |src|)
    requires Readable(indexes) && gram + batch <= NUM_TRIGRAMS
    ensures InFiles(indexes, gram, batch)
  {
    forall k | 0 <= k < |indexes|
      ensures indexes[k].offsets[gram] <= indexes[k].offsets[gram + batch] <= |indexes[k].file|
    {
      PickRepresents(indexes, src, |src|, k);
      assert RepresentsParts(indexes[k], src[k]);
      OffsetsMonotone(indexes[k].offsets, gram, gram + batch);
      OffsetsMonotone(indexes[k].offsets, gram + batch, NUM_TRIGRAMS);
    }
  }

  predicate Holds(buf: Bytes, start: int, end: int, bytes: Bytes) {
    0 <= start <= end <= |buf| && buf[start..end] == bytes
  }

  /** The bytes of one run, in the buffer. */
  lemma StoredInBuffer(buf: Bytes, at: int, h: IndexMergeHelper, gram: nat, batch: nat, i: nat, stored: Bytes)
    requires h.InOrder() && i < batch && gram + batch <= NUM_TRIGRAMS
    requires LoadedAt(buf, at, h, gram, batch) && h.Stored(gram + i) == stored
    ensures 0 <= h.RunSize(gram, batch)
    ensures var start, end := at + h.RunSize(gram, i), at + h.RunSize(gram, i + 1);
      Holds(buf, start, end, stored)
  {
    OffsetsMonotone(h.offsets, gram, gram + i);
    OffsetsMonotone(h.offsets, gram + i + 1, gram + batch);
    InBuffer(buf, h.file, at, h.offsets[gram], h.offsets[gram + i], h.offsets[gram + i + 1], h.offsets[gram + batch]);
  }

  lemma InBuffer(buf: Bytes, file: Bytes, at: nat, a: nat, b: nat, c: nat, d: nat)
    requires a <= b <= c <= d <= |file| && at + d - a <= |buf| && buf[at..at + d - a] == file[a..d]
    ensures buf[at + b - a..at + c - a] == file[b..c]
  {
    SubSlice(file, a, b, c, d);
    SubSlice(buf, at, at + b - a, at + c - a, at + d - a);
  }

  // ----- the merge -----

  /** The writer has written the run `run` after `before`; as with `Represents`, of all equals. */
  ghost predicate Wrote(run: seq<int>, before: Bytes, written: Bytes, outBytes: nat, prev: int) {
    forall r {:trigger WroteParts(r, before, written, outBytes, prev)} :: r == run ==>
      WroteParts(r, before, written, outBytes, prev)
  }

  ghost predicate WroteParts(run: seq<int>, before: Bytes, written: Bytes, outBytes: nat, prev: int) {
    && AscendingFrom(-1, run)
    && written == before + EncodeFrom(-1, run)
    && outBytes == |EncodeFrom(-1, run)|
    && prev == LastOf(-1, run)
  }

  lemma WroteMore(run: seq<int>, more: seq<int>, before: Bytes, written: Bytes, outBytes: nat)
    requires Wrote(run, before, written, outBytes, LastOf(-1, run)) && AscendingFrom(LastOf(-1, run), more)
    ensures var bytes := EncodeFrom(LastOf(-1, run), more);
      Wrote(run + more, before, written + bytes, outBytes + |bytes|, LastOf(LastOf(-1, run), more))
  {
    assert WroteParts(run, before, written, outBytes, LastOf(-1, run));
    EncodeAppend(-1, run, more);
    Assoc(before, EncodeFrom(-1, run), EncodeFrom(LastOf(-1, run), more));
    var bytes := EncodeFrom(LastOf(-1, run), more);
    assert WroteParts(run + more, before, written + bytes, outBytes + |bytes|, LastOf(LastOf(-1, run), more));
  }

  lemma {:induction false} TotalBelow(src: seq<Source>, j: nat, k: nat)
    requires j <= k <= |src|
    ensures Total(src, j) <= Total(src, k)
    decreases k
  {
    if j < k {
      TotalBelow(src, j, k - 1);
    }
  }

  /** The ids of a run, moved up, can be written behind another run without decoding them. */
  lemma RawOk(run: seq<int>, more: Run, base: nat)
    requires AscendingFrom(-1, run) && AscendingFrom(-1, more)
    requires LastOf(-1, run) < base && base + LastOf(-1, more) < MAX_FILES
    ensures Canonical(EncodeRun(more)) && DecodeRun(EncodeRun(more)) == more && -1 <= LastOf(-1, run)
    ensures forall id :: id in more ==> LastOf(-1, run) < base + id < MAX_FILES
  {
    DecodeEncode(more);
    AscendingBelow(-1, run);
    AscendingBelow(-1, more);
  }

  /** Appends the ids of one input, whose run is `bytes`, to the merged run of an n-gram. */
  method AppendRun(writer: PosixRunWriter, bytes: Bytes, baseFiles: nat, ghost run: seq<int>, ghost more: Run,
      ghost before: Bytes)
    requires AscendingFrom(-1, more) && bytes == EncodeRun(more)
    requires LastOf(-1, run) < baseFiles && baseFiles + LastOf(-1, more) < MAX_FILES && baseFiles < MAX_FILES
    requires Wrote(run, before, writer.Written(), writer.outBytes, writer.prev)
    modifies writer, writer.fd
    ensures Wrote(run + Shift(baseFiles, more), before, writer.Written(), writer.outBytes, writer.prev)
  {
    assert WroteParts(run, before, writer.Written(), writer.outBytes, writer.prev);
    RawOk(run, more, baseFiles);
    ghost var written, outBytes := writer.Written(), writer.outBytes;
    writer.WriteRaw(baseFiles, bytes);
    WroteMore(run, Shift(baseFiles, more), before, written, outBytes);
  }

  /** The state of the loop over the inputs before input `k`. */
  ghost predicate MergedUpTo(indexes: seq<IndexMergeHelper>, src: seq<Source>, k: nat, gram: nat, batch: nat, v: nat,
      baseBytes: int, baseFiles: int, before: Bytes, written: Bytes, outBytes: nat, prev: int)
    requires k <= |src| == |indexes|
  {
    && baseBytes == BytesOf(indexes, k, gram, batch)
    && baseFiles == Total(src, k)
    && Wrote(MergedRun(src, k, v), before, written, outBytes, prev)
  }

  /** What input `k` stores for an n-gram is the run of source `k`. */
  lemma InputRun(indexes: seq<IndexMergeHelper>, src: seq<Source>, k: nat, v: nat)
    requires |indexes| == |src| && AllRepresent(indexes, src, |src|) && k < |src| && v < NUM_TRIGRAMS
    ensures AscendingFrom(-1, src[k].RunAt(v)) && indexes[k].Stored(v) == EncodeFrom(-1, src[k].RunAt(v))
    ensures indexes[k].InOrder() && indexes[k].fileCount == src[k].fileCount
  {
    PickRepresents(indexes, src, |src|, k);
    assert RepresentsParts(indexes[k], src[k]);
  }

  /** The ids of source `k`, moved up, lie between those of the sources before it and the total. */
  lemma RoomForRun(indexes: seq<IndexMergeHelper>, src: seq<Source>, k: nat, v: nat)
    requires |indexes| == |src| && AllRepresent(indexes, src, |src|) && k < |src| && v < NUM_TRIGRAMS
    ensures LastOf(-1, src[k].RunAt(v)) < src[k].fileCount
    ensures Total(src, k) + src[k].fileCount <= Total(src, |src|)
    ensures LastOf(-1, MergedRun(src, k, v)) < Total(src, k)
  {
    RepresentValid(indexes, src, |src|);
    LastInSource(src, k, v);
    TotalBelow(src, k + 1, |src|);
  }

  lemma LastInSource(src: seq<Source>, k: nat, v: nat)
    requires ValidSources(src, |src|) && k < |src| && v < NUM_TRIGRAMS
    ensures LastOf(-1, src[k].RunAt(v)) < src[k].fileCount
    ensures LastOf(-1, MergedRun(src, k, v)) < Total(src, k)
  {
    PickValid(src, |src|, k);
    MergedRunIsRun(src, k, v);
  }

  lemma LoadedRun(buf: Bytes, indexes: seq<IndexMergeHelper>, k: nat, gram: nat, batch: nat, i: nat, stored: Bytes)
    requires k < |indexes| && indexes[k].InOrder() && i < batch && gram + batch <= NUM_TRIGRAMS
    requires Loaded(buf, indexes, |indexes|, gram, batch) && indexes[k].Stored(gram + i) == stored
    ensures 0 <= indexes[k].RunSize(gram, batch)
    ensures var baseBytes := BytesOf(indexes, k, gram, batch);
      Holds(buf, baseBytes + indexes[k].RunSize(gram, i), baseBytes + indexes[k].RunSize(gram, i + 1), stored)
  {
    PickLoaded(buf, indexes, |indexes|, gram, batch, k);
    StoredInBuffer(buf, BytesOf(indexes, k, gram, batch), indexes[k], gram, batch, i, stored);
  }

  /** The run of input `k` for n-gram `gram + i`, as it is in the buffer. */
  method RunOf(indexes: seq<IndexMergeHelper>, buf: array<byte>, baseBytes: nat, k: nat, gram: nat, batch: nat, i: nat,
      ghost src: seq<Source>)
    returns (bytes: Bytes)
    requires |indexes| == |src| && AllRepresent(indexes, src, |src|)
    requires k < |src| && i < batch && gram + batch <= NUM_TRIGRAMS
    requires Loaded(buf[..], indexes, |indexes|, gram, batch) && baseBytes == BytesOf(indexes, k, gram, batch)
    ensures AscendingFrom(-1, src[k].RunAt(gram + i)) && bytes == EncodeRun(src[k].RunAt(gram + i))
    ensures 0 <= indexes[k].RunSize(gram, batch) && indexes[k].fileCount == src[k].fileCount
  {
    var h := indexes[k];
    InputRun(indexes, src, k, gram + i);
    LoadedRun(buf[..], indexes, k, gram, batch, i, EncodeFrom(-1, src[k].RunAt(gram + i)));
    var runStart, runEnd := baseBytes + h.RunSize(gram, i), baseBytes + h.RunSize(gram, i + 1);
    bytes := buf[runStart..runEnd];
  }

  /** Appends the run of input `k` to the merged run of n-gram `gram + i`. */
  method MergeNext(indexes: seq<IndexMergeHelper>, buf: array<byte>, baseBytes: nat, baseFiles: nat, k: nat,
      gram: nat, batch: nat, i: nat, writer: PosixRunWriter, ghost src: seq<Source>, ghost before: Bytes)
    returns (baseBytes': nat, baseFiles': nat)
    requires |indexes| == |src| && AllRepresent(indexes, src, |src|) && Total(src, |src|) < MAX_FILES
    requires k < |src| && i < batch && gram + batch <= NUM_TRIGRAMS
    requires Loaded(buf[..], indexes, |indexes|, gram, batch)
    requires MergedUpTo(indexes, src, k, gram, batch, gram + i, baseBytes, baseFiles, before,
               writer.Written(), writer.outBytes, writer.prev)
    modifies writer, writer.fd
    ensures MergedUpTo(indexes, src, k + 1, gram, batch, gram + i, baseBytes', baseFiles', before,
              writer.Written(), writer.outBytes, writer.prev)
  {
    var bytes := RunOf(indexes, buf, baseBytes, k, gram, batch, i, src);
    RoomForRun(indexes, src, k, gram + i);
    AppendRun(writer, bytes, baseFiles, MergedRun(src, k, gram + i), src[k].RunAt(gram + i), before);
    baseBytes' := baseBytes + indexes[k].RunSize(gram, batch);
    baseFiles' := baseFiles + indexes[k].fileCount;
  }

  /** Writes the merged run of n-gram `gram + i` from the buffer. */
  method MergeGram(indexes: seq<IndexMergeHelper>, buf: array<byte>, gram: nat, batch: nat, i: nat,
      writer: PosixRunWriter, ghost src: seq<Source>)
    requires |indexes| == |src| && AllRepresent(indexes, src, |src|) && Total(src, |src|) < MAX_FILES
    requires i < batch && gram + batch <= NUM_TRIGRAMS && Loaded(buf[..], indexes, |indexes|, gram, batch)
    requires writer.outBytes == 0 && writer.prev == -1
    modifies writer, writer.fd
    ensures Wrote(MergedRun(src, |src|, gram + i), old(writer.Written()), writer.Written(), writer.outBytes, writer.prev)
  {
    var baseBytes: nat, baseFiles: nat := 0, 0;
    ghost var before, bytes := writer.Written(), buf[..];
    assert WroteParts([], before, before, 0, -1);
    for k := 0 to |indexes|
      invariant buf[..] == bytes
      invariant MergedUpTo(indexes, src, k, gram, batch, gram + i, baseBytes, baseFiles, before,
                  writer.Written(), writer.outBytes, writer.prev)
    {
      baseBytes, baseFiles := MergeNext(indexes, buf, baseBytes, baseFiles, k, gram, batch, i, writer, src, before);
    }
  }

  /** The output up to n-gram `gram`, in the state between two batches. */
  ghost predicate BatchesDone(runs: seq<Run>, gram: nat, header: Bytes, written: Bytes, outOffset: nat, offsets: seq<nat>) {
    forall w {:trigger DoneParts(runs, gram, header, w, outOffset, offsets)} :: w == written ==>
      DoneParts(runs, gram, header, w, outOffset, offsets)
  }

  ghost predicate DoneParts(runs: seq<Run>, gram: nat, header: Bytes, written: Bytes, outOffset: nat, offsets: seq<nat>) {
    && SavedUpTo(header, runs, gram, written, outOffset)
    && |offsets| == |runs| + 1
    && forall v :: 0 <= v < gram ==> offsets[v] == Start(runs, v)
  }

  /** Writing one more merged run brings the output one n-gram further. */
  lemma GramDone(runs: seq<Run>, v: nat, header: Bytes, written: Bytes, outOffset: nat, offsets: seq<nat>,
      written': Bytes, outBytes: nat, prev: int)
    requires BatchesDone(runs, v, header, written, outOffset, offsets) && v < |runs| == |offsets| - 1
    requires Wrote(runs[v], written, written', outBytes, prev)
    ensures BatchesDone(runs, v + 1, header, written', outOffset + outBytes, offsets[v := outOffset])
  {
    assert DoneParts(runs, v, header, written, outOffset, offsets) && WroteParts(runs[v], written, written', outBytes, prev);
    SaveOne(header, runs, v, written, outOffset);
    assert DoneParts(runs, v + 1, header, written', outOffset + outBytes, offsets[v := outOffset]);
  }

  /** Writes the run of the next n-gram of a batch, and its entry of the offset table. */
  method MergeStep(indexes: seq<IndexMergeHelper>, buf: array<byte>, gram: nat, batch: nat, i: nat, outOffset: nat,
      offsets: array<nat>, writer: PosixRunWriter, ghost src: seq<Source>, ghost runs: seq<Run>, ghost header: Bytes)
    returns (outOffset': nat)
    requires |indexes| == |src| && AllRepresent(indexes, src, |src|) && Total(src, |src|) < MAX_FILES
    requires gram + batch <= NUM_TRIGRAMS && i < batch && Loaded(buf[..], indexes, |indexes|, gram, batch)
    requires gram + i < |runs| && runs[gram + i] == MergedRun(src, |src|, gram + i)
    requires writer.outBytes == 0 && writer.prev == -1
    requires BatchesDone(runs, gram + i, header, writer.Written(), outOffset, offsets[..])
    modifies writer, writer.fd, offsets
    ensures writer.outBytes == 0 && writer.prev == -1
    ensures BatchesDone(runs, gram + i + 1, header, writer.Written(), outOffset', offsets[..])
  {
    ghost var written, table := writer.Written(), offsets[..];
    assert DoneParts(runs, gram + i, header, written, outOffset, table);
    offsets[gram + i] := outOffset;
    MergeGram(indexes, buf, gram, batch, i, writer, src);
    GramDone(runs, gram + i, header, written, outOffset, table, writer.Written(), writer.outBytes, writer.prev);
    outOffset' := outOffset + writer.outBytes;
    writer.Reset();
  }

  /** Writes the runs of one batch, n-gram by n-gram. */
  method MergeBatch(indexes: seq<IndexMergeHelper>, buf: array<byte>, gram: nat, batch: nat, outOffset: nat,
      offsets: array<nat>, writer: PosixRunWriter, ghost src: seq<Source>, ghost runs: seq<Run>, ghost header: Bytes)
    returns (outOffset': nat)
    requires |indexes| == |src| && AllRepresent(indexes, src, |src|) && Total(src, |src|) < MAX_FILES
    requires MergedRuns(src, runs)
    requires gram + batch <= NUM_TRIGRAMS && Loaded(buf[..], indexes, |indexes|, gram, batch)
    requires writer.outBytes == 0 && writer.prev == -1
    requires BatchesDone(runs, gram, header, writer.Written(), outOffset, offsets[..])
    modifies writer, writer.fd, offsets
    ensures writer.outBytes == 0 && writer.prev == -1
    ensures BatchesDone(runs, gram + batch, header, writer.Written(), outOffset', offsets[..])
  {
    outOffset' := outOffset;
    for i := 0 to batch
      invariant buf[..] == old(buf[..]) && writer.outBytes == 0 && writer.prev == -1
      invariant BatchesDone(runs, gram + i, header, writer.Written(), outOffset', offsets[..])
    {
      outOffset' := MergeStep(indexes, buf, gram, batch, i, outOffset', offsets, writer, src, runs, header);
    }
  }

  /** The merge finds a non-empty batch at every n-gram from `gram` on where it looks for one. */
  predicate Completes(indexes: seq<IndexMergeHelper>, gram: nat, maxBytes: nat)
    requires Readable(indexes) && gram <= NUM_TRIGRAMS
    decreases NUM_TRIGRAMS - gram
  {
    gram < NUM_TRIGRAMS ==>
      var b := MaxBatch(indexes, gram, maxBytes);
      b > 0 && Completes(indexes, gram + b, maxBytes)
  }

  /** It does if and only if the runs of each n-gram but the last fit into the buffer by themselves. */
  lemma {:induction false} CompletesExactly(indexes: seq<IndexMergeHelper>, gram: nat, maxBytes: nat)
    requires Readable(indexes) && gram <= NUM_TRIGRAMS && BatchesFit(indexes, gram, maxBytes)
    ensures Completes(indexes, gram, maxBytes)
      <==> forall g :: gram <= g < NUM_TRIGRAMS - 1 ==> BatchBytes(indexes, g, 1) <= maxBytes
    decreases NUM_TRIGRAMS - gram
  {
    if gram < NUM_TRIGRAMS {
      var b := MaxBatch(indexes, gram, maxBytes);
      BytesOfNone(indexes, |indexes|, gram);
      MaxBatchExactly(indexes, gram, maxBytes, 1);
      if b > 0 {
        CompletesExactly(indexes, gram + b, maxBytes);
        forall g | gram <= g < gram + b ensures BatchBytes(indexes, g, 1) <= maxBytes {
          BatchPart(indexes, gram, b, g);
        }
      }
    }
  }

  ghost predicate MergingParts(indexes: seq<IndexMergeHelper>, src: seq<Source>, runs: seq<Run>) {
    && |indexes| == |src| && AllRepresent(indexes, src, |src|) && Total(src, |src|) < MAX_FILES
    && MergedRuns(src, runs)
  }

  /** The inputs represent the sources, whose merged runs are `runs`; as with `Represents`, of all equals. */
  ghost predicate Merging(indexes: seq<IndexMergeHelper>, src: seq<Source>, runs: seq<Run>) {
    forall r {:trigger MergingParts(indexes, src, r)} :: r == runs ==> MergingParts(indexes, src, r)
  }

  /** Reads one batch and writes its merged runs. */
  method MergeOneBatch(indexes: seq<IndexMergeHelper>, buf: array<byte>, gram: nat, batch: nat, outOffset: nat,
      offsets: array<nat>, writer: PosixRunWriter, ghost src: seq<Source>, ghost runs: seq<Run>, ghost header: Bytes)
    returns (outOffset': nat)
    requires Merging(indexes, src, runs) && Readable(indexes) && gram + batch <= NUM_TRIGRAMS
    requires BatchBytes(indexes, gram, batch) <= buf.Length
    requires writer.outBytes == 0 && writer.prev == -1
    requires BatchesDone(runs, gram, header, writer.Written(), outOffset, offsets[..])
    modifies buf, writer, writer.fd, offsets
    ensures writer.outBytes == 0 && writer.prev == -1
    ensures BatchesDone(runs, gram + batch, header, writer.Written(), outOffset', offsets[..])
  {
    assert MergingParts(indexes, src, runs);
    RunsInFiles(indexes, src, gram, batch);
    ReadBatch(indexes, gram, batch, buf);
    outOffset' := MergeBatch(indexes, buf, gram, batch, outOffset, offsets, writer, src, runs, header);
  }

  /**
   * How the main loop ends. If a batch is larger than the buffer, the code writes beyond it; what
   * happens then is undefined, and the model ends there.
   */
  datatype MergeEnd = Completed | GivenUp | Overflowed

  predicate EndsWith(indexes: seq<IndexMergeHelper>, gram: nat, maxBytes: nat, end: MergeEnd)
    requires Readable(indexes) && gram <= NUM_TRIGRAMS
  {
    end == if !BatchesFit(indexes, gram, maxBytes) then Overflowed
           else if Completes(indexes, gram, maxBytes) then Completed
           else GivenUp
  }

  /** What the next batch means for the rest of the merge. */
  lemma NextBatch(indexes: seq<IndexMergeHelper>, gram: nat, maxBytes: nat, batch: nat, end: MergeEnd)
    requires Readable(indexes) && gram < NUM_TRIGRAMS && EndsWith(indexes, gram, maxBytes, end)
    requires batch == MaxBatch(indexes, gram, maxBytes)
    ensures if batch == 0 then end == GivenUp
            else if BatchBytes(indexes, gram, batch) > maxBytes then end == Overflowed
            else EndsWith(indexes, gram + batch, maxBytes, end)
  {
  }

  /** The main loop: batch after batch, until one comes out empty. */
  method MergeLoop(indexes: seq<IndexMergeHelper>, maxBytes: nat, offsets: array<nat>, writer: PosixRunWriter,
      ghost src: seq<Source>, ghost runs: seq<Run>, ghost header: Bytes)
    returns (end: MergeEnd, outOffset: nat)
    requires Merging(indexes, src, runs) && Readable(indexes)
    requires writer.outBytes == 0 && writer.prev == -1
    requires BatchesDone(runs, 0, header, writer.Written(), DATA_OFFSET, offsets[..])
    modifies writer, writer.fd, offsets
    ensures EndsWith(indexes, 0, maxBytes, end)
    ensures end.Completed? ==> BatchesDone(runs, NUM_TRIGRAMS, header, writer.Written(), outOffset, offsets[..])
  {
    outOffset := DATA_OFFSET;
    var buf := new byte[maxBytes](_ => 0);
    var gram := 0;
    ghost var expected :| EndsWith(indexes, 0, maxBytes, expected);
    while gram < NUM_TRIGRAMS
      invariant gram <= NUM_TRIGRAMS && writer.outBytes == 0 && writer.prev == -1
      invariant EndsWith(indexes, gram, maxBytes, expected)
      invariant BatchesDone(runs, gram, header, writer.Written(), outOffset, offsets[..])
    {
      var batch := FindMaxBatch(indexes, gram, maxBytes);
      NextBatch(indexes, gram, maxBytes, batch, expected);
      if batch == 0 {
        return GivenUp, outOffset;
      }
      if BatchBytes(indexes, gram, batch) > maxBytes {
        return Overflowed, outOffset;
      }
      outOffset := MergeOneBatch(indexes, buf, gram, batch, outOffset, offsets, writer, src, runs, header);
      gram := gram + batch;
    }
    end := Completed;
  }

  /**
   * `on_disk_merge_core`: appends the merged runs and their offset table to the output, unless it gives
   * up, with the batch-too-big error, because the runs of one n-gram exceed the buffer.
   */
  method MergeCore(indexes: seq<IndexMergeHelper>, out: RawFile, maxBytes: nat, ghost src: seq<Source>,
      ghost runs: seq<Run>)
    returns (end: MergeEnd)
    requires |indexes| == |src| && AllRepresent(indexes, src, |src|) && Total(src, |src|) < MAX_FILES
    requires MergedRuns(src, runs) && ValidRuns(runs) && Readable(indexes)
    modifies out
    ensures EndsWith(indexes, 0, maxBytes, end)
    ensures end.Completed? ==> out.content == old(out.content) + EncodeAll(runs) + Footer(Starts(runs))
  {
    var offsets := new nat[NUM_TRIGRAMS + 1](_ => 0);
    var writer := new PosixRunWriter(out);
    ghost var header := out.content;
    NothingYet(runs, header, writer.Written(), offsets[..]);
    assert MergingParts(indexes, src, runs);
    var outOffset;
    end, outOffset := MergeLoop(indexes, maxBytes, offsets, writer, src, runs, header);
    if !end.Completed? {
      return;
    }
    Finish(out, writer, offsets, outOffset, runs, header);
  }

  method Finish(out: RawFile, writer: PosixRunWriter, offsets: array<nat>, outOffset: nat,
      ghost runs: seq<Run>, ghost header: Bytes)
    requires writer.fd == out && |runs| == NUM_TRIGRAMS == offsets.Length - 1 && ValidRuns(runs)
    requires BatchesDone(runs, NUM_TRIGRAMS, header, writer.Written(), outOffset, offsets[..])
    modifies writer`buffer, out, offsets
    ensures out.content == header + EncodeAll(runs) + Footer(Starts(runs))
  {
    AllGramsDone(runs, header, writer.Written(), outOffset, offsets[..]);
    writer.Flush();
    offsets[NUM_TRIGRAMS] := outOffset;
    WriteOffsets(out, offsets);
  }

  lemma NothingYet(runs: seq<Run>, header: Bytes, written: Bytes, offsets: seq<nat>)
    requires ValidRuns(runs) && written == header && |offsets| == |runs| + 1
    ensures BatchesDone(runs, 0, header, written, DATA_OFFSET, offsets)
  {
    assert runs[..0] == [];
    assert DoneParts(runs, 0, header, written, DATA_OFFSET, offsets);
  }

  lemma AllGramsDone(runs: seq<Run>, header: Bytes, written: Bytes, outOffset: nat, offsets: seq<nat>)
    requires ValidRuns(runs) && |offsets| == |runs| + 1
    requires BatchesDone(runs, |runs|, header, written, outOffset, offsets)
    ensures written == header + EncodeAll(runs)
    ensures offsets[|runs| := outOffset] == Starts(runs)
  {
    assert DoneParts(runs, |runs|, header, written, outOffset, offsets);
    assert runs[..|runs|] == runs;
  }

  /** All inputs have the type of the merged index. */
  predicate SameType(indexes: seq<IndexMergeHelper>, t: IndexType) {
    forall k :: 0 <= k < |indexes| ==> indexes[k].ntype == t
  }

  datatype MergeResult = MergedTo(content: Bytes) | TypeMismatch | BatchTooBig | Undefined

  /** `on_disk_merge`: the merged index file, the two ways to fail, and when what happens is undefined. */
  method OnDiskMerge(t: IndexType, indexes: seq<IndexMergeHelper>, maxBytes: nat, ghost src: seq<Source>)
    returns (r: MergeResult)
    requires |indexes| == |src| && AllRepresent(indexes, src, |src|) && Total(src, |src|) < MAX_FILES
    requires ValidSources(src, |src|) && Readable(indexes)
    ensures r == if !SameType(indexes, t) then TypeMismatch
                 else if !BatchesFit(indexes, 0, maxBytes) then Undefined
                 else if forall g :: 0 <= g < NUM_TRIGRAMS - 1 ==> BatchBytes(indexes, g, 1) <= maxBytes
                 then MergedTo(Serialize(t, Merged(src)))
                 else BatchTooBig
  {
    ghost var fits := BatchesFit(indexes, 0, maxBytes);
    if fits {
      CompletesExactly(indexes, 0, maxBytes);
    }
    for k := 0 to |indexes|
      invariant forall j :: 0 <= j < k ==> indexes[j].ntype == t
    {
      if indexes[k].ntype != t {
        return TypeMismatch;
      }
    }
    var out := new RawFile();
    WriteHeader(out, t);
    assert out.content == Header(t);
    var end := MergeCore(indexes, out, maxBytes, src, Merged(src));
    r := if end.Completed? then MergedTo(out.content) else if end.GivenUp? then BatchTooBig else Undefined;
  }

  // ----- merging is rebuilding -----

  /** The files of all groups, one group after the other. */
  function Concat<T>(groups: seq<seq<T>>, n: nat): seq<T>
    requires n <= |groups|
  {
    if n == 0 then [] else Concat(groups, n - 1) + groups[n - 1]
  }

  /** What an index built from `files` stands for. */
  function Built(t: IndexType, files: seq<Bytes>): (s: Source)
    requires |files| <= MAX_FILES
    ensures ValidSource(s)
  {
    var lists := GramLists(t, files);
    InvertedBelow(lists);
    Source(Inverted(lists), |files|)
  }

  lemma InvertedBelow(lists: seq<seq<TriGram>>)
    requires |lists| <= MAX_FILES
    ensures ValidSource(Source(Inverted(lists), |lists|))
  {
    var s := Source(Inverted(lists), |lists|);
    forall v | 0 <= v < NUM_TRIGRAMS ensures LastOf(-1, s.RunAt(v)) < s.fileCount {
      var run := s.RunAt(v);
      if run != [] {
        PostingsExactly(lists, v, run[|run| - 1]);
      }
    }
  }

  predicate BuiltFrom(t: IndexType, src: seq<Source>, groups: seq<seq<Bytes>>, n: nat)
    requires n <= |groups| == |src|
  {
    n > 0 ==> |groups[n - 1]| <= MAX_FILES && src[n - 1] == Built(t, groups[n - 1]) && BuiltFrom(t, src, groups, n - 1)
  }

  /** Merging the posting lists of several groups of files gives the posting lists of all files. */
  lemma {:induction false} MergedPostings(t: IndexType, src: seq<Source>, groups: seq<seq<Bytes>>, n: nat, v: TriGram)
    requires n <= |groups| == |src| && BuiltFrom(t, src, groups, n) && |Concat(groups, n)| <= MAX_FILES
    ensures Total(src, n) == |Concat(groups, n)| && ValidSources(src, n)
    ensures MergedRun(src, n, v) == Postings(GramLists(t, Concat(groups, n)), v)
  {
    if n > 0 {
      var a, b := Concat(groups, n - 1), groups[n - 1];
      MergedPostings(t, src, groups, n - 1, v);
      GramListsConcat(t, a, b);
      PostingsConcat(GramLists(t, a), GramLists(t, b), v);
    }
  }

  /**
   * Merging the indexes built from several groups of files is building one index from all the files:
   * the two files are the same, byte for byte.
   */
  lemma MergeEqualsRebuild(t: IndexType, src: seq<Source>, groups: seq<seq<Bytes>>)
    requires |groups| == |src| && BuiltFrom(t, src, groups, |src|) && |Concat(groups, |src|)| <= MAX_FILES
    ensures ValidSources(src, |src|) && Total(src, |src|) == |Concat(groups, |src|)|
    ensures Serialize(t, Merged(src)) == IndexOf(t, Concat(groups, |src|))
  {
    MergedPostings(t, src, groups, |src|, 0);
    var runs, lists := Merged(src), GramLists(t, Concat(groups, |src|));
    forall v | 0 <= v < NUM_TRIGRAMS ensures runs[v] == Inverted(lists)[v] {
      MergedPostings(t, src, groups, |src|, v);
    }
    assert runs == Inverted(lists);
  }
}
