/** The index builder for few large files: one bit per n-gram and file. */
module BitmapIndexBuilders {
  import opened Core
  import opened Codec
  import opened IndexFormat
  import opened InvertedIndex
  import opened Ngrams
  import opened RunWriters
  import opened FlatIndexBuilders

  const BITMAP_MAX_FILES: nat := 8

  function Bit8(shift: nat): bv8
    requires shift < 8
  {
    1 << shift
  }

  predicate HasBit(b: bv8, shift: nat)
    requires shift < 8
  {
    b & Bit8(shift) != 0
  }

  lemma NoBit(s: nat)
    requires s < 8
    ensures !HasBit(0, s)
  {
  }

  lemma SetBit(b: bv8, s: nat, t: nat)
    requires s < 8 && t < 8
    ensures HasBit(b | Bit8(s), t) <==> HasBit(b, t) || s == t
  {
    var p, q := Bit8(s), Bit8(t);
    assert s != t ==> p & q == 0;
    assert s == t ==> p & q != 0;
    assert (b | p) & q == (b & q) | (p & q);
  }

  class BitmapIndexBuilder {
    const ntype: IndexType
    const rawData: array<bv8>
    ghost var files: seq<Bytes>

    /** Bit `s` of entry `v` is set exactly when file `s` has n-gram `v`. */
    ghost predicate Valid()
      reads this, rawData
    {
      && rawData.Length == NUM_TRIGRAMS
      && |files| <= BITMAP_MAX_FILES
      && BitsMatch(rawData[..], GramLists(ntype, files))
    }

    constructor (ntype: IndexType)
      ensures Valid() && fresh(rawData) && this.ntype == ntype && files == []
    {
      this.ntype := ntype;
      rawData := new bv8[NUM_TRIGRAMS](_ => 0);
      files := [];
      new;
      forall s: nat | s < 8 ensures !HasBit(0, s) {
        NoBit(s);
      }
    }

    predicate CanStillAdd(fileCount: nat) {
      fileCount < BITMAP_MAX_FILES
    }

    method AddTrigram(fid: FileId, val: TriGram)
      requires rawData.Length == NUM_TRIGRAMS && fid < BITMAP_MAX_FILES
      modifies rawData
      ensures rawData[..] == old(rawData[..])[val := old(rawData[val]) | Bit8(fid)]
    {
      rawData[val] := rawData[val] | Bit8(fid);
    }

    /** Adds a file; false is the out-of-range error for a ninth one. */
    method AddFile(fid: FileId, data: Bytes) returns (ok: bool)
      requires Valid() && fid == |files|
      modifies this, rawData
      ensures Valid() && ok == (fid < 8)
      ensures files == if ok then old(files) + [data] else old(files)
    {
      if fid >= BITMAP_MAX_FILES {
        return false;
      }
      var grams := Generate(ntype, data);
      ghost var before := rawData[..];
      for i := 0 to |grams|
        invariant files == old(files)
        invariant BitsAdded(before, rawData[..], fid, grams[..i])
      {
        AddOneBit(before, rawData[..], fid, grams[..i], grams[i]);
        assert grams[..i + 1] == grams[..i] + [grams[i]];
        AddTrigram(fid, grams[i]);
      }
      assert grams[..|grams|] == grams;
      BitsComplete(before, rawData[..], GramLists(ntype, files), grams);
      GramListsMore(ntype, files, data);
      files := files + [data];
      ok := true;
    }

    /** The bits, read as runs. */
    ghost predicate Stores(runs: seq<Run>)
      reads this, rawData
    {
      BitsAre(rawData[..], runs)
    }

    method GetRun(val: TriGram, ghost runs: seq<Run>) returns (result: Run)
      requires Stores(runs)
      ensures result == runs[val]
    {
      result := [];
      for shift := 0 to 8
        invariant forall x :: x in result <==> 0 <= x < shift && HasBit(rawData[val], x)
        invariant AscendingFrom(-1, result) && LastOf(-1, result) < shift
      {
        if HasBit(rawData[val], shift) {
          AscendingSplit(-1, result, [shift]);
          result := result + [shift];
        }
      }
      RunOfBits(rawData[..], runs, val, result);
    }

    /** Writes the run of one n-gram; returns where the next one starts. */
    method SaveRun(out: RawFile, i: TriGram, offset: nat, ghost runs: seq<Run>, ghost header: Bytes)
      returns (offset': nat)
      requires Stores(runs) && SavedUpTo(header, runs, i, out.content, offset)
      modifies out
      ensures SavedUpTo(header, runs, i + 1, out.content, offset')
    {
      var run := GetRun(i, runs);
      SaveOne(header, runs, i, out.content, offset);
      var bytes, written := CompressRun(run);
      out.Write(bytes);
      offset' := offset + written;
    }

    method SaveRuns(out: RawFile, ghost runs: seq<Run>) returns (offsets: array<nat>)
      requires Stores(runs) && |out.content| == DATA_OFFSET
      modifies out
      ensures fresh(offsets) && offsets[..] == Starts(runs)
      ensures out.content == old(out.content) + EncodeAll(runs)
    {
      ghost var header := out.content;
      var offset: nat := |out.content|;
      offsets := new nat[NUM_TRIGRAMS + 1](_ => 0);
      assert runs[..0] == [];
      for i := 0 to NUM_TRIGRAMS
        invariant fresh(offsets) && offsets.Length == NUM_TRIGRAMS + 1
        invariant SavedUpTo(header, runs, i, out.content, offset)
        invariant forall v :: 0 <= v < i ==> offsets[v] == Start(runs, v)
      {
        offsets[i] := offset;
        offset := SaveRun(out, i, offset, runs, header);
      }
      offsets[NUM_TRIGRAMS] := offset;
      assert runs[..NUM_TRIGRAMS] == runs;
      assert offsets[..] == Starts(runs);
    }

    /** Writes the index file: the very bytes that the other builder writes for the same files. */
    method Save() returns (out: RawFile)
      requires Valid()
      ensures fresh(out) && out.content == IndexOf(ntype, files)
    {
      ghost var runs := Inverted(GramLists(ntype, files));
      BitsAreInverted(rawData[..], GramLists(ntype, files));
      out := new RawFile();
      WriteHeader(out, ntype);
      assert out.content == Header(ntype);
      var offsets := SaveRuns(out, runs);
      assert out.content == Header(ntype) + EncodeAll(runs);
      WriteOffsets(out, offsets);
    }
  }

  ghost predicate BitsAre(raw: seq<bv8>, runs: seq<Run>) {
    && |raw| == |runs| == NUM_TRIGRAMS && ValidRuns(runs)
    && forall v, x :: 0 <= v < NUM_TRIGRAMS ==> (x in runs[v] <==> 0 <= x < 8 && HasBit(raw[v], x))
  }

  lemma BitsAreInverted(raw: seq<bv8>, lists: seq<seq<TriGram>>)
    requires BitsMatch(raw, lists) && |lists| <= BITMAP_MAX_FILES
    ensures BitsAre(raw, Inverted(lists))
  {
    var runs := Inverted(lists);
    forall v, x | 0 <= v < NUM_TRIGRAMS ensures x in runs[v] <==> 0 <= x < 8 && HasBit(raw[v], x) {
      PostingsExactly(lists, v, x);
      assert 0 <= x < 8 ==> (HasBit(raw[v], x) <==> x < |lists| && v in lists[x]);
    }
  }

  ghost predicate BitsMatch(raw: seq<bv8>, lists: seq<seq<TriGram>>) {
    && |raw| == NUM_TRIGRAMS
    && forall v, s {:trigger HasBit(raw[v], s)} :: 0 <= v < NUM_TRIGRAMS && 0 <= s < 8 ==>
         (HasBit(raw[v], s) <==> s < |lists| && v in lists[s])
  }

  /** `after` is `before` with the bits of file `fid` for `grams` added. */
  ghost predicate BitsAdded(before: seq<bv8>, after: seq<bv8>, fid: nat, grams: seq<TriGram>) {
    && |before| == |after| == NUM_TRIGRAMS && fid < 8
    && forall v, s {:trigger HasBit(after[v], s)} :: 0 <= v < NUM_TRIGRAMS && 0 <= s < 8 ==>
         (HasBit(after[v], s) <==> HasBit(before[v], s) || (s == fid && v in grams))
  }

  lemma AddOneBit(before: seq<bv8>, after: seq<bv8>, fid: nat, grams: seq<TriGram>, g: TriGram)
    requires BitsAdded(before, after, fid, grams)
    ensures BitsAdded(before, after[g := after[g] | Bit8(fid)], fid, grams + [g])
  {
    forall s: nat | s < 8 ensures HasBit(after[g] | Bit8(fid), s) <==> HasBit(after[g], s) || s == fid {
      SetBit(after[g], fid, s);
    }
    var more := after[g := after[g] | Bit8(fid)];
    forall v, s | 0 <= v < NUM_TRIGRAMS && 0 <= s < 8
      ensures HasBit(more[v], s) <==> HasBit(before[v], s) || (s == fid && v in grams + [g])
    {
      assert HasBit(after[v], s) <==> HasBit(before[v], s) || (s == fid && v in grams);
    }
  }

  lemma BitsComplete(before: seq<bv8>, after: seq<bv8>, lists: seq<seq<TriGram>>, grams: seq<TriGram>)
    requires BitsMatch(before, lists) && |lists| < 8
    requires BitsAdded(before, after, |lists|, grams)
    ensures BitsMatch(after, lists + [grams])
  {
    var more := lists + [grams];
    forall v, s | 0 <= v < NUM_TRIGRAMS && 0 <= s < 8
      ensures HasBit(after[v], s) <==> s < |more| && v in more[s]
    {
      assert HasBit(before[v], s) <==> s < |lists| && v in lists[s];
      if s < |lists| {
        assert more[s] == lists[s];
      } else if s == |lists| {
        assert more[s] == grams;
      }
    }
  }

  lemma RunOfBits(raw: seq<bv8>, runs: seq<Run>, v: TriGram, run: Run)
    requires BitsAre(raw, runs) && AscendingFrom(-1, run)
    requires forall x :: x in run <==> 0 <= x < 8 && HasBit(raw[v], x)
    ensures run == runs[v]
  {
    AscendingFromIff(-1, run);
    AscendingFromIff(-1, runs[v]);
    AscendingUnique(run, runs[v]);
  }
}
