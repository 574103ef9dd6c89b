/** The index builder for many small files: a flat list of records, sorted when it is saved. */
module FlatIndexBuilders {
  import opened Core
  import opened Codec
  import opened IndexFormat
  import opened InvertedIndex
  import opened Ngrams
  import opened RadixSort
  import opened RunWriters

  const MAX_TRIGRAMS: nat := 1024 * 1024 * 64

  /** A signed 32-bit number. */
  type int32 = x: int | -0x8000_0000 <= x < 0x8000_0000

  /** The record `d` stands for an n-gram that its file really has. */
  predicate Genuine(lists: seq<seq<TriGram>>, d: nat) {
    && RecordFile(d) < |lists|
    && RecordGram(d) < NUM_TRIGRAMS
    && RecordGram(d) in lists[RecordFile(d)]
  }

  lemma RecordParts(fid: nat, gram: nat)
    requires fid < 0x100_0000_0000
    ensures RecordFile(Record(fid, gram)) == fid && RecordGram(Record(fid, gram)) == gram
  {
  }

  lemma RecordOrder(d: nat, e: nat)
    requires d < e
    ensures RecordGram(d) < RecordGram(e) || (RecordGram(d) == RecordGram(e) && RecordFile(d) < RecordFile(e))
    ensures d == Record(RecordFile(d), RecordGram(d))
  {
  }

  lemma RecordIs(fid: nat, gram: nat, d: nat)
    requires fid < 0x100_0000_0000
    ensures d == Record(fid, gram) <==> RecordFile(d) == fid && RecordGram(d) == gram
  {
  }

  /** `std::unique`: drops repetitions from a sorted list. */
  method Unique(s: seq<u64>) returns (r: seq<u64>)
    requires Sorted(s)
    ensures Ascending(r) && |r| <= |s|
    ensures forall d :: d in r <==> d in s
  {
    r := [];
    for i := 0 to |s|
      invariant Ascending(r) && |r| <= i
      invariant forall d :: d in r <==> d in s[..i]
      invariant if r == [] then i == 0 else i > 0 && r[|r| - 1] == s[i - 1]
    {
      assert s[..i + 1] == s[..i] + [s[i]];
      if r == [] || r[|r| - 1] != s[i] {
        assert r != [] ==> r[|r| - 1] < s[i];
        r := r + [s[i]];
      }
    }
    assert s[..|s|] == s;
  }

  // ----- how far the records before index `i` fill the index -----

  /** `runs` lists exactly what the records in `done` say. */
  ghost predicate Reflects(runs: seq<Run>, done: seq<u64>) {
    && |runs| == NUM_TRIGRAMS
    && ValidRuns(runs)
    && forall v: nat, x: nat :: v < NUM_TRIGRAMS && x < 0x1_0000_0000 ==>
         (x in runs[v] <==> Record(x, v) in done)
  }

  /** One more record extends the run of its n-gram. */
  lemma ReflectsMore(runs: seq<Run>, done: seq<u64>, d: u64)
    requires Reflects(runs, done)
    requires RecordGram(d) < NUM_TRIGRAMS && RecordFile(d) < 0x1_0000_0000
    requires forall e :: e in done ==> e < d
    ensures var v := RecordGram(d);
      && LastOf(-1, runs[v]) < RecordFile(d)
      && Reflects(runs[v := runs[v] + [RecordFile(d)]], done + [d])
  {
    var v, fid := RecordGram(d), RecordFile(d);
    var run := runs[v];
    if run != [] {
      var last := run[|run| - 1];
      assert last in run;
      assert Record(last, v) in done;
      RecordParts(last, v);
      RecordOrder(Record(last, v), d);
    }
    AscendingSplit(-1, run, [fid]);
    var more := runs[v := run + [fid]];
    forall w: nat, x: nat | w < NUM_TRIGRAMS && x < 0x1_0000_0000
      ensures x in more[w] <==> Record(x, w) in done + [d]
    {
      RecordParts(x, w);
      RecordOrder(d, d + 1);
      assert Record(x, w) == d <==> x == fid && w == v;
      assert x in runs[w] <==> Record(x, w) in done;
    }
  }

  /** Once all genuine records are reflected, the runs are the posting lists. */
  lemma ReflectsAll(runs: seq<Run>, data: seq<u64>, lists: seq<seq<TriGram>>)
    requires Reflects(runs, data) && |lists| <= MAX_FILES
    requires forall d :: d in data <==> Genuine(lists, d)
    ensures runs == Inverted(lists)
  {
    forall v: nat | v < NUM_TRIGRAMS ensures runs[v] == Postings(lists, v) {
      forall fid ensures fid in runs[v] <==> 0 <= fid < |lists| && v in lists[fid] {
        if fid in runs[v] || 0 <= fid < |lists| {
          RecordParts(fid, v);
          assert fid in runs[v] <==> Record(fid, v) in data;
        }
      }
      PostingsUnique(lists, v, runs[v]);
    }
  }

  // ----- writing the runs -----

  /** Runs after n-gram `last` are empty, so the offsets up to `v` follow from the end of run `last`. */
  lemma StartsAfter(runs: seq<Run>, last: nat, v: nat)
    requires ValidRuns(runs) && last < v <= |runs|
    requires forall u :: last < u < v ==> runs[u] == []
    ensures EncodeAll(runs[..v]) == EncodeAll(runs[..last + 1])
    ensures Start(runs, v) == Start(runs, last) + |EncodeRun(runs[last])|
  {
    EncodeAllEmpty(runs, last + 1, v);
    EncodeAllExtend(runs, last);
  }

  /** Appending an id to run `v`, the last non-empty one, appends its gap to the data. */
  lemma ExtendRun(runs: seq<Run>, v: nat, id: FileId)
    requires ValidRuns(runs) && v < |runs| && LastOf(-1, runs[v]) < id
    ensures var more := runs[v := runs[v] + [id]];
      && ValidRuns(more)
      && EncodeAll(more[..v + 1]) == EncodeAll(runs[..v + 1]) + EncodeGap(id - LastOf(-1, runs[v]) - 1)
      && EncodeRun(more[v]) == EncodeRun(runs[v]) + EncodeGap(id - LastOf(-1, runs[v]) - 1)
      && forall u :: 0 <= u <= v ==> more[..u] == runs[..u]
  {
    var gap := EncodeGap(id - LastOf(-1, runs[v]) - 1);
    AscendingSplit(-1, runs[v], [id]);
    EncodeAppend(-1, runs[v], [id]);
    assert EncodeFrom(LastOf(-1, runs[v]), [id]) == gap;
    var more := runs[v := runs[v] + [id]];
    assert more[..v] == runs[..v];
    EncodeAllExtend(runs, v);
    EncodeAllExtend(more, v);
    Assoc(EncodeAll(runs[..v]), EncodeRun(runs[v]), gap);
  }

  /** The state of the loop: `runs` is on disk up to n-gram `last`, and nothing comes after it yet. */
  ghost predicate OnDisk(runs: seq<Run>, last: nat, header: Bytes, written: Bytes, offset: int,
      outBytes: nat, prev: int)
  {
    && last < |runs| && ValidRuns(runs)
    && (forall u :: last < u < |runs| ==> runs[u] == [])
    && written == header + EncodeAll(runs[..last + 1])
    && offset == Start(runs, last)
    && outBytes == |EncodeRun(runs[last])|
    && prev == LastOf(-1, runs[last])
  }

  /** Writes `offset` into the entries `from..to` of the offset table. */
  method FillOffsets(offsets: array<nat>, from: nat, to: nat, offset: nat)
    requires from <= to <= offsets.Length
    modifies offsets
    ensures forall v :: from <= v < to ==> offsets[v] == offset
    ensures forall v :: 0 <= v < offsets.Length && !(from <= v < to) ==> offsets[v] == old(offsets[v])
  {
    for v := from to to
      invariant forall u :: from <= u < v ==> offsets[u] == offset
      invariant forall u :: 0 <= u < offsets.Length && !(from <= u < v) ==> offsets[u] == old(offsets[u])
    {
      offsets[v] := offset;
    }
  }

  /** The offset table is right up to n-gram `last`. */
  ghost predicate Indexed(runs: seq<Run>, last: nat, offsets: seq<nat>)
    requires ValidRuns(runs) && last < |runs|
  {
    |offsets| == |runs| + 1 && forall v :: 0 <= v <= last ==> offsets[v] == Start(runs, v)
  }

  /** Moves on to n-gram `val`: its run starts where the run of `last` ends. */
  method StartRun(writer: PosixRunWriter, offsets: array<nat>, offset: int32, last: TriGram, val: TriGram,
      ghost runs: seq<Run>, ghost header: Bytes)
    returns (offset': int32)
    requires last < val && |runs| == NUM_TRIGRAMS
    requires OnDisk(runs, last, header, writer.Written(), offset, writer.outBytes, writer.prev)
    requires Indexed(runs, last, offsets[..]) && offset + writer.outBytes < 0x8000_0000
    modifies writer`outBytes, writer`prev, offsets
    ensures OnDisk(runs, val, header, writer.Written(), offset', writer.outBytes, writer.prev)
    ensures Indexed(runs, val, offsets[..])
    ensures offset' + writer.outBytes == offset + old(writer.outBytes)
  {
    offset' := offset + writer.outBytes;
    FillOffsets(offsets, last + 1, val + 1, offset');
    forall v | last < v <= val ensures Start(runs, v) == offset' {
      StartsAfter(runs, last, v);
    }
    assert EncodeAll(runs[..val + 1]) == EncodeAll(runs[..last + 1]) by {
      EncodeAllEmpty(runs, last + 1, val + 1);
    }
    writer.Reset();
  }

  /** Appends one id to the run of n-gram `val`, the current one. */
  method WriteId(writer: PosixRunWriter, val: TriGram, next: FileId, ghost runs: seq<Run>, ghost header: Bytes,
      ghost offset: int, ghost offsets: seq<nat>)
    returns (ghost runs': seq<Run>)
    requires OnDisk(runs, val, header, writer.Written(), offset, writer.outBytes, writer.prev)
    requires Indexed(runs, val, offsets) && LastOf(-1, runs[val]) < next
    modifies writer, writer.fd
    ensures runs' == runs[val := runs[val] + [next]]
    ensures OnDisk(runs', val, header, writer.Written(), offset, writer.outBytes, writer.prev)
    ensures Indexed(runs', val, offsets) && writer.outBytes <= old(writer.outBytes) + 5
  {
    runs' := runs[val := runs[val] + [next]];
    ExtendRun(runs, val, next);
    GapLength(next - LastOf(-1, runs[val]) - 1);
    ghost var gap := EncodeGap(next - LastOf(-1, runs[val]) - 1);
    Assoc(header, EncodeAll(runs[..val + 1]), gap);
    assert |runs[val]| > 0 ==> runs[val][|runs[val]| - 1] >= 0;
    writer.Write(next);
  }

  /** One iteration of the main loop of `save`. */
  method WriteRecord(writer: PosixRunWriter, offsets: array<nat>, d: u64, offset: int32, last: TriGram,
      ghost runs: seq<Run>, ghost header: Bytes)
    returns (offset': int32, last': TriGram, ghost runs': seq<Run>)
    requires |runs| == NUM_TRIGRAMS
    requires OnDisk(runs, last, header, writer.Written(), offset, writer.outBytes, writer.prev)
    requires Indexed(runs, last, offsets[..]) && offset + writer.outBytes < 0x8000_0000
    requires last <= RecordGram(d) < NUM_TRIGRAMS
    requires LastOf(-1, runs[RecordGram(d)]) < RecordFile(d) < 0x1_0000_0000
    modifies writer, writer.fd, offsets
    ensures last' == RecordGram(d)
    ensures runs' == runs[last' := runs[last'] + [RecordFile(d)]]
    ensures OnDisk(runs', last', header, writer.Written(), offset', writer.outBytes, writer.prev)
    ensures Indexed(runs', last', offsets[..])
    ensures offset' + writer.outBytes <= offset + old(writer.outBytes) + 5
  {
    var val := RecordGram(d);
    var next := RecordFile(d);
    offset' := offset;
    last' := last;
    if last' != val {
      offset' := StartRun(writer, offsets, offset, last, val, runs, header);
      last' := val;
    }
    runs' := WriteId(writer, val, next, runs, header, offset', offsets[..]);
  }

  /** The state of the main loop of `save` before record `i`. */
  ghost predicate WrittenUpTo(data: seq<u64>, i: nat, runs: seq<Run>, last: nat, header: Bytes, written: Bytes,
      offset: int, outBytes: nat, prev: int, offsets: seq<nat>)
    requires i <= |data|
  {
    && |runs| == NUM_TRIGRAMS && Reflects(runs, data[..i])
    && OnDisk(runs, last, header, written, offset, outBytes, prev) && Indexed(runs, last, offsets)
    && offset + outBytes <= 16 + 5 * i
    && last == if i == 0 then 0 else RecordGram(data[i - 1])
  }

  /** The next record goes behind the last one. */
  lemma NextRecord(data: seq<u64>, i: nat, runs: seq<Run>, last: nat, lists: seq<seq<TriGram>>)
    requires Ascending(data) && i < |data| && |lists| <= MAX_FILES && forall d :: d in data <==> Genuine(lists, d)
    requires |runs| == NUM_TRIGRAMS && Reflects(runs, data[..i]) && last == if i == 0 then 0 else RecordGram(data[i - 1])
    ensures last <= RecordGram(data[i]) < NUM_TRIGRAMS
    ensures LastOf(-1, runs[RecordGram(data[i])]) < RecordFile(data[i]) < 0x1_0000_0000
    ensures Reflects(runs[RecordGram(data[i]) := runs[RecordGram(data[i])] + [RecordFile(data[i])]], data[..i + 1])
  {
    var d := data[i];
    assert d in data && Genuine(lists, d);
    ReflectsMore(runs, data[..i], d);
    PrefixMore(data, i);
    if i > 0 {
      RecordOrder(data[i - 1], d);
    }
  }

  /**
   * The main loop of `save`: writes the records, sorted and without repetitions, as runs to `fd`, and
   * returns the offset table. The 32-bit running offset does not overflow.
   */
  method WriteRecords(fd: RawFile, data: seq<u64>, ghost lists: seq<seq<TriGram>>) returns (offsets: array<nat>)
    requires Ascending(data) && |data| < MAX_TRIGRAMS
    requires |lists| <= MAX_FILES && forall d :: d in data <==> Genuine(lists, d)
    modifies fd
    ensures fd.content == old(fd.content) + EncodeAll(Inverted(lists))
    ensures offsets[..] == Starts(Inverted(lists))
  {
    var offset: int32 := 16;
    offsets := new nat[NUM_TRIGRAMS + 1](_ => 0);
    offsets[0] := offset;
    var last: TriGram := 0;
    var writer := new PosixRunWriter(fd);
    ghost var header, runs := fd.content, NoRuns();
    for i := 0 to |data|
      invariant fresh(writer) && writer.fd == fd && fresh(offsets)
      invariant WrittenUpTo(data, i, runs, last, header, writer.Written(), offset, writer.outBytes, writer.prev, offsets[..])
    {
      NextRecord(data, i, runs, last, lists);
      offset, last, runs := WriteRecord(writer, offsets, data[i], offset, last, runs, header);
    }
    FinishOffsets(data, runs, last, header, writer, offset, offsets, lists);
  }

  /** Flushes the writer, and lets the rest of the offset table point to the end. */
  method FinishOffsets(ghost data: seq<u64>, ghost runs: seq<Run>, last: TriGram, ghost header: Bytes,
      writer: PosixRunWriter, offset: int32, offsets: array<nat>, ghost lists: seq<seq<TriGram>>)
    requires |data| < MAX_TRIGRAMS && |lists| <= MAX_FILES && forall d :: d in data <==> Genuine(lists, d)
    requires WrittenUpTo(data, |data|, runs, last, header, writer.Written(), offset, writer.outBytes, writer.prev, offsets[..])
    modifies writer`buffer, writer.fd, offsets
    ensures writer.fd.content == header + EncodeAll(Inverted(lists)) && offsets[..] == Starts(Inverted(lists))
  {
    var end: int32 := offset + writer.outBytes;
    writer.Flush();
    FillOffsets(offsets, last + 1, NUM_TRIGRAMS + 1, end);
    AllWritten(data, runs, last, end, offsets[..], lists);
  }

  /** After the last record all runs are written, and the offset table is complete. */
  lemma AllWritten(data: seq<u64>, runs: seq<Run>, last: nat, end: int, offsets: seq<nat>, lists: seq<seq<TriGram>>)
    requires |lists| <= MAX_FILES && forall d :: d in data <==> Genuine(lists, d)
    requires |runs| == NUM_TRIGRAMS && ValidRuns(runs) && last < |runs| && Reflects(runs, data[..|data|])
    requires |offsets| == |runs| + 1 && forall u :: last < u < |runs| ==> runs[u] == []
    requires end == Start(runs, last) + |EncodeRun(runs[last])|
    requires forall v :: 0 <= v <= last ==> offsets[v] == Start(runs, v)
    requires forall v :: last < v <= |runs| ==> offsets[v] == end
    ensures runs == Inverted(lists) && offsets == Starts(runs)
    ensures EncodeAll(runs[..last + 1]) == EncodeAll(runs)
  {
    assert data[..|data|] == data;
    ReflectsAll(runs, data, lists);
    LastOffsets(runs, last, end, offsets);
  }

  ghost function NoRuns(): (runs: seq<Run>)
    ensures |runs| == NUM_TRIGRAMS && ValidRuns(runs)
    ensures forall v :: 0 <= v < |runs| ==> runs[v] == []
    ensures EncodeAll(runs[..1]) == []
    ensures Reflects(runs, [])
  {
    var runs: seq<Run> := seq(NUM_TRIGRAMS, v => []);
    assert EncodeAll(runs[..1]) == [] by {
      EncodeAllEmpty(runs, 0, 1);
    }
    runs
  }

  /** The entries after the last non-empty run all point to its end. */
  lemma LastOffsets(runs: seq<Run>, last: nat, end: int, offsets: seq<nat>)
    requires ValidRuns(runs) && last < |runs| && |offsets| == |runs| + 1
    requires forall u :: last < u < |runs| ==> runs[u] == []
    requires end == Start(runs, last) + |EncodeRun(runs[last])|
    requires forall v :: 0 <= v <= last ==> offsets[v] == Start(runs, v)
    requires forall v :: last < v <= |runs| ==> offsets[v] == end
    ensures offsets == Starts(runs)
    ensures EncodeAll(runs[..last + 1]) == EncodeAll(runs)
  {
    forall v | last < v <= |runs| ensures offsets[v] == Start(runs, v) {
      StartsAfter(runs, last, v);
    }
    StartsAfter(runs, last, |runs|);
    assert runs[..|runs|] == runs;
  }

  // ----- the builder -----

  lemma GramListsMore(t: IndexType, files: seq<Bytes>, file: Bytes)
    ensures GramLists(t, files + [file]) == GramLists(t, files) + [Grams(t, file)]
  {
  }

  /** `d` says that file `fid` has one of `grams`. */
  predicate IsRecordOf(fid: nat, grams: seq<TriGram>, d: int) {
    d >= 0 && RecordFile(d) == fid && RecordGram(d) < NUM_TRIGRAMS && RecordGram(d) in grams
  }

  /** The genuine records of one more file are the old ones and those of the new file. */
  lemma GenuineMore(lists: seq<seq<TriGram>>, data: seq<u64>, grams: seq<TriGram>)
    requires forall d :: d in data <==> Genuine(lists, d)
    ensures forall d: nat :: Genuine(lists + [grams], d) <==> d in data || IsRecordOf(|lists|, grams, d)
  {
  }

  /** The sorted, repetition-free form of a list of records. */
  method SortRecords(rawData: seq<u64>, maxFileid: FileId) returns (r: seq<u64>)
    requires forall d :: d in rawData ==> RecordFile(d) <= maxFileid
    ensures Ascending(r) && |r| <= |rawData|
    ensures forall d :: d in r <==> d in rawData
  {
    var data := new u64[|rawData|](i requires 0 <= i < |rawData| => rawData[i]);
    assert data[..] == rawData;
    var sorted := FlatRadixSort(data, maxFileid);
    SameElements(sorted[..], rawData);
    r := Unique(sorted[..]);
  }

  lemma SameElements(s: seq<u64>, t: seq<u64>)
    requires multiset(s) == multiset(t)
    ensures |s| == |t| && forall d :: d in s <==> d in t
  {
    forall d ensures d in s <==> d in t {
      assert d in s <==> d in multiset(s);
      assert d in t <==> d in multiset(t);
    }
    assert |multiset(s)| == |multiset(t)|;
  }

  class FlatIndexBuilder {
    const ntype: IndexType
    var rawData: seq<u64>
    var maxFileid: FileId
    ghost var files: seq<Bytes>

    /** The records are exactly the n-grams of the files added so far, repetitions aside. */
    ghost predicate Valid()
      reads this
    {
      && |files| <= MAX_FILES
      && (forall d :: d in rawData <==> Genuine(GramLists(ntype, files), d))
      && maxFileid == (if files == [] then 0 else |files| - 1)
    }

    /** The records fit into the buffer, so that the offsets of a saved index fit into 32 bits. */
    predicate InBounds()
      reads this
    {
      |rawData| < MAX_TRIGRAMS
    }

    constructor (ntype: IndexType)
      ensures Valid() && this.ntype == ntype && files == []
    {
      this.ntype := ntype;
      rawData, maxFileid, files := [], 0, [];
    }

    /** Whether a file of `bytes` bytes can be added without exceeding the record buffer. */
    predicate CanStillAdd(bytes: nat)
      reads this
    {
      |rawData| + (if bytes < 3 then 0 else bytes - 2) < MAX_TRIGRAMS
    }

    /** A builder without files has room for every file of up to 64 MiB. */
    lemma RoomWhenEmpty(bytes: nat)
      requires Valid() && files == [] && bytes <= MAX_TRIGRAMS
      ensures CanStillAdd(bytes) && InBounds()
    {
      FirstIn(rawData);
    }

    method AddTrigram(fid: FileId, val: TriGram)
      modifies this`rawData
      ensures rawData == old(rawData) + [Record(fid, val)]
    {
      rawData := rawData + [fid + val * 0x100_0000_0000];
    }

    /** Adds the n-grams of a file; they fit if `CanStillAdd` has said so. */
    method AddFile(fid: FileId, data: Bytes)
      requires Valid() && fid == |files|
      modifies this
      ensures Valid() && files == old(files) + [data]
      ensures old(CanStillAdd(|data|)) ==> InBounds()
    {
      maxFileid := if fid > maxFileid then fid else maxFileid;
      var grams := Generate(ntype, data);
      GramsCount(ntype, data);
      GenuineMore(GramLists(ntype, files), rawData, grams);
      AddGrams(fid, grams);
      GramListsMore(ntype, files, data);
      files := files + [data];
    }

    method AddGrams(fid: FileId, grams: seq<TriGram>)
      modifies this`rawData
      ensures |rawData| == |old(rawData)| + |grams|
      ensures forall d :: d in rawData <==> d in old(rawData) || IsRecordOf(fid, grams, d)
    {
      for i := 0 to |grams|
        invariant |rawData| == |old(rawData)| + i
        invariant forall d :: d in rawData <==> d in old(rawData) || IsRecordOf(fid, grams[..i], d)
      {
        assert grams[..i + 1] == grams[..i] + [grams[i]];
        forall d: nat ensures d == Record(fid, grams[i]) <==> RecordFile(d) == fid && RecordGram(d) == grams[i] {
          RecordIs(fid, grams[i], d);
        }
        AddTrigram(fid, grams[i]);
      }
      assert grams[..|grams|] == grams;
    }

    /**
     * Writes the index file. Its bytes are those that the list of files alone determines; the buffer
     * of the builder is left sorted and without repetitions.
     */
    method Save() returns (fd: RawFile)
      requires Valid() && InBounds()
      modifies this`rawData
      ensures fresh(fd) && fd.content == IndexOf(ntype, files)
      ensures Valid() && InBounds() && Ascending(rawData)
    {
      ghost var lists := GramLists(ntype, files);
      assert forall d :: d in rawData ==> RecordFile(d) <= maxFileid by {
        assert forall d :: d in rawData ==> Genuine(lists, d);
      }
      rawData := SortRecords(rawData, maxFileid);
      fd := WriteIndex(ntype, rawData, lists);
    }
  }

  /** The file that sorted records without repetitions stand for. */
  method WriteIndex(ntype: IndexType, data: seq<u64>, ghost lists: seq<seq<TriGram>>) returns (fd: RawFile)
    requires Ascending(data) && |data| < MAX_TRIGRAMS
    requires |lists| <= MAX_FILES && forall d :: d in data <==> Genuine(lists, d)
    ensures fresh(fd) && fd.content == Serialize(ntype, Inverted(lists))
  {
    fd := new RawFile();
    WriteHeader(fd, ntype);
    assert fd.content == Header(ntype);
    var offsets := WriteRecords(fd, data, lists);
    assert fd.content == Header(ntype) + EncodeAll(Inverted(lists));
    WriteOffsets(fd, offsets);
  }

  method WriteHeader(fd: RawFile, ntype: IndexType)
    modifies fd
    ensures fd.content == old(fd.content) + Header(ntype)
  {
    var magic, version, rawType, reserved := LE(DB_MAGIC, 4), LE(INDEX_VERSION, 4), LE(RawType(ntype), 4), LE(0, 4);
    Assoc(fd.content, magic, version);
    Assoc(fd.content, magic + version, rawType);
    Assoc(fd.content, magic + version + rawType, reserved);
    fd.Write(magic);
    fd.Write(version);
    fd.Write(rawType);
    fd.Write(reserved);
  }

  /** Writes the offset table as 64-bit numbers. */
  method WriteOffsets(fd: RawFile, offsets: array<nat>)
    modifies fd
    ensures fd.content == old(fd.content) + Footer(offsets[..])
  {
    for i := 0 to offsets.Length
      invariant fd.content == old(fd.content) + Footer(offsets[..i])
    {
      assert offsets[..i + 1] == offsets[..i] + [offsets[i]];
      fd.Write(LE(offsets[i], 8));
    }
    assert offsets[..offsets.Length] == offsets[..];
  }
}
