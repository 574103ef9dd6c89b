/** The list of file names of a dataset, and the table of offsets into it (`OnDiskFileIndex`). */
module OnDiskFileIndexes {
  import opened Core
  import opened IndexFormat
  import opened RunWriters

  const NEWLINE: byte := 10

  /** Names that the list can hold: not empty, and without a line break. */
  predicate ValidName(name: Bytes) {
    name != [] && NEWLINE !in name
  }

  predicate ValidNames(names: seq<Bytes>) {
    forall k :: 0 <= k < |names| ==> ValidName(names[k])
  }

  function Line(name: Bytes): Bytes {
    name + [NEWLINE]
  }

  /** The stored form of the first `n` names: one to a line. */
  function NamesFile(names: seq<Bytes>, n: nat): Bytes
    requires n <= |names|
  {
    if n == 0 then [] else NamesFile(names, n - 1) + Line(names[n - 1])
  }

  /** Where the name of file `k` starts. */
  function NameStart(names: seq<Bytes>, k: nat): nat
    requires k <= |names|
  {
    |NamesFile(names, k)|
  }

  function NameStarts(names: seq<Bytes>): (r: seq<nat>)
    ensures |r| == |names| + 1
    ensures forall k :: 0 <= k <= |names| ==> r[k] == NameStart(names, k)
  {
    seq(|names| + 1, k requires 0 <= k <= |names| => NameStart(names, k))
  }

  /** The table of offsets, including the one past the last name. */
  function NameCache(names: seq<Bytes>): Bytes {
    Footer(NameStarts(names))
  }

  // ----- reading lines -----

  /** The end of the line at `i`. */
  function LineEnd(content: Bytes, i: nat): (r: nat)
    requires i <= |content|
    ensures i <= r <= |content|
    decreases |content| - i
  {
    if i == |content| || content[i] == NEWLINE then i else LineEnd(content, i + 1)
  }

  /** A line as a list: empty lines are skipped. */
  function Kept(line: Bytes): seq<Bytes> {
    if line == [] then [] else [line]
  }

  /** The lines that are left to read at `i`, unless the end of the file has been hit. */
  function Lines(content: Bytes, i: nat, eof: bool): seq<Bytes>
    requires i <= |content|
    decreases |content| - i, !eof
  {
    if eof then []
    else
      var end := LineEnd(content, i);
      Kept(content[i..end]) + Lines(content, if end == |content| then end else end + 1, end == |content|)
  }

  /** Reading goes on behind the next line break; the line before it counts unless it is empty. */
  lemma NextLineIs(content: Bytes, i: nat, e: nat)
    requires i <= e <= |content| && (e < |content| ==> content[e] == NEWLINE) && NEWLINE !in content[i..e]
    ensures e < |content| ==>
      Lines(content, i, false) == (if i < e then [content[i..e]] else []) + Lines(content, e + 1, false)
    ensures e == |content| ==> Lines(content, i, false) == if i < e then [content[i..]] else []
  {
    LineEndIs(content, i, e);
    assert e == |content| ==> content[i..e] == content[i..] && Lines(content, e, true) == [];
  }

  /** `for_each_filename`: reads line by line until the end of the file is hit, skipping empty lines. */
  method ForEachFilename(content: Bytes) returns (names: seq<Bytes>)
    ensures names == Lines(content, 0, false)
  {
    names := [];
    var pos: nat := 0;
    var eof := false;
    ghost var all := Lines(content, 0, false);
    while !eof
      invariant pos <= |content| && names + Lines(content, pos, eof) == all
      decreases !eof, |content| - pos
    {
      var filename, next, hit := GetLine(content, pos);
      LinesNext(content, pos);
      Assoc(names, Kept(filename), Lines(content, next, hit));
      names := AddName(names, filename);
      pos, eof := next, hit;
    }
  }

  lemma LinesNext(content: Bytes, i: nat)
    requires i <= |content|
    ensures var end := LineEnd(content, i);
      Lines(content, i, false) == Kept(content[i..end]) + Lines(content, if end == |content| then end else end + 1, end == |content|)
  {
  }

  method AddName(names: seq<Bytes>, filename: Bytes) returns (r: seq<Bytes>)
    ensures r == names + Kept(filename)
  {
    r := names;
    if filename != [] {
      r := r + [filename];
    }
  }

  /** `std::getline`: the line, and whether it ended with the file. */
  method GetLine(content: Bytes, pos: nat) returns (line: Bytes, next: nat, eof: bool)
    requires pos <= |content|
    ensures line == content[pos..LineEnd(content, pos)]
    ensures eof == (LineEnd(content, pos) == |content|)
    ensures next == if eof then |content| else LineEnd(content, pos) + 1
  {
    next := pos;
    while next < |content| && content[next] != NEWLINE
      invariant pos <= next <= |content| && LineEnd(content, pos) == LineEnd(content, next)
    {
      next := next + 1;
    }
    line, eof := content[pos..next], next == |content|;
    if !eof {
      next := next + 1;
    }
  }

  /** Where name `k` is in the stored list. */
  lemma {:induction false} NameAt(names: seq<Bytes>, n: nat, k: nat)
    requires k < n <= |names|
    ensures var content, start, end := NamesFile(names, n), NameStart(names, k), NameStart(names, k + 1) - 1;
      start <= end < |content| && content[start..end] == names[k] && content[end] == NEWLINE
  {
    if k < n - 1 {
      NameAt(names, n - 1, k);
      InFront(NamesFile(names, n - 1), Line(names[n - 1]), NameStart(names, k), NameStart(names, k + 1) - 1);
      assert NamesFile(names, n) == NamesFile(names, n - 1) + Line(names[n - 1]);
    } else {
      NameLast(names, k);
    }
  }

  lemma NameLast(names: seq<Bytes>, k: nat)
    requires k < |names|
    ensures var content, start, end := NamesFile(names, k + 1), NameStart(names, k), NameStart(names, k + 1) - 1;
      start <= end < |content| && content[start..end] == names[k] && content[end] == NEWLINE
  {
    LastLine(NamesFile(names, k), names[k]);
  }

  lemma InFront(a: Bytes, b: Bytes, start: nat, end: nat)
    requires start <= end < |a|
    ensures end < |a + b| && (a + b)[start..end] == a[start..end] && (a + b)[end] == a[end]
  {
  }

  lemma LastLine(a: Bytes, name: Bytes)
    ensures var content, end := a + Line(name), |a + Line(name)| - 1;
      |a| <= end && content[|a|..end] == name && content[end] == NEWLINE
  {
  }

  lemma {:induction false} LineEndIs(content: Bytes, i: nat, end: nat)
    requires i <= end <= |content| && (end < |content| ==> content[end] == NEWLINE) && NEWLINE !in content[i..end]
    ensures LineEnd(content, i) == end
    decreases end - i
  {
    if i < end {
      assert content[i] == content[i..end][0];
      assert content[i..end] == [content[i]] + content[i + 1..end];
      LineEndIs(content, i + 1, end);
    }
  }

  ghost predicate ReadsParts(names: seq<Bytes>, k: nat) {
    && k <= |names| && NameStart(names, k) <= |NamesFile(names, |names|)|
    && Lines(NamesFile(names, |names|), NameStart(names, k), false) == names[k..]
  }

  /** Reading from the start of name `k` gives the names from `k` on; of all equals, as in other invariants. */
  ghost predicate ReadsFrom(names: seq<Bytes>, k: nat) {
    forall ns {:trigger ReadsParts(ns, k)} :: ns == names ==> ReadsParts(ns, k)
  }

  lemma {:induction false} AllRead(names: seq<Bytes>, k: nat)
    requires ValidNames(names) && k <= |names|
    ensures ReadsFrom(names, k)
    decreases |names| - k
  {
    if k < |names| {
      AllRead(names, k + 1);
      LinesStep(names, k);
    } else {
      NoNamesLeft(names);
    }
  }

  /** Reading the stored names back gives the names. */
  lemma LinesOfNames(names: seq<Bytes>, k: nat)
    requires ValidNames(names) && k <= |names|
    ensures NameStart(names, k) <= |NamesFile(names, |names|)|
    ensures Lines(NamesFile(names, |names|), NameStart(names, k), false) == names[k..]
  {
    AllRead(names, k);
    assert ReadsParts(names, k);
  }

  lemma NoNamesLeft(names: seq<Bytes>)
    ensures ReadsFrom(names, |names|)
  {
    LinesAtEnd(NamesFile(names, |names|));
    assert ReadsParts(names, |names|);
  }

  lemma LinesStep(names: seq<Bytes>, k: nat)
    requires ValidNames(names) && k < |names| && ReadsFrom(names, k + 1)
    ensures ReadsFrom(names, k)
  {
    assert ReadsParts(names, k + 1);
    NameIn(names, k);
    LineAhead(NamesFile(names, |names|), NameStart(names, k), NameStart(names, k + 1), names[k], names[k + 1..]);
    TailFrom(names, k);
    assert ReadsParts(names, k);
  }

  lemma NameIn(names: seq<Bytes>, k: nat)
    requires ValidNames(names) && k < |names|
    ensures var content, start, next := NamesFile(names, |names|), NameStart(names, k), NameStart(names, k + 1);
      && start < next <= |content| && content[start..next - 1] == names[k] && content[next - 1] == NEWLINE
      && ValidName(names[k])
  {
    NameAt(names, |names|, k);
  }

  lemma LineAhead(content: Bytes, start: nat, next: nat, name: Bytes, rest: seq<Bytes>)
    requires start < next <= |content| && content[start..next - 1] == name && content[next - 1] == NEWLINE && ValidName(name)
    requires Lines(content, next, false) == rest
    ensures Lines(content, start, false) == [name] + rest
  {
    LineEndIs(content, start, next - 1);
    FirstLine(content, start, next - 1, name);
  }

  lemma FirstLine(content: Bytes, i: nat, end: nat, name: Bytes)
    requires i <= end < |content| && LineEnd(content, i) == end && content[i..end] == name != []
    ensures Lines(content, i, false) == [name] + Lines(content, end + 1, false)
  {
  }

  lemma LinesAtEnd(content: Bytes)
    ensures Lines(content, |content|, false) == []
  {
  }

  lemma TailFrom<T>(s: seq<T>, k: nat)
    requires k < |s|
    ensures s[k..] == [s[k]] + s[k + 1..]
  {
  }

  /** The list of the files of two datasets, one after the other. */
  lemma {:induction false} NamesFileAppend(a: seq<Bytes>, b: seq<Bytes>, n: nat)
    requires n <= |b|
    ensures NamesFile(a + b, |a| + n) == NamesFile(a, |a|) + NamesFile(b, n)
  {
    if n > 0 {
      NamesFileAppend(a, b, n - 1);
      Assoc(NamesFile(a, |a|), NamesFile(b, n - 1), Line(b[n - 1]));
    } else {
      NamesFilePrefix(a, b, |a|);
    }
  }

  lemma {:induction false} NamesFilePrefix(a: seq<Bytes>, b: seq<Bytes>, n: nat)
    requires n <= |a|
    ensures NamesFile(a + b, n) == NamesFile(a, n)
  {
    if n > 0 {
      NamesFilePrefix(a, b, n - 1);
      assert (a + b)[n - 1] == a[n - 1];
    }
  }

  // ----- the class -----

  /** `generate_namecache_file`: the table of offsets for a list of names, and their number. */
  method GenerateNamecacheFile(files: Bytes) returns (cache: Bytes, count: nat)
    ensures cache == NameCache(Lines(files, 0, false)) && count == |Lines(files, 0, false)|
  {
    var names := ForEachFilename(files);
    var offset := 0;
    count := 0;
    var of := new RawFile();
    ghost var starts := NameStarts(names);
    assert starts[..0] == [];
    for k := 0 to |names|
      invariant fresh(of) && of.content == Footer(starts[..k])
      invariant offset == NameStart(names, k) && count == k
    {
      FooterMore(starts, k);
      of.Write(LE(offset, 8));
      offset := offset + |names[k]| + 1;
      count := count + 1;
    }
    FooterMore(starts, |names|);
    assert starts[..|names| + 1] == starts;
    of.Write(LE(offset, 8));
    cache := of.content;
  }

  class OnDiskFileIndex {
    const files: Bytes
    const cache: Bytes
    const fileCount: nat

    /** Both files of the index stand for the list `names`. */
    ghost predicate Lists(names: seq<Bytes>) {
      && ValidNames(names) && |files| < 0x1_0000_0000_0000_0000
      && files == NamesFile(names, |names|) && cache == NameCache(names) && fileCount == |names|
    }

    /** Opens a list of names; the table of offsets is generated if there is none yet. */
    constructor (files: Bytes, cache: Option<Bytes>, ghost names: seq<Bytes>)
      requires ValidNames(names) && files == NamesFile(names, |names|) && |files| < 0x1_0000_0000_0000_0000
      requires cache.Some? ==> cache.value == NameCache(names)
      ensures Lists(names)
    {
      var cacheFile, count;
      if cache.Some? {
        cacheFile, count := cache.value, |cache.value| / 8 - 1;
      } else {
        LinesOfNames(names, 0);
        cacheFile, count := GenerateNamecacheFile(files);
        assert names[0..] == names;
      }
      this.files, this.cache, fileCount := files, cacheFile, count;
    }

    /** Entry `k` of the table of offsets. */
    function Ptr(k: nat): nat
      requires k * 8 + 8 <= |cache|
    {
      FromLE(cache[k * 8..k * 8 + 8])
    }

    /** The name of a file, found through the table of offsets. */
    method GetFileName(fid: FileId, ghost names: seq<Bytes>) returns (name: Bytes)
      requires Lists(names) && fid < |names|
      ensures name == names[fid]
    {
      ReadStart(names, fid);
      ReadStart(names, fid + 1);
      NameAt(names, |names|, fid);
      var start, end := Ptr(fid), Ptr(fid + 1) - 1;
      name := files[start..end];
    }

    lemma ReadStart(names: seq<Bytes>, k: nat)
      requires Lists(names) && k <= |names|
      ensures k * 8 + 8 <= |cache| && Ptr(k) == NameStart(names, k)
    {
      StartInFile(names, k, |names|);
      CacheEntry(NameStarts(names), k);
    }
  }

  lemma CacheEntry(offsets: seq<nat>, k: nat)
    requires k < |offsets| && offsets[k] < 0x1_0000_0000_0000_0000
    ensures k * 8 + 8 <= |Footer(offsets)| && FromLE(Footer(offsets)[k * 8..k * 8 + 8]) == offsets[k]
  {
    FooterSlice(offsets, k);
    Range48();
    LERoundTrip(offsets[k], 8);
  }

  lemma FooterMore(offsets: seq<nat>, k: nat)
    requires k < |offsets|
    ensures Footer(offsets[..k + 1]) == Footer(offsets[..k]) + LE(offsets[k], 8)
  {
    assert offsets[..k + 1][..k] == offsets[..k];
  }

  lemma {:induction false} StartInFile(names: seq<Bytes>, k: nat, n: nat)
    requires k <= n <= |names|
    ensures NameStart(names, k) <= NameStart(names, n)
  {
    if k < n {
      StartInFile(names, k, n - 1);
    }
  }
}
