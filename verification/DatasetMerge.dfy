/** Merging datasets: their indexes, type by type, and their lists of names (`OnDiskDataset::merge`). */
module DatasetMerging {
  import opened Core
  import opened Codec
  import opened IndexFormat
  import opened InvertedIndex
  import opened Queries
  import opened QueryPlan
  import opened OnDiskFileIndexes
  import opened OnDiskIndexes
  import opened OnDiskDatasets

  /** The files of the first `n` lists, one list after the other. */
  function Joined(lists: seq<FileList>, n: nat): FileList
    requires n <= |lists|
  {
    if n == 0 then FileList([], []) else Both(Joined(lists, n - 1), lists[n - 1])
  }

  function ContentsOf(lists: seq<FileList>): (r: seq<seq<Bytes>>)
    ensures |r| == |lists| && forall k :: 0 <= k < |lists| ==> r[k] == lists[k].contents
  {
    seq(|lists|, k requires 0 <= k < |lists| => lists[k].contents)
  }

  lemma {:induction false} JoinedContents(lists: seq<FileList>, n: nat)
    requires n <= |lists|
    ensures Joined(lists, n).contents == Concat(ContentsOf(lists), n)
  {
    if n > 0 {
      JoinedContents(lists, n - 1);
    }
  }

  ghost predicate AllValidFiles(lists: seq<FileList>) {
    forall k :: 0 <= k < |lists| ==> ValidFiles(lists[k])
  }

  lemma {:induction false} JoinedValid(lists: seq<FileList>, n: nat)
    requires n <= |lists| && AllValidFiles(lists)
    ensures |Joined(lists, n).names| == |Joined(lists, n).contents| && ValidNames(Joined(lists, n).names)
  {
    if n > 0 {
      JoinedValid(lists, n - 1);
    }
  }

  /** The results on the first `n` datasets, one after the other. */
  function AllFound(types: set<IndexType>, q: PatternQuery, lists: seq<FileList>, n: nat): seq<Bytes>
    requires n <= |lists| && forall k :: 0 <= k < |lists| ==> |lists[k].names| == |lists[k].contents|
  {
    if n == 0 then [] else AllFound(types, q, lists, n - 1) + Found(types, q, lists[n - 1])
  }

  ghost predicate Finds(types: set<IndexType>, q: PatternQuery, f: FileList, found: seq<Bytes>) {
    |f.names| == |f.contents| && Found(types, q, f) == found
  }

  /** Running a query on the merged dataset is running it on each dataset in turn. */
  lemma {:induction false} FoundJoined(types: set<IndexType>, q: PatternQuery, lists: seq<FileList>, n: nat)
    requires n <= |lists| && AllValidFiles(lists)
    ensures Finds(types, q, Joined(lists, n), AllFound(types, q, lists, n))
  {
    if n > 0 {
      FoundJoined(types, q, lists, n - 1);
      assert ValidFiles(lists[n - 1]);
      FoundNext(types, q, Joined(lists, n - 1), lists[n - 1], AllFound(types, q, lists, n - 1));
    } else {
      NothingFound(types, q);
    }
  }

  lemma NothingFound(types: set<IndexType>, q: PatternQuery)
    ensures Finds(types, q, FileList([], []), [])
  {
    assert NamesAt([], []) == [];
  }

  lemma FoundNext(types: set<IndexType>, q: PatternQuery, init: FileList, last: FileList, found: seq<Bytes>)
    requires |last.names| == |last.contents| && Finds(types, q, init, found)
    ensures Finds(types, q, Both(init, last), found + Found(types, q, last))
  {
    FoundBoth(types, q, init, last);
  }

  /** The index of type `t` of the given files. */
  function IndexFileOf(t: IndexType, contents: seq<Bytes>): IndexFile
    requires |contents| <= MAX_FILES
  {
    IndexFile(t, IndexOf(t, contents))
  }

  /** An index is that of the given files. */
  ghost predicate Over(index: IndexFile, contents: seq<Bytes>)
    requires |contents| <= MAX_FILES
  {
    index == IndexFileOf(index.itype, contents)
  }

  ghost predicate AllOver(indices: seq<IndexFile>, contents: seq<Bytes>)
    requires |contents| <= MAX_FILES
  {
    forall k :: 0 <= k < |indices| ==> Over(indices[k], contents)
  }

  // ----- the inputs of the merge of one index type -----

  /** What the merge reads from an index of type `t` over these files. */
  ghost function HelperOf(t: IndexType, f: FileList): IndexMergeHelper
    requires ValidFiles(f)
  {
    IndexMergeHelper(IndexOf(t, f.contents), t, |f.contents|, Starts(Inverted(GramLists(t, f.contents))))
  }

  ghost function HelpersOf(t: IndexType, lists: seq<FileList>): (r: seq<IndexMergeHelper>)
    requires AllValidFiles(lists)
    ensures |r| == |lists| && forall k :: 0 <= k < |lists| ==> r[k] == HelperOf(t, lists[k])
  {
    seq(|lists|, k requires 0 <= k < |lists| => HelperOf(t, lists[k]))
  }

  ghost function SourcesOf(t: IndexType, lists: seq<FileList>): (r: seq<Source>)
    requires AllValidFiles(lists)
    ensures |r| == |lists| && forall k :: 0 <= k < |lists| ==> r[k] == OnDiskIndexes.Built(t, lists[k].contents)
  {
    seq(|lists|, k requires 0 <= k < |lists| => OnDiskIndexes.Built(t, lists[k].contents))
  }

  lemma {:induction false} HelpersRepresent(t: IndexType, lists: seq<FileList>, n: nat)
    requires AllValidFiles(lists) && n <= |lists|
    ensures AllRepresent(HelpersOf(t, lists), SourcesOf(t, lists), n)
    ensures BuiltFrom(t, SourcesOf(t, lists), ContentsOf(lists), n)
  {
    if n > 0 {
      HelpersRepresent(t, lists, n - 1);
      SerializedRepresents(HelperOf(t, lists[n - 1]), OnDiskIndexes.Built(t, lists[n - 1].contents));
    }
  }

  /** Every batch fits into the buffer; otherwise it is undefined what the merge does. */
  ghost predicate CanMerge(t: IndexType, lists: seq<FileList>, maxBytes: nat)
    requires AllValidFiles(lists)
  {
    HelpersReadable(t, lists);
    BatchesFit(HelpersOf(t, lists), 0, maxBytes)
  }

  lemma HelpersReadable(t: IndexType, lists: seq<FileList>)
    requires AllValidFiles(lists)
    ensures Readable(HelpersOf(t, lists))
  {
    HelpersRepresent(t, lists, |lists|);
    RepresentReadable(HelpersOf(t, lists), SourcesOf(t, lists));
  }

  /** The runs of every n-gram but the last fit into the buffer. */
  ghost predicate GramsFit(t: IndexType, lists: seq<FileList>, maxBytes: nat)
    requires AllValidFiles(lists)
  {
    forall g :: 0 <= g < NUM_TRIGRAMS - 1 ==> BatchBytes(HelpersOf(t, lists), g, 1) <= maxBytes
  }

  method ReadRunOffsets(file: Bytes, ghost t: IndexType, ghost runs: seq<Run>) returns (offsets: seq<nat>)
    requires ValidRuns(runs) && |runs| == NUM_TRIGRAMS
    requires file == Serialize(t, runs) && |file| < 0x1_0000_0000_0000_0000
    ensures offsets == Starts(runs)
  {
    offsets := [];
    ghost var starts := Starts(runs);
    for v := 0 to NUM_TRIGRAMS + 1
      invariant offsets == starts[..v]
    {
      var offset := ReadOffset(file, v, t, runs);
      PrefixMore(starts, v);
      offsets := offsets + [offset];
    }
    assert starts[..NUM_TRIGRAMS + 1] == starts;
  }

  method ReadOffset(file: Bytes, v: nat, ghost t: IndexType, ghost runs: seq<Run>) returns (offset: nat)
    requires ValidRuns(runs) && |runs| == NUM_TRIGRAMS && v <= NUM_TRIGRAMS
    requires file == Serialize(t, runs) && |file| < 0x1_0000_0000_0000_0000
    ensures offset == Start(runs, v)
  {
    ReadRunOffset(t, runs, v);
    offset := RunOffset(file, NUM_TRIGRAMS, v);
  }

  /** The first index of type `t`; `None` is the "doesn't exist" error. */
  method GetIndexWithType(indices: seq<IndexFile>, t: IndexType) returns (r: Option<IndexFile>)
    ensures r.Some? ==> r.value in indices && r.value.itype == t
    ensures r.None? ==> t !in TypesOf(indices, |indices|)
  {
    for k := 0 to |indices|
      invariant t !in TypesOf(indices, k)
    {
      if indices[k].itype == t {
        return Some(indices[k]);
      }
    }
    return None;
  }

  ghost predicate DatasetsBuilt(datasets: seq<OnDiskDataset>, lists: seq<FileList>)
    reads datasets
  {
    |datasets| == |lists| && forall k :: 0 <= k < |datasets| ==> datasets[k].Built(lists[k])
  }

  /** Opens the index of type `t` of one dataset for merging. */
  method OpenHelper(dataset: OnDiskDataset, t: IndexType, ghost f: FileList) returns (h: IndexMergeHelper)
    requires dataset.Built(f) && t in TypesOf(dataset.indices, |dataset.indices|)
    ensures h == HelperOf(t, f)
  {
    var index := GetIndexWithType(dataset.indices, t);
    ghost var runs := Inverted(GramLists(t, f.contents));
    var offsets := ReadRunOffsets(index.value.file, t, runs);
    h := IndexMergeHelper(index.value.file, index.value.itype, dataset.filesIndex.fileCount, offsets);
  }

  method OpenHelperAt(datasets: seq<OnDiskDataset>, k: nat, t: IndexType, ghost lists: seq<FileList>)
    returns (h: IndexMergeHelper)
    requires DatasetsBuilt(datasets, lists) && AllValidFiles(lists) && HaveTypes(datasets, {t}) && k < |datasets|
    ensures h == HelpersOf(t, lists)[k]
  {
    assert {t} <= TypesOf(datasets[k].indices, |datasets[k].indices|);
    h := OpenHelper(datasets[k], t, lists[k]);
  }

  method OpenHelpers(datasets: seq<OnDiskDataset>, t: IndexType, ghost lists: seq<FileList>)
    returns (indexes: seq<IndexMergeHelper>)
    requires DatasetsBuilt(datasets, lists) && AllValidFiles(lists) && HaveTypes(datasets, {t})
    ensures indexes == HelpersOf(t, lists)
  {
    indexes := [];
    ghost var helpers := HelpersOf(t, lists);
    for k := 0 to |datasets|
      invariant indexes == helpers[..k]
    {
      PrefixMore(helpers, k);
      var h := OpenHelperAt(datasets, k, t, lists);
      indexes := indexes + [h];
    }
  }

  /** The errors of a merge. `Undefined` is none: a batch was larger than the buffer. */
  datatype MergeError = TooFewDatasets | DifferentTaints | DifferentTypes | BatchTooBig | Undefined

  datatype Tried<T> = Good(value: T) | Bad(error: MergeError)

  /** The merge of type `t` succeeds. */
  ghost predicate Succeeds(t: IndexType, lists: seq<FileList>, maxBytes: nat)
    requires AllValidFiles(lists)
  {
    CanMerge(t, lists, maxBytes) && GramsFit(t, lists, maxBytes)
  }

  ghost predicate FailsWith(t: IndexType, lists: seq<FileList>, maxBytes: nat, e: MergeError)
    requires AllValidFiles(lists)
  {
    if CanMerge(t, lists, maxBytes) then !GramsFit(t, lists, maxBytes) && e == MergeError.BatchTooBig
    else e == MergeError.Undefined
  }

  /** What the merge of the indexes of type `t` gives. */
  ghost predicate Gives(t: IndexType, lists: seq<FileList>, maxBytes: nat, r: MergeResult)
    requires AllValidFiles(lists) && |Joined(lists, |lists|).contents| < MAX_FILES
  {
    r == if !CanMerge(t, lists, maxBytes) then MergeResult.Undefined
         else if !GramsFit(t, lists, maxBytes) then MergeResult.BatchTooBig
         else MergedTo(IndexOf(t, Joined(lists, |lists|).contents))
  }

  /** The inputs of the merge are what they should be, and what it writes is the index of all files. */
  lemma HelpersReady(t: IndexType, lists: seq<FileList>)
    requires AllValidFiles(lists) && |Joined(lists, |lists|).contents| < MAX_FILES
    ensures var indexes, src := HelpersOf(t, lists), SourcesOf(t, lists);
      && |indexes| == |src| && AllRepresent(indexes, src, |src|) && Total(src, |src|) < MAX_FILES
      && ValidSources(src, |src|) && Readable(indexes) && SameType(indexes, t)
      && Serialize(t, OnDiskIndexes.Merged(src)) == IndexOf(t, Joined(lists, |lists|).contents)
  {
    HelpersRepresent(t, lists, |lists|);
    HelpersReadable(t, lists);
    JoinedContents(lists, |lists|);
    MergeEqualsRebuild(t, SourcesOf(t, lists), ContentsOf(lists));
  }

  method MergeOpened(indexes: seq<IndexMergeHelper>, t: IndexType, maxBytes: nat, ghost lists: seq<FileList>)
    returns (r: MergeResult)
    requires AllValidFiles(lists) && indexes == HelpersOf(t, lists)
    requires |Joined(lists, |lists|).contents| < MAX_FILES
    ensures Gives(t, lists, maxBytes, r)
  {
    HelpersReady(t, lists);
    r := OnDiskMerge(t, indexes, maxBytes, SourcesOf(t, lists));
  }

  /** Merges the indexes of type `t`: the result is the index of all files together. */
  method MergeType(datasets: seq<OnDiskDataset>, t: IndexType, maxBytes: nat, ghost lists: seq<FileList>)
    returns (r: Tried<IndexFile>)
    requires DatasetsBuilt(datasets, lists) && AllValidFiles(lists)
    requires HaveTypes(datasets, {t}) && |Joined(lists, |lists|).contents| < MAX_FILES
    ensures r.Good? <==> Succeeds(t, lists, maxBytes)
    ensures r.Good? ==> r.value.itype == t && Over(r.value, Joined(lists, |lists|).contents)
    ensures r.Bad? ==> FailsWith(t, lists, maxBytes, r.error)
  {
    var indexes := OpenHelpers(datasets, t, lists);
    var merged := MergeOpened(indexes, t, maxBytes, lists);
    if merged.MergedTo? {
      return Good(IndexFile(t, merged.content));
    }
    return Bad(if merged.BatchTooBig? then MergeError.BatchTooBig else MergeError.Undefined);
  }

  // ----- the whole merge -----

  /** A dataset as it is stored, before it is loaded. */
  datatype StoredDataset = StoredDataset(indices: seq<IndexFile>, files: Bytes, taints: set<string>)

  datatype MergeOutcome = Merged(dataset: StoredDataset) | Failed(error: MergeError)

  predicate SameTaints(datasets: seq<OnDiskDataset>, n: nat)
    requires 0 < n <= |datasets|
    reads datasets
  {
    forall k :: 0 <= k < n ==> datasets[k].taints == datasets[0].taints
  }

  predicate SameTypes(datasets: seq<OnDiskDataset>, n: nat)
    requires 0 < n <= |datasets|
    reads datasets
  {
    forall k :: 0 <= k < n ==>
      TypesOf(datasets[k].indices, |datasets[k].indices|) == TypesOf(datasets[0].indices, |datasets[0].indices|)
  }

  /** The checks that are made before anything is written. */
  method CheckMerge(datasets: seq<OnDiskDataset>) returns (r: Option<MergeError>)
    ensures r == if |datasets| < 2 then Some(TooFewDatasets)
                 else if !SameTaints(datasets, |datasets|) then Some(DifferentTaints)
                 else if !SameTypes(datasets, |datasets|) then Some(DifferentTypes)
                 else None
  {
    if |datasets| < 2 {
      return Some(TooFewDatasets);
    }
    for i := 1 to |datasets|
      invariant SameTaints(datasets, i)
    {
      if datasets[0].taints != datasets[i].taints {
        return Some(DifferentTaints);
      }
    }
    var indexTypes := datasets[0].GetTypes();
    for i := 1 to |datasets|
      invariant SameTypes(datasets, i)
    {
      var tmpTypes := datasets[i].GetTypes();
      if tmpTypes != indexTypes {
        return Some(DifferentTypes);
      }
    }
    return None;
  }

  ghost predicate AllSucceed(types: set<IndexType>, lists: seq<FileList>, maxBytes: nat)
    requires AllValidFiles(lists)
  {
    forall t :: t in types ==> Succeeds(t, lists, maxBytes)
  }

  ghost predicate OneFails(types: set<IndexType>, lists: seq<FileList>, maxBytes: nat, e: MergeError)
    requires AllValidFiles(lists)
  {
    exists t :: t in types && FailsWith(t, lists, maxBytes, e)
  }

  /** Every dataset has indexes of all these types. */
  predicate HaveTypes(datasets: seq<OnDiskDataset>, types: set<IndexType>)
    reads datasets
  {
    forall k :: 0 <= k < |datasets| ==> types <= TypesOf(datasets[k].indices, |datasets[k].indices|)
  }

  /** What a merge of these datasets must store. */
  ghost predicate IsMerged(stored: StoredDataset, types: set<IndexType>, taints: set<string>, f: FileList) {
    && |f.names| == |f.contents| < MAX_FILES && ValidNames(f.names)
    && TypesOf(stored.indices, |stored.indices|) == types
    && AllOver(stored.indices, f.contents)
    && stored.files == NamesFile(f.names, |f.names|)
    && stored.taints == taints
  }

  lemma {:induction false} TypesPrefix(a: seq<IndexFile>, b: seq<IndexFile>, n: nat)
    requires n <= |a| && n <= |b| && forall k :: 0 <= k < n ==> a[k].itype == b[k].itype
    ensures TypesOf(a, n) == TypesOf(b, n)
  {
    if n > 0 {
      TypesPrefix(a, b, n - 1);
    }
  }

  lemma TypesMore(indices: seq<IndexFile>, index: IndexFile)
    ensures TypesOf(indices + [index], |indices| + 1) == TypesOf(indices, |indices|) + {index.itype}
  {
    TypesPrefix(indices + [index], indices, |indices|);
  }

  /** The datasets have all these types, and their merge is within the limits of the file format. */
  ghost predicate Prepared(datasets: seq<OnDiskDataset>, types: set<IndexType>, lists: seq<FileList>)
    reads datasets
  {
    && DatasetsBuilt(datasets, lists) && AllValidFiles(lists)
    && HaveTypes(datasets, types) && |Joined(lists, |lists|).contents| < MAX_FILES
  }

  /** The indexes of the types in `done` have been merged. */
  ghost predicate MergedTypes(indices: seq<IndexFile>, done: set<IndexType>, lists: seq<FileList>, maxBytes: nat)
    requires AllValidFiles(lists) && |Joined(lists, |lists|).contents| < MAX_FILES
  {
    && TypesOf(indices, |indices|) == done && AllOver(indices, Joined(lists, |lists|).contents)
    && AllSucceed(done, lists, maxBytes)
  }

  /** Merges the indexes of one more type. */
  method MergeInto(datasets: seq<OnDiskDataset>, indices: seq<IndexFile>, t: IndexType, maxBytes: nat,
      ghost types: set<IndexType>, ghost lists: seq<FileList>, ghost done: set<IndexType>)
    returns (r: Tried<seq<IndexFile>>)
    requires Prepared(datasets, types, lists) && t in types && MergedTypes(indices, done, lists, maxBytes)
    ensures r.Good? <==> Succeeds(t, lists, maxBytes)
    ensures r.Good? ==> MergedTypes(r.value, done + {t}, lists, maxBytes)
    ensures r.Bad? ==> FailsWith(t, lists, maxBytes, r.error)
  {
    OfOneType(datasets, types, t);
    var index := MergeType(datasets, t, maxBytes, lists);
    r := Append(indices, index, Joined(lists, |lists|).contents);
  }

  method Append(indices: seq<IndexFile>, index: Tried<IndexFile>, ghost contents: seq<Bytes>)
    returns (r: Tried<seq<IndexFile>>)
    requires |contents| <= MAX_FILES && AllOver(indices, contents) && (index.Good? ==> Over(index.value, contents))
    ensures index.Bad? ==> r == Bad(index.error)
    ensures index.Good? ==>
      && r.Good? && TypesOf(r.value, |r.value|) == TypesOf(indices, |indices|) + {index.value.itype}
      && AllOver(r.value, contents)
  {
    if index.Bad? {
      return Bad(index.error);
    }
    IndexMore(indices, index.value, contents);
    r := Good(indices + [index.value]);
  }

  lemma IndexMore(indices: seq<IndexFile>, index: IndexFile, contents: seq<Bytes>)
    requires |contents| <= MAX_FILES && AllOver(indices, contents) && Over(index, contents)
    ensures AllOver(indices + [index], contents)
    ensures TypesOf(indices + [index], |indices| + 1) == TypesOf(indices, |indices|) + {index.itype}
  {
    TypesMore(indices, index);
    OverMore(indices, index, contents);
  }

  lemma OverMore(indices: seq<IndexFile>, index: IndexFile, contents: seq<Bytes>)
    requires |contents| <= MAX_FILES && AllOver(indices, contents) && Over(index, contents)
    ensures AllOver(indices + [index], contents)
  {
    var more := indices + [index];
    forall k | 0 <= k < |more| ensures Over(more[k], contents) {
      assert more[k] == if k < |indices| then indices[k] else index;
    }
  }

  /** Merges the indexes of all types, in any order; the first that fails ends it. */
  method MergeTypes(datasets: seq<OnDiskDataset>, types: set<IndexType>, maxBytes: nat, ghost lists: seq<FileList>)
    returns (r: Tried<seq<IndexFile>>)
    requires Prepared(datasets, types, lists)
    ensures r.Good? <==> AllSucceed(types, lists, maxBytes)
    ensures r.Good? ==> TypesOf(r.value, |r.value|) == types && AllOver(r.value, Joined(lists, |lists|).contents)
    ensures r.Bad? ==> OneFails(types, lists, maxBytes, r.error)
  {
    r := Good([]);
    ghost var done := {};
    var rest := types;
    while rest != {}
      invariant done + rest == types && r.Good? && MergedTypes(r.value, done, lists, maxBytes)
      decreases rest
    {
      var t :| t in rest;
      r := MergeInto(datasets, r.value, t, maxBytes, types, lists, done);
      if r.Bad? {
        return;
      }
      rest, done := rest - {t}, done + {t};
    }
    assert done == types;
  }

  lemma OfOneType(datasets: seq<OnDiskDataset>, types: set<IndexType>, t: IndexType)
    requires HaveTypes(datasets, types) && t in types
    ensures HaveTypes(datasets, {t})
  {
    forall k | 0 <= k < |datasets| ensures {t} <= TypesOf(datasets[k].indices, |datasets[k].indices|) {
      assert types <= TypesOf(datasets[k].indices, |datasets[k].indices|);
    }
  }

  /** Writes the names of all datasets, one dataset after the other. */
  method MergeNames(datasets: seq<OnDiskDataset>, ghost lists: seq<FileList>) returns (files: Bytes)
    requires DatasetsBuilt(datasets, lists)
    ensures files == NamesFile(Joined(lists, |lists|).names, |Joined(lists, |lists|).names|)
  {
    files := [];
    for i := 0 to |datasets|
      invariant NamesWritten(lists, i, files)
    {
      var names := NamesOf(datasets[i], lists[i]);
      var more := WriteNamesFile(names);
      NamesMore(lists, i, files);
      files := files + more;
    }
  }

  /** The names of the first `n` datasets have been written. */
  ghost predicate NamesWritten(lists: seq<FileList>, n: nat, files: Bytes) {
    n <= |lists| && files == NamesFile(Joined(lists, n).names, |Joined(lists, n).names|)
  }

  lemma NamesMore(lists: seq<FileList>, n: nat, files: Bytes)
    requires n < |lists| && NamesWritten(lists, n, files)
    ensures NamesWritten(lists, n + 1, files + NamesFile(lists[n].names, |lists[n].names|))
  {
    NamesFileAppend(Joined(lists, n).names, lists[n].names, |lists[n].names|);
  }

  method NamesOf(dataset: OnDiskDataset, ghost f: FileList) returns (names: seq<Bytes>)
    requires dataset.Built(f)
    ensures names == f.names
  {
    names := ForEachFilename(dataset.filesIndex.files);
    LinesOfNames(f.names, 0);
    assert f.names[0..] == f.names;
  }

  method WriteNamesFile(names: seq<Bytes>) returns (files: Bytes)
    ensures files == NamesFile(names, |names|)
  {
    files := [];
    for k := 0 to |names|
      invariant files == NamesFile(names, k)
    {
      files := files + (names[k] + [NEWLINE]);
    }
  }

  /**
   * `merge`: fails exactly for the reasons given, and otherwise stores indexes and names that are
   * those of one dataset built from the files of all, in order.
   */
  method Merge(datasets: seq<OnDiskDataset>, maxBytes: nat, ghost lists: seq<FileList>) returns (r: MergeOutcome)
    requires DatasetsBuilt(datasets, lists) && AllValidFiles(lists)
    requires |Joined(lists, |lists|).contents| < MAX_FILES
    ensures r.Failed? <==>
      || |datasets| < 2 || !SameTaints(datasets, |datasets|) || !SameTypes(datasets, |datasets|)
      || !AllSucceed(TypesOf(datasets[0].indices, |datasets[0].indices|), lists, maxBytes)
    ensures r.Failed? ==>
      if |datasets| < 2 then r.error == TooFewDatasets
      else if !SameTaints(datasets, |datasets|) then r.error == DifferentTaints
      else if !SameTypes(datasets, |datasets|) then r.error == DifferentTypes
      else OneFails(TypesOf(datasets[0].indices, |datasets[0].indices|), lists, maxBytes, r.error)
    ensures r.Merged? ==>
      |datasets| >= 2 &&
      IsMerged(r.dataset, TypesOf(datasets[0].indices, |datasets[0].indices|), datasets[0].taints, Joined(lists, |lists|))
  {
    var error := CheckMerge(datasets);
    if error.Some? {
      return Failed(error.value);
    }
    var types := datasets[0].GetTypes();
    SameTypesHave(datasets, types);
    r := MergeChecked(datasets, types, datasets[0].taints, maxBytes, lists);
  }

  lemma SameTypesHave(datasets: seq<OnDiskDataset>, types: set<IndexType>)
    requires datasets != [] && SameTypes(datasets, |datasets|) && types == TypesOf(datasets[0].indices, |datasets[0].indices|)
    ensures HaveTypes(datasets, types)
  {
  }

  /** The merge, once all checks have succeeded. */
  method MergeChecked(datasets: seq<OnDiskDataset>, types: set<IndexType>, taints: set<string>, maxBytes: nat,
      ghost lists: seq<FileList>)
    returns (r: MergeOutcome)
    requires Prepared(datasets, types, lists)
    ensures r.Merged? <==> AllSucceed(types, lists, maxBytes)
    ensures r.Failed? ==> OneFails(types, lists, maxBytes, r.error)
    ensures r.Merged? ==> IsMerged(r.dataset, types, taints, Joined(lists, |lists|))
  {
    JoinedValid(lists, |lists|);
    var indices := MergeTypes(datasets, types, maxBytes, lists);
    if indices.Bad? {
      return Failed(indices.error);
    }
    var files := MergeNames(datasets, lists);
    return Merged(StoredDataset(indices.value, files, taints));
  }

  /** Loads a merged dataset; queries on it give what they gave on its parts, in order. */
  method Load(stored: StoredDataset, ghost types: set<IndexType>, ghost taints: set<string>, ghost f: FileList)
    returns (d: OnDiskDataset)
    requires IsMerged(stored, types, taints, f) && SmallFiles(stored)
    ensures fresh(d) && d.Built(f) && d.taints == taints && TypesOf(d.indices, |d.indices|) == types
  {
    var filesIndex := new OnDiskFileIndex(stored.files, None, f.names);
    d := new OnDiskDataset(stored.indices, filesIndex, stored.taints);
  }

  /** The sizes of the files of a merged dataset fit into 64 bits. */
  predicate SmallFiles(stored: StoredDataset) {
    && |stored.files| < 0x1_0000_0000_0000_0000
    && forall k :: 0 <= k < |stored.indices| ==> |stored.indices[k].file| < 0x1_0000_0000_0000_0000
  }

  /**
   * Merging, loading and querying: the result is what the query gives on each of the datasets, one
   * after the other. `None` if the merge fails.
   */
  method QueryMerged(datasets: seq<OnDiskDataset>, maxBytes: nat, q: PatternQuery, ghost lists: seq<FileList>)
    returns (r: MergeOutcome, out: Option<seq<Bytes>>)
    requires DatasetsBuilt(datasets, lists) && AllValidFiles(lists) && SmallCounts(q)
    requires |Joined(lists, |lists|).contents| < MAX_FILES
    ensures out.Some? <==> r.Merged? && SmallFiles(r.dataset)
    ensures out.Some? ==> datasets != []
    ensures out.Some? ==> out.value == AllFound(TypesOf(datasets[0].indices, |datasets[0].indices|), q, lists, |lists|)
  {
    r := Merge(datasets, maxBytes, lists);
    if r.Failed? || !SmallFiles(r.dataset) {
      return r, None;
    }
    ghost var types, f := TypesOf(datasets[0].indices, |datasets[0].indices|), Joined(lists, |lists|);
    var merged := Load(r.dataset, types, datasets[0].taints, f);
    var names := merged.Execute(q, f);
    FoundJoined(types, q, lists, |lists|);
    out := Some(names);
  }
}
