/** Querying a dataset, and merging several into one (`OnDiskDataset`). */
module OnDiskDatasets {
  import opened Core
  import opened Codec
  import opened IndexFormat
  import opened Ngrams
  import opened GramConversion
  import opened InvertedIndex
  import opened Queries
  import opened QueryPlan
  import QueryOptimizer
  import opened QueryRun
  import opened QueryResults
  import opened SortedRuns
  import opened OnDiskFileIndexes

  /** One index of a dataset: the file and the type it was opened with. */
  datatype IndexFile = IndexFile(itype: IndexType, file: Bytes)

  /** What a dataset was built from: the names and the contents of its files. */
  datatype FileList = FileList(names: seq<Bytes>, contents: seq<Bytes>)

  ghost predicate ValidFiles(f: FileList) {
    |f.names| == |f.contents| < MAX_FILES && ValidNames(f.names)
  }

  /** `index` is the index of its type over these files. */
  ghost predicate IndexBuilt(index: IndexFile, f: FileList)
    requires ValidFiles(f)
  {
    index.file == IndexOf(index.itype, f.contents) && |index.file| < 0x1_0000_0000_0000_0000
  }

  ghost predicate AllBuilt(indices: seq<IndexFile>, f: FileList)
    requires ValidFiles(f)
  {
    forall k :: 0 <= k < |indices| ==> IndexBuilt(indices[k], f)
  }

  /** The types of the first `n` indexes. */
  function TypesOf(indices: seq<IndexFile>, n: nat): set<IndexType>
    requires n <= |indices|
  {
    if n == 0 then {} else TypesOf(indices, n - 1) + {indices[n - 1].itype}
  }

  // ----- looking up n-grams -----

  /** The run of an n-gram in the first index of its type; `None` is an error. */
  function Lookup(indices: seq<IndexFile>, g: PrimitiveQuery): Option<Bytes> {
    if indices == [] then None
    else if indices[0].itype == g.itype then
      if RunArraySize(NUM_TRIGRAMS) <= |indices[0].file| then GetRun(indices[0].file, NUM_TRIGRAMS, g.trigram) else None
    else Lookup(indices[1..], g)
  }

  /** What `query` hands to `Query::run`; that never asks for an n-gram without an index. */
  function Oracle(indices: seq<IndexFile>): RunSource {
    (g: PrimitiveQuery) => var r := Lookup(indices, g); if r.Some? then r.value else []
  }

  lemma BuiltRun(index: IndexFile, f: FileList, v: TriGram)
    requires ValidFiles(f) && IndexBuilt(index, f)
    ensures RunArraySize(NUM_TRIGRAMS) <= |index.file|
    ensures GetRun(index.file, NUM_TRIGRAMS, v) == Some(EncodeRun(Postings(GramLists(index.itype, f.contents), v)))
  {
    var runs := Inverted(GramLists(index.itype, f.contents));
    ReadBack(index.itype, runs, v);
    assert runs[v] == Postings(GramLists(index.itype, f.contents), v);
  }

  lemma {:induction false} TypesTail(indices: seq<IndexFile>, n: nat, t: IndexType)
    requires 0 < n <= |indices|
    ensures t in TypesOf(indices, n) <==> t == indices[0].itype || t in TypesOf(indices[1..], n - 1)
  {
    if n > 1 {
      TypesTail(indices, n - 1, t);
      assert indices[1..][n - 2] == indices[n - 1];
    }
  }

  /** Looking up an n-gram of an indexed type gives its posting list. */
  lemma {:induction false} LookupBuilt(indices: seq<IndexFile>, f: FileList, g: PrimitiveQuery)
    requires ValidFiles(f) && AllBuilt(indices, f) && g.itype in TypesOf(indices, |indices|)
    ensures Lookup(indices, g) == Some(EncodeRun(Postings(GramLists(g.itype, f.contents), g.trigram)))
    decreases |indices|
  {
    if indices[0].itype == g.itype {
      BuiltRun(indices[0], f, g.trigram);
    } else {
      TypesTail(indices, |indices|, g.itype);
      assert AllBuilt(indices[1..], f);
      LookupBuilt(indices[1..], f, g);
    }
  }

  lemma OracleBuilt(indices: seq<IndexFile>, f: FileList, g: PrimitiveQuery, x: int)
    requires ValidFiles(f) && AllBuilt(indices, f) && g.itype in TypesOf(indices, |indices|)
    ensures Canonical(Oracle(indices)(g))
    ensures Contains(Oracle(indices), x)(g) <==> 0 <= x < |f.contents| && InFile(f.contents[x])(g)
  {
    LookupBuilt(indices, f, g);
    var lists := GramLists(g.itype, f.contents);
    DecodeEncode(Postings(lists, g.trigram));
    PostingsExactly(lists, g.trigram, x);
  }

  // ----- the result that is due -----

  /** Which files satisfy the plan of `q`. */
  function Satisfies(types: set<IndexType>, q: PatternQuery, contents: seq<Bytes>): nat -> bool {
    (i: nat) => i < |contents| && SatisfiesPlan(types, q, contents[i])
  }

  predicate SatisfiesPlan(types: set<IndexType>, q: PatternQuery, file: Bytes) {
    Holds(Planned(types, q), InFile(file))
  }

  function NamesAt(names: seq<Bytes>, ids: seq<nat>): (r: seq<Bytes>)
    requires forall k :: 0 <= k < |ids| ==> ids[k] < |names|
    ensures |r| == |ids| && forall k :: 0 <= k < |r| ==> r[k] == names[ids[k]]
  {
    seq(|ids|, k requires 0 <= k < |ids| => names[ids[k]])
  }

  /** The names of the files that satisfy the plan, in the order of the dataset. */
  function Found(types: set<IndexType>, q: PatternQuery, f: FileList): seq<Bytes>
    requires |f.names| == |f.contents|
  {
    NamesAt(f.names, Select(|f.contents|, Satisfies(types, q, f.contents)))
  }

  /** The ids that the run of the optimized plan must have. */
  lemma RunFinds(indices: seq<IndexFile>, f: FileList, q: PatternQuery, plan: NgramQuery, view: FileSet)
    requires ValidFiles(f) && AllBuilt(indices, f)
    requires plan == QueryOptimizer.Optimized(Planned(TypesOf(indices, |indices|), q))
    requires Fits(plan, TypesOf(indices, |indices|)) && Answers(plan, Oracle(indices), view)
    ensures var sat := Satisfies(TypesOf(indices, |indices|), q, f.contents);
      && (forall x: nat :: x < |f.contents| ==> (view.Has(x) <==> sat(x)))
      && (view.Everything? || forall x :: x in view.ids ==> 0 <= x < |f.contents|)
  {
    var types, oracle := TypesOf(indices, |indices|), Oracle(indices);
    var sat := Satisfies(types, q, f.contents);
    forall x: nat | x < |f.contents| ensures view.Has(x) <==> sat(x) {
      SameAsFile(indices, f, plan, x);
      QueryOptimizer.OptimizedSame(Planned(types, q), InFile(f.contents[x]));
    }
    if view.Only? {
      forall x | x in view.ids ensures 0 <= x < |f.contents| {
        assert view.Has(x);
        if !(0 <= x < |f.contents|) {
          SameAsNowhere(indices, f, plan, x);
        }
      }
    }
  }

  lemma SameAsFile(indices: seq<IndexFile>, f: FileList, plan: NgramQuery, x: nat)
    requires ValidFiles(f) && AllBuilt(indices, f) && Fits(plan, TypesOf(indices, |indices|)) && x < |f.contents|
    ensures Holds(plan, Contains(Oracle(indices), x)) == Holds(plan, InFile(f.contents[x]))
  {
    var types := TypesOf(indices, |indices|);
    forall g: PrimitiveQuery | g.itype in types ensures Contains(Oracle(indices), x)(g) == InFile(f.contents[x])(g) {
      OracleBuilt(indices, f, g, x);
    }
    HoldsFits(plan, types, Contains(Oracle(indices), x), InFile(f.contents[x]));
  }

  lemma SameAsNowhere(indices: seq<IndexFile>, f: FileList, plan: NgramQuery, x: int)
    requires ValidFiles(f) && AllBuilt(indices, f) && Fits(plan, TypesOf(indices, |indices|))
    requires !(0 <= x < |f.contents|)
    ensures Holds(plan, Contains(Oracle(indices), x)) == Holds(plan, Nowhere())
  {
    var types := TypesOf(indices, |indices|);
    forall g: PrimitiveQuery | g.itype in types ensures Contains(Oracle(indices), x)(g) == Nowhere()(g) {
      OracleBuilt(indices, f, g, x);
    }
    HoldsFits(plan, types, Contains(Oracle(indices), x), Nowhere());
  }

  lemma {:induction false} SelectAll(n: nat, p: nat -> bool)
    requires forall i: nat :: i < n ==> p(i)
    ensures Select(n, p) == seq(n, i => i)
  {
    if n > 0 {
      SelectAll(n - 1, p);
    }
  }

  // ----- the class -----

  class OnDiskDataset {
    var indices: seq<IndexFile>
    const filesIndex: OnDiskFileIndex
    var taints: set<string>

    constructor (indices: seq<IndexFile>, filesIndex: OnDiskFileIndex, taints: set<string>)
      ensures this.indices == indices && this.filesIndex == filesIndex && this.taints == taints
    {
      this.indices, this.filesIndex, this.taints := indices, filesIndex, taints;
    }

    /** The files on disk are the indexes and the name list of `f`. */
    ghost predicate Built(f: FileList)
      reads this
    {
      ValidFiles(f) && AllBuilt(indices, f) && filesIndex.Lists(f.names)
    }

    method GetTypes() returns (types: set<IndexType>)
      ensures types == TypesOf(indices, |indices|)
    {
      types := {};
      for k := 0 to |indices|
        invariant types == TypesOf(indices, k)
      {
        types := types + {indices[k].itype};
      }
    }

    /** `execute`: plan, optimize, run, and look up the names. */
    method Execute(q: PatternQuery, ghost f: FileList) returns (out: seq<Bytes>)
      requires Built(f) && SmallCounts(q)
      ensures out == Found(TypesOf(indices, |indices|), q, f)
    {
      var types := GetTypes();
      var plan := Plan(types, q);
      PlannedFits(types, q);
      QueryOptimizer.OptimizedFits(plan, types);
      plan := QueryOptimizer.QOptimize(plan);
      OracleCanonical(f);
      var result := QueryRun.Run(plan, Oracle(indices), types);
      ghost var view := result.View();
      RunFinds(indices, f, q, plan, view);
      out := WriteNames(result, f, Satisfies(types, q, f.contents));
    }

    lemma OracleCanonical(f: FileList)
      requires Built(f)
      ensures AllCanonical(Oracle(indices), TypesOf(indices, |indices|))
    {
      forall g: PrimitiveQuery | g.itype in TypesOf(indices, |indices|) ensures Canonical(Oracle(indices)(g)) {
        OracleBuilt(indices, f, g, 0);
      }
    }

    /** The names of the files in a result. */
    method WriteNames(result: QueryResult, ghost f: FileList, ghost sat: nat -> bool) returns (out: seq<Bytes>)
      requires Built(f) && result.Valid()
      requires forall x: nat :: x < |f.contents| ==> (result.View().Has(x) <==> sat(x))
      requires result.View().Everything? || forall x :: x in result.View().ids ==> 0 <= x < |f.contents|
      modifies result.results
      ensures out == NamesAt(f.names, Select(|f.contents|, sat))
    {
      if result.IsEverything() {
        out := ForEachFilename(filesIndex.files);
        LinesOfNames(f.names, 0);
        SelectAll(|f.contents|, sat);
        assert f.names[0..] == f.names;
      } else {
        result.results.EmptyIsEmpty();
        result.results.Decompress();
        SelectUnique(|f.contents|, sat, result.results.sequence);
        out := LookUpNames(result.results.sequence, f);
      }
    }

    method LookUpNames(ids: Run, ghost f: FileList) returns (out: seq<Bytes>)
      requires Built(f) && forall k :: 0 <= k < |ids| ==> ids[k] < |f.names|
      ensures |out| == |ids| && forall k :: 0 <= k < |ids| ==> out[k] == f.names[ids[k]]
    {
      out := [];
      for k := 0 to |ids|
        invariant |out| == k && forall j :: 0 <= j < k ==> out[j] == f.names[ids[j]]
      {
        var name := filesIndex.GetFileName(ids[k], f.names);
        out := out + [name];
      }
    }
  }

  // ----- what that means -----

  /**
   * No file is lost: a file that satisfies the query, pattern by pattern, is among the results. With
   * a wide8 index, its generator must have seen the wide windows of the patterns; see `Matches`.
   */
  lemma NoFileLost(types: set<IndexType>, q: PatternQuery, f: FileList, i: nat)
    requires |f.names| == |f.contents| && i < |f.contents| && Holds(q, MatchesIn(types, f.contents[i]))
    ensures f.names[i] in Found(types, q, f)
  {
    NoFalseNegatives(types, q, f.contents[i]);
    var ids := Select(|f.contents|, Satisfies(types, q, f.contents));
    SelectMember(|f.contents|, Satisfies(types, q, f.contents), i);
    var k :| 0 <= k < |ids| && ids[k] == i;
    assert Found(types, q, f)[k] == f.names[i];
  }

  function Both(a: FileList, b: FileList): FileList {
    FileList(a.names + b.names, a.contents + b.contents)
  }

  lemma NamesAtBoth(a: seq<Bytes>, b: seq<Bytes>, ids: seq<nat>, more: seq<nat>)
    requires forall k :: 0 <= k < |ids| ==> ids[k] < |a|
    requires forall k :: 0 <= k < |more| ==> more[k] < |b|
    ensures var both := ids + Shift(|a|, more);
      && (forall k :: 0 <= k < |both| ==> 0 <= both[k] < |a + b|)
      && NamesAt(a + b, both) == NamesAt(a, ids) + NamesAt(b, more)
  {
    var both := ids + Shift(|a|, more);
    forall k | 0 <= k < |both|
      ensures 0 <= both[k] < |a + b|
      ensures (a + b)[both[k]] == if k < |ids| then a[ids[k]] else b[more[k - |ids|]]
    {
      assert k >= |ids| ==> both[k] == |a| + more[k - |ids|];
    }
  }

  lemma SatisfiesLeft(types: set<IndexType>, q: PatternQuery, a: seq<Bytes>, b: seq<Bytes>)
    ensures Agree(|a|, Satisfies(types, q, a), Satisfies(types, q, a + b), 0)
  {
    forall i: nat | i < |a| ensures (a + b)[i] == a[i] {
    }
  }

  lemma SatisfiesRight(types: set<IndexType>, q: PatternQuery, a: seq<Bytes>, b: seq<Bytes>)
    ensures Agree(|b|, Satisfies(types, q, b), Satisfies(types, q, a + b), |a|)
  {
    forall i: nat | i < |b| ensures (a + b)[|a| + i] == b[i] {
    }
  }

  lemma SelectBoth(types: set<IndexType>, q: PatternQuery, a: seq<Bytes>, b: seq<Bytes>)
    ensures Select(|a| + |b|, Satisfies(types, q, a + b))
         == Select(|a|, Satisfies(types, q, a)) + Shift(|a|, Select(|b|, Satisfies(types, q, b)))
  {
    SatisfiesLeft(types, q, a, b);
    SatisfiesRight(types, q, a, b);
    SelectJoined(|a|, |b|, Satisfies(types, q, a + b), Satisfies(types, q, a), Satisfies(types, q, b));
  }

  /** A query on two datasets merged gives the results on the first followed by those on the second. */
  lemma FoundBoth(types: set<IndexType>, q: PatternQuery, a: FileList, b: FileList)
    requires |a.names| == |a.contents| && |b.names| == |b.contents|
    ensures Found(types, q, Both(a, b)) == Found(types, q, a) + Found(types, q, b)
  {
    SelectBoth(types, q, a.contents, b.contents);
    NamesAtBoth(a.names, b.names, Select(|a.contents|, Satisfies(types, q, a.contents)),
      Select(|b.contents|, Satisfies(types, q, b.contents)));
  }
}
