/** Indexing many files into several datasets, merging them as they pile up (`Indexer`). */
module Indexers {
  import opened Core
  import opened InvertedIndex
  import opened OnDiskFileIndexes
  import opened OnDiskDatasets
  import opened FlatIndexBuilders
  import opened BitmapIndexBuilders
  import opened Compaction
  import opened DatasetBuilders

  const INDEXER_COMPACT_THRESHOLD: nat := 20

  /** The names of the files of the created datasets, by dataset id. */
  type Contents = map<string, seq<Bytes>>

  function FilesIn(contents: Contents, id: string): seq<Bytes> {
    if id in contents then contents[id] else []
  }

  function Times(files: seq<Bytes>, f: Bytes): nat {
    multiset(files)[f]
  }

  /** How often the file `f` occurs in the first `n` datasets. */
  ghost function Count(contents: Contents, cs: seq<Candidate>, n: nat, f: Bytes): nat
    requires n <= |cs|
  {
    if n == 0 then 0 else Count(contents, cs, n - 1, f) + Times(FilesIn(contents, cs[n - 1].id), f)
  }

  lemma {:induction false} CountPrefix(contents: Contents, a: seq<Candidate>, b: seq<Candidate>, n: nat, f: Bytes)
    requires n <= |a| && n <= |b| && forall i :: 0 <= i < n ==> a[i] == b[i]
    ensures Count(contents, a, n, f) == Count(contents, b, n, f)
  {
    if n > 0 {
      CountPrefix(contents, a, b, n - 1, f);
    }
  }

  lemma CountAppend(contents: Contents, cs: seq<Candidate>, c: Candidate, f: Bytes)
    ensures Count(contents, cs + [c], |cs| + 1, f) == Count(contents, cs, |cs|, f) + Times(FilesIn(contents, c.id), f)
  {
    CountPrefix(contents, cs + [c], cs, |cs|, f);
  }

  lemma {:induction false} CountRemoved(contents: Contents, cs: seq<Candidate>, j: nat, f: Bytes)
    requires j < |cs|
    ensures Count(contents, cs, |cs|, f)
         == Count(contents, Removed(cs, j), |cs| - 1, f) + Times(FilesIn(contents, cs[j].id), f)
    decreases |cs|
  {
    var n := |cs| - 1;
    var init := cs[..n];
    CountPrefix(contents, cs, init, n, f);
    if j == n {
      assert Removed(cs, j) == init;
    } else {
      CountRemoved(contents, init, j, f);
      RemovedInit(cs, j);
      CountAppend(contents, Removed(init, j), cs[n], f);
    }
  }

  lemma SameRest(a: seq<Candidate>, i: nat, b: seq<Candidate>, j: nat)
    requires multiset(a) == multiset(b) && i < |a| && j < |b| && a[i] == b[j]
    ensures multiset(Removed(a, i)) == multiset(Removed(b, j))
  {
    MultisetRemoved(a, i);
    MultisetRemoved(b, j);
    forall c ensures multiset(Removed(a, i))[c] == multiset(Removed(b, j))[c] {
      assert multiset(a)[c] == multiset(b)[c];
    }
  }

  /** The order of the datasets does not matter. */
  lemma {:induction false} CountPermuted(contents: Contents, a: seq<Candidate>, b: seq<Candidate>, f: Bytes)
    requires multiset(a) == multiset(b)
    ensures |a| == |b| && Count(contents, a, |a|, f) == Count(contents, b, |b|, f)
    decreases |a|
  {
    SameSize(a, b);
    if a != [] {
      var n := |a| - 1;
      assert a[n] in multiset(b);
      var j :| 0 <= j < |b| && b[j] == a[n];
      SameRest(a, n, b, j);
      CountPermuted(contents, Removed(a, n), Removed(b, j), f);
      CountRemoved(contents, a, n, f);
      CountRemoved(contents, b, j, f);
    }
  }

  lemma SameSize(a: seq<Candidate>, b: seq<Candidate>)
    requires multiset(a) == multiset(b)
    ensures |a| == |b|
  {
    assert |multiset(a)| == |multiset(b)|;
  }

  lemma {:induction false} CountConcat(contents: Contents, a: seq<Candidate>, b: seq<Candidate>, n: nat, f: Bytes)
    requires n <= |b|
    ensures Count(contents, a + b, |a| + n, f) == Count(contents, a, |a|, f) + Count(contents, b, n, f)
  {
    if n > 0 {
      CountConcat(contents, a, b, n - 1, f);
      assert (a + b)[|a| + n - 1] == b[n - 1];
    } else {
      CountPrefix(contents, a + b, a, |a|, f);
    }
  }

  /** Datasets that are not about `id` do not notice when it gets contents. */
  lemma {:induction false} CountOther(contents: Contents, cs: seq<Candidate>, n: nat, id: string, files: seq<Bytes>, f: Bytes)
    requires n <= |cs| && forall i :: 0 <= i < |cs| ==> cs[i].id != id
    ensures Count(contents[id := files], cs, n, f) == Count(contents, cs, n, f)
  {
    if n > 0 {
      CountOther(contents, cs, n - 1, id, files, f);
    }
  }

  lemma TimesConcat(a: seq<Bytes>, b: seq<Bytes>, f: Bytes)
    ensures Times(a + b, f) == Times(a, f) + Times(b, f)
  {
  }

  /** Some datasets and the rest of them hold what all of them hold. */
  lemma CountSplit(contents: Contents, cs: seq<Candidate>, part: seq<Candidate>, f: Bytes)
    requires DistinctIds(cs) && multiset(part) <= multiset(cs)
    ensures var rest := WithoutPart(cs, |cs|, part);
      Count(contents, cs, |cs|, f) == Count(contents, part, |part|, f) + Count(contents, rest, |rest|, f)
  {
    var rest := WithoutPart(cs, |cs|, part);
    PartAndRest(cs, part);
    CountPermuted(contents, part + rest, cs, f);
    CountConcat(contents, part, rest, |rest|, f);
  }

  // ----- taking datasets out -----

  predicate DistinctIds(cs: seq<Candidate>) {
    forall i, j :: 0 <= i < j < |cs| ==> cs[i].id != cs[j].id
  }

  /** The first `n` datasets without those of `part`. */
  function WithoutPart(cs: seq<Candidate>, n: nat, part: seq<Candidate>): (r: seq<Candidate>)
    requires n <= |cs|
    ensures |r| <= n
  {
    if n == 0 then [] else WithoutPart(cs, n - 1, part) + (if cs[n - 1] in part then [] else [cs[n - 1]])
  }

  /** How often `c` occurs among the first `n`. */
  ghost function Occur(cs: seq<Candidate>, n: nat, c: Candidate): nat
    requires n <= |cs|
  {
    if n == 0 then 0 else Occur(cs, n - 1, c) + (if cs[n - 1] == c then 1 else 0)
  }

  lemma {:induction false} OccurIs(cs: seq<Candidate>, n: nat, c: Candidate)
    requires n <= |cs|
    ensures multiset(cs[..n])[c] == Occur(cs, n, c)
  {
    if n > 0 {
      OccurIs(cs, n - 1, c);
      PrefixMore(cs, n - 1);
    }
  }

  lemma {:induction false} OccurPrefix(a: seq<Candidate>, b: seq<Candidate>, n: nat, c: Candidate)
    requires n <= |a|
    ensures Occur(a + b, n, c) == Occur(a, n, c)
  {
    if n > 0 {
      OccurPrefix(a, b, n - 1, c);
      assert (a + b)[n - 1] == a[n - 1];
    }
  }

  lemma {:induction false} WithoutOccur(cs: seq<Candidate>, n: nat, part: seq<Candidate>, c: Candidate)
    requires n <= |cs|
    ensures Occur(WithoutPart(cs, n, part), |WithoutPart(cs, n, part)|, c) == if c in part then 0 else Occur(cs, n, c)
  {
    if n > 0 {
      var rest := WithoutPart(cs, n - 1, part);
      WithoutOccur(cs, n - 1, part, c);
      OccurPrefix(rest, [cs[n - 1]], |rest|, c);
      assert rest + [] == rest;
    }
  }

  lemma WithoutCount(cs: seq<Candidate>, part: seq<Candidate>, c: Candidate)
    ensures multiset(WithoutPart(cs, |cs|, part))[c] == if c in part then 0 else multiset(cs)[c]
  {
    var rest := WithoutPart(cs, |cs|, part);
    WithoutOccur(cs, |cs|, part, c);
    OccurIs(cs, |cs|, c);
    OccurIs(rest, |rest|, c);
    assert cs[..|cs|] == cs && rest[..|rest|] == rest;
  }

  lemma {:induction false} OnlyOnce(cs: seq<Candidate>, n: nat, c: Candidate)
    requires n <= |cs| && DistinctIds(cs)
    ensures multiset(cs[..n])[c] <= 1
  {
    if n > 0 {
      OnlyOnce(cs, n - 1, c);
      PrefixMore(cs, n - 1);
      if cs[n - 1] == c {
        assert c !in cs[..n - 1];
      }
    }
  }

  /** A part and the rest make up the whole. */
  lemma PartAndRest(cs: seq<Candidate>, part: seq<Candidate>)
    requires DistinctIds(cs) && multiset(part) <= multiset(cs)
    ensures multiset(part + WithoutPart(cs, |cs|, part)) == multiset(cs)
  {
    var rest := WithoutPart(cs, |cs|, part);
    assert cs[..|cs|] == cs;
    forall c ensures multiset(part + rest)[c] == multiset(cs)[c] {
      WithoutCount(cs, part, c);
      OnlyOnce(cs, |cs|, c);
      if c in part {
        assert c in multiset(part);
      } else {
        assert c !in multiset(part);
      }
    }
  }

  lemma {:induction false} WithoutFrom(cs: seq<Candidate>, n: nat, part: seq<Candidate>)
    requires n <= |cs| && DistinctIds(cs)
    ensures DistinctIds(WithoutPart(cs, n, part))
    ensures forall c :: c in WithoutPart(cs, n, part) ==> c in cs[..n]
  {
    if n > 0 {
      WithoutFrom(cs, n - 1, part);
      PrefixMore(cs, n - 1);
      forall c | c in WithoutPart(cs, n - 1, part) ensures c.id != cs[n - 1].id {
        var i :| 0 <= i < n - 1 && cs[i] == c;
      }
    }
  }

  lemma SizesSplit(cs: seq<Candidate>, part: seq<Candidate>)
    requires DistinctIds(cs) && multiset(part) <= multiset(cs)
    ensures |part| + |WithoutPart(cs, |cs|, part)| == |cs|
  {
    PartAndRest(cs, part);
    assert |multiset(part + WithoutPart(cs, |cs|, part))| == |multiset(cs)|;
  }

  // ----- the indexer -----

  /** What the world supplies: unused ids, and the sizes of the datasets that are written. */
  datatype World = World(freshId: set<string> -> string, bytesOf: seq<Bytes> -> nat)

  ghost predicate FreshIds(world: World) {
    forall used: set<string> :: world.freshId(used) !in used
  }

  /** A file to be indexed: its size is `None` if it does not exist, and it may still fail to open. */
  datatype Target = Target(name: Bytes, size: Option<nat>, file: Opened)
  {
    predicate Consistent() {
      (file.Mapped? ==> size == Some(|file.data|)) && (name == [] ==> file == CannotOpen)
    }

    /** Whether the file becomes part of a dataset; all others are skipped. */
    predicate Taken() {
      size.Some? && GoodName(name) && file.Mapped?
    }

    /** How often `f` is indexed with this file. */
    function Count(f: Bytes): nat {
      if Taken() && f == name then 1 else 0
    }
  }

  /** How often the file `f` is to be taken among the first `n` targets. */
  ghost function TakenTimes(targets: seq<Target>, n: nat, f: Bytes): nat
    requires n <= |targets|
  {
    if n == 0 then 0
    else TakenTimes(targets, n - 1, f) + targets[n - 1].Count(f)
  }

  ghost predicate SoundParts(builder: DatasetBuilder)
    reads builder, builder.flats, builder.bitmaps, ArraysOf(builder.bitmaps)
  {
    builder.Valid() && builder.InBounds()
  }

  /**
   * The builder is as it should be, and can be saved without an overflow. This is stated of everything
   * equal to `builder`, so that the parts come into a proof only where it names `SoundParts`.
   */
  ghost predicate Sound(builder: DatasetBuilder)
    reads builder, builder.flats, builder.bitmaps, ArraysOf(builder.bitmaps)
  {
    && (builder.kind.FlatKind? ==> builder.bitmaps == []) && (builder.kind.BitmapKind? ==> builder.flats == [])
    && forall b: DatasetBuilder {:trigger SoundParts(b)} :: b == builder ==> SoundParts(b)
  }

  class Indexer {
    const cls: Class
    const world: World
    const flatBuilder: DatasetBuilder
    const bitmapBuilder: DatasetBuilder
    var created: seq<Candidate>
    var contents: Contents

    ghost predicate Valid()
      reads this, flatBuilder, flatBuilder.flats, flatBuilder.bitmaps, ArraysOf(flatBuilder.bitmaps)
      reads bitmapBuilder, bitmapBuilder.flats, bitmapBuilder.bitmaps, ArraysOf(bitmapBuilder.bitmaps)
    {
      && DatasetsOk() && Sound(flatBuilder) && Sound(bitmapBuilder)
      && flatBuilder.kind == FlatKind && bitmapBuilder.kind == BitmapKind
    }

    ghost predicate DatasetsOk()
      reads this
    {
      FreshIds(world) && DistinctIds(created) && forall i :: 0 <= i < |created| ==> created[i].id in contents
    }

    /** How often `f` has been indexed: in created datasets and in the builders. */
    ghost function Indexed(f: Bytes): nat
      reads this, flatBuilder, bitmapBuilder
    {
      InDatasets(f) + Times(flatBuilder.fids, f) + Times(bitmapBuilder.fids, f)
    }

    ghost function InDatasets(f: Bytes): nat
      reads this
    {
      Count(contents, created, |created|, f)
    }

    /** How often `f` is in created datasets and in one of the builders. */
    ghost function HeldBy(builder: DatasetBuilder, f: Bytes): nat
      reads this, builder
    {
      InDatasets(f) + Times(builder.fids, f)
    }

    constructor (types: seq<IndexType>, world: World)
      requires FreshIds(world)
      ensures Valid() && this.world == world && forall f :: Indexed(f) == 0
      ensures flatBuilder.fids == bitmapBuilder.fids == []
    {
      this.cls, this.world := Class({}, AllTypes(types, |types|)), world;
      created, contents := [], map[];
      flatBuilder := new DatasetBuilder(FlatKind, types);
      bitmapBuilder := new DatasetBuilder(BitmapKind, types);
      new;
      assert SoundParts(flatBuilder) && SoundParts(bitmapBuilder);
    }

    /** Registers a new dataset with the given files. */
    method RegisterDataset(files: seq<Bytes>)
      requires DatasetsOk()
      modifies this`created, this`contents
      ensures DatasetsOk() && |created| == |old(created)| + 1
      ensures forall f :: InDatasets(f) == old(InDatasets(f)) + Times(files, f)
    {
      var id := world.freshId(contents.Keys);
      forall f ensures Count(contents[id := files], created + [Candidate(id, cls, |files|, world.bytesOf(files))], |created| + 1, f)
          == Count(contents, created, |created|, f) + Times(files, f) {
        CountOther(contents, created, |created|, id, files, f);
        CountAppend(contents[id := files], created, Candidate(id, cls, |files|, world.bytesOf(files)), f);
      }
      contents := contents[id := files];
      created := created + [Candidate(id, cls, |files|, world.bytesOf(files))];
    }

    /** The files of some datasets, one dataset after the other. */
    method MergedFiles(candidates: seq<Candidate>) returns (merged: seq<Bytes>)
      ensures forall f :: Times(merged, f) == Count(contents, candidates, |candidates|, f)
    {
      merged := [];
      for i := 0 to |candidates|
        invariant forall f :: Times(merged, f) == Count(contents, candidates, i, f)
      {
        var files := FilesIn(contents, candidates[i].id);
        forall f ensures Times(merged + files, f) == Times(merged, f) + Times(files, f) {
          TimesConcat(merged, files, f);
        }
        merged := merged + files;
      }
    }

    /** Merges some of the created datasets into one new dataset. */
    method MergeDatasets(candidates: seq<Candidate>)
      requires DatasetsOk() && multiset(candidates) <= multiset(created)
      modifies this`created, this`contents
      ensures DatasetsOk() && |created| == |old(created)| - |candidates| + 1
      ensures forall f :: InDatasets(f) == old(InDatasets(f))
    {
      var merged := MergedFiles(candidates);
      forall f ensures InDatasets(f) == Times(merged, f)
          + Count(contents, WithoutPart(created, |created|, candidates), |WithoutPart(created, |created|, candidates)|, f) {
        CountSplit(contents, created, candidates, f);
      }
      TakeOut(candidates);
      RegisterDataset(merged);
    }

    method TakeOut(candidates: seq<Candidate>)
      requires DatasetsOk() && multiset(candidates) <= multiset(created)
      modifies this`created
      ensures DatasetsOk() && created == WithoutPart(old(created), |old(created)|, candidates)
      ensures |created| == |old(created)| - |candidates|
    {
      SizesSplit(created, candidates);
      WithoutFrom(created, |created|, candidates);
      assert created[..|created|] == created;
      ghost var all := created;
      created := RemoveDatasets(created, candidates);
      forall i | 0 <= i < |created| ensures created[i].id in contents {
        assert created[i] in all;
      }
    }

    /** Writes the files of a builder as a dataset, and merges datasets while enough are of similar size. */
    method Spill(files: seq<Bytes>)
      requires DatasetsOk()
      modifies this`created, this`contents
      ensures DatasetsOk() && |Smart(created)| < INDEXER_COMPACT_THRESHOLD
      ensures forall f :: InDatasets(f) == old(InDatasets(f)) + Times(files, f)
    {
      RegisterDataset(files);
      var stop := false;
      while !stop
        invariant DatasetsOk() && forall f :: InDatasets(f) == old(InDatasets(f)) + Times(files, f)
        invariant stop ==> |Smart(created)| < INDEXER_COMPACT_THRESHOLD
        decreases |created|, !stop
      {
        var candidates := GetCompactCandidates(created);
        if |candidates| >= INDEXER_COMPACT_THRESHOLD {
          SmartPart(created);
          MergeDatasets(candidates);
        } else {
          stop := true;
        }
      }
    }

    /** `make_spill`: saves a builder, which fits, and starts it anew. */
    method MakeSpill(builder: DatasetBuilder)
      requires DatasetsOk() && Sound(builder)
      modifies this`created, this`contents, builder, builder.flats
      ensures DatasetsOk() && |Smart(created)| < 20
      ensures Sound(builder) && builder.Files() == FileList([], [])
      ensures fresh(builder.flats) && fresh(builder.bitmaps) && fresh(ArraysOf(builder.bitmaps))
      ensures forall f :: InDatasets(f) == old(InDatasets(f)) + Times(old(builder.fids), f)
    {
      assert SoundParts(builder);
      var stored := builder.Save();
      Spill(builder.fids);
      builder.Clear();
      assert SoundParts(builder);
    }

    /** Spills a builder that has no room for a file of `bytes` bytes: then it has. */
    method MakeRoom(builder: DatasetBuilder, bytes: nat)
      requires DatasetsOk() && Sound(builder) && (builder.kind.FlatKind? ==> bytes <= MAX_TRIGRAMS)
      modifies this`created, this`contents, builder, builder.flats
      ensures DatasetsOk() && Sound(builder) && builder.CanStillAdd(bytes) && |builder.fids| <= |old(builder.fids)|
      ensures builder.flats == old(builder.flats) || fresh(builder.flats)
      ensures builder.bitmaps == old(builder.bitmaps) || (fresh(builder.bitmaps) && fresh(ArraysOf(builder.bitmaps)))
      ensures forall f :: HeldBy(builder, f) == old(HeldBy(builder, f))
    {
      if !builder.CanStillAdd(bytes) {
        MakeSpill(builder);
        assert SoundParts(builder);
        builder.RoomWhenEmpty(bytes);
      }
    }

    /** Adds a file to its builder, for which there is room. */
    method AddTo(builder: DatasetBuilder, target: Target)
      requires Sound(builder) && |builder.fids| + 1 < MAX_FILES && target.Consistent()
      requires target.size.Some? && builder.CanStillAdd(target.size.value)
      modifies builder, builder.flats, builder.bitmaps, ArraysOf(builder.bitmaps)
      ensures Sound(builder) && builder.flats == old(builder.flats) && builder.bitmaps == old(builder.bitmaps)
      ensures builder.fids == if target.Taken() then old(builder.fids) + [target.name] else old(builder.fids)
    {
      assert SoundParts(builder);
      assert builder.bitmaps != [] ==> builder.bitmaps[0].CanStillAdd(|builder.fids|);
      var r := builder.Index(target.name, target.file);
      assert SoundParts(builder);
    }

    method AddWithRoom(builder: DatasetBuilder, target: Target)
      requires DatasetsOk() && Sound(builder) && |builder.fids| + 1 < MAX_FILES && target.Consistent()
      requires target.size.Some? && (builder.kind.FlatKind? ==> target.size.value <= MAX_TRIGRAMS)
      modifies this`created, this`contents, builder, builder.flats, builder.bitmaps, ArraysOf(builder.bitmaps)
      ensures DatasetsOk() && Sound(builder) && |builder.fids| <= |old(builder.fids)| + 1
      ensures builder.flats == old(builder.flats) || fresh(builder.flats)
      ensures builder.bitmaps == old(builder.bitmaps) || (fresh(builder.bitmaps) && fresh(ArraysOf(builder.bitmaps)))
      ensures forall f :: HeldBy(builder, f) == old(HeldBy(builder, f)) + target.Count(f)
      ensures target.Taken() ==> builder.fids != [] && builder.fids[|builder.fids| - 1] == target.name
    {
      MakeRoom(builder, target.size.value);
      ghost var files := builder.fids;
      AddTo(builder, target);
      forall f ensures Times(files + [target.name], f) == Times(files, f) + (if f == target.name then 1 else 0) {
        TimesConcat(files, [target.name], f);
      }
    }

    /**
     * Indexes one file: one of more than 20 MiB goes to the bitmaps. A file that cannot be opened or
     * has no content, and a name with line breaks, are skipped; false is the error that the size of the
     * file cannot be found out.
     */
    method Index(target: Target) returns (ok: bool)
      requires Valid() && |flatBuilder.fids| + 1 < MAX_FILES && |bitmapBuilder.fids| + 1 < MAX_FILES && target.Consistent()
      modifies this`created, this`contents, flatBuilder, flatBuilder.flats
      modifies bitmapBuilder, bitmapBuilder.bitmaps, ArraysOf(bitmapBuilder.bitmaps)
      ensures Valid() && ok == target.size.Some?
      ensures flatBuilder.flats == old(flatBuilder.flats) || fresh(flatBuilder.flats)
      ensures bitmapBuilder.bitmaps == old(bitmapBuilder.bitmaps)
        || (fresh(bitmapBuilder.bitmaps) && fresh(ArraysOf(bitmapBuilder.bitmaps)))
      ensures |flatBuilder.fids| <= |old(flatBuilder.fids)| + 1 && |bitmapBuilder.fids| <= |old(bitmapBuilder.fids)| + 1
      ensures forall f :: Indexed(f) == old(Indexed(f)) + target.Count(f)
      ensures target.Taken() && target.size.value > 20_971_520 ==>
        && bitmapBuilder.fids != [] && bitmapBuilder.fids[|bitmapBuilder.fids| - 1] == target.name
        && flatBuilder.fids == old(flatBuilder.fids)
      ensures target.Taken() && target.size.value <= 20_971_520 ==>
        && flatBuilder.fids != [] && flatBuilder.fids[|flatBuilder.fids| - 1] == target.name
        && bitmapBuilder.fids == old(bitmapBuilder.fids)
    {
      if target.size.None? {
        return false;
      }
      if target.size.value > 1024 * 1024 * 20 {
        AddBig(target);
      } else {
        AddSmall(target);
      }
      ok := true;
    }

    method AddBig(target: Target)
      requires Valid() && |bitmapBuilder.fids| + 1 < MAX_FILES && target.Consistent() && target.size.Some?
      modifies this`created, this`contents, bitmapBuilder, bitmapBuilder.bitmaps, ArraysOf(bitmapBuilder.bitmaps)
      ensures Valid() && |bitmapBuilder.fids| <= |old(bitmapBuilder.fids)| + 1
      ensures bitmapBuilder.bitmaps == old(bitmapBuilder.bitmaps)
        || (fresh(bitmapBuilder.bitmaps) && fresh(ArraysOf(bitmapBuilder.bitmaps)))
      ensures target.Taken() ==> bitmapBuilder.fids != [] && bitmapBuilder.fids[|bitmapBuilder.fids| - 1] == target.name
      ensures flatBuilder.fids == old(flatBuilder.fids)
      ensures forall f :: Indexed(f) == old(Indexed(f)) + target.Count(f)
    {
      assert SoundParts(flatBuilder);
      AddWithRoom(bitmapBuilder, target);
      assert SoundParts(flatBuilder);
    }

    method AddSmall(target: Target)
      requires Valid() && |flatBuilder.fids| + 1 < MAX_FILES && target.Consistent()
      requires target.size.Some? && target.size.value <= MAX_TRIGRAMS
      modifies this`created, this`contents, flatBuilder, flatBuilder.flats
      ensures Valid() && |flatBuilder.fids| <= |old(flatBuilder.fids)| + 1
      ensures flatBuilder.flats == old(flatBuilder.flats) || fresh(flatBuilder.flats)
      ensures target.Taken() ==> flatBuilder.fids != [] && flatBuilder.fids[|flatBuilder.fids| - 1] == target.name
      ensures bitmapBuilder.fids == old(bitmapBuilder.fids)
      ensures forall f :: Indexed(f) == old(Indexed(f)) + target.Count(f)
    {
      assert SoundParts(bitmapBuilder);
      AddWithRoom(flatBuilder, target);
      assert SoundParts(bitmapBuilder);
    }

    method SpillRest(builder: DatasetBuilder)
      requires DatasetsOk() && Sound(builder)
      modifies this`created, this`contents, builder, builder.flats
      ensures DatasetsOk() && Sound(builder) && builder.fids == []
      ensures forall f :: InDatasets(f) == old(HeldBy(builder, f))
    {
      if builder.fids != [] {
        MakeSpill(builder);
      }
    }

    /** Writes what is left in the builders: every indexed file is then in exactly one dataset. */
    method Finalize()
      requires Valid()
      modifies this`created, this`contents, flatBuilder, bitmapBuilder, flatBuilder.flats
      ensures Valid() && flatBuilder.fids == bitmapBuilder.fids == [] && forall f :: InDatasets(f) == old(Indexed(f))
    {
      assert SoundParts(bitmapBuilder);
      SpillRest(flatBuilder);
      assert SoundParts(bitmapBuilder) && SoundParts(flatBuilder);
      SpillRest(bitmapBuilder);
      assert SoundParts(flatBuilder);
    }

    /** The loop over all targets; the first whose size cannot be found out ends it. */
    method IndexFiles(targets: seq<Target>) returns (ok: bool)
      requires Valid() && flatBuilder.fids == bitmapBuilder.fids == [] && |targets| < MAX_FILES
      requires forall i :: 0 <= i < |targets| ==> targets[i].Consistent()
      modifies this`created, this`contents, flatBuilder, flatBuilder.flats
      modifies bitmapBuilder, bitmapBuilder.bitmaps, ArraysOf(bitmapBuilder.bitmaps)
      ensures Valid() && ok == forall i :: 0 <= i < |targets| ==> targets[i].size.Some?
      ensures ok ==> flatBuilder.fids == bitmapBuilder.fids == []
      ensures ok ==> forall f :: InDatasets(f) == old(InDatasets(f)) + TakenTimes(targets, |targets|, f)
    {
      for i := 0 to |targets|
        invariant Valid() && forall j :: 0 <= j < i ==> targets[j].size.Some?
        invariant flatBuilder.flats == old(flatBuilder.flats) || fresh(flatBuilder.flats)
        invariant bitmapBuilder.bitmaps == old(bitmapBuilder.bitmaps)
          || (fresh(bitmapBuilder.bitmaps) && fresh(ArraysOf(bitmapBuilder.bitmaps)))
        invariant |flatBuilder.fids| <= i && |bitmapBuilder.fids| <= i
        invariant forall f :: Indexed(f) == old(InDatasets(f)) + TakenTimes(targets, i, f)
      {
        ok := Index(targets[i]);
        if !ok {
          return;
        }
      }
      Finalize();
      ok := true;
    }
  }

  /** The list without the given datasets, which are removed one by one. */
  method RemoveDatasets(all: seq<Candidate>, part: seq<Candidate>) returns (r: seq<Candidate>)
    ensures r == WithoutPart(all, |all|, part)
  {
    r := [];
    for i := 0 to |all|
      invariant r == WithoutPart(all, i, part)
    {
      if all[i] !in part {
        r := r + [all[i]];
      }
    }
  }
}
