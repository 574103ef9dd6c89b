/** Building a dataset from files on disk (`DatasetBuilder`). */
module DatasetBuilders {
  import opened Core
  import opened IndexFormat
  import opened InvertedIndex
  import opened FlatIndexBuilders
  import opened BitmapIndexBuilders
  import opened OnDiskFileIndexes
  import opened OnDiskDatasets
  import opened DatasetMerging

  const RETURN: byte := 13

  datatype BuilderKind = FlatKind | BitmapKind

  /** What comes of opening a file. */
  datatype Opened = CannotOpen | NoContent | Mapped(data: Bytes)

  /** How adding a file ends: all but the first are errors. */
  datatype Outcome = Added | InvalidName | OpenFailed | EmptyFile | TooManyFiles

  predicate GoodName(name: Bytes) {
    RETURN !in name && NEWLINE !in name
  }

  // ----- builders of the flat kind -----

  /** An index builder of type `t` that has seen exactly the files `seen`. */
  ghost predicate Follows(builder: FlatIndexBuilder, t: IndexType, seen: seq<Bytes>)
    reads builder
  {
    builder.Valid() && builder.ntype == t && builder.files == seen
  }

  /** No builder occurs twice, and those between `from` and `to` have seen exactly the files `seen`. */
  ghost predicate AllFollow(builders: seq<FlatIndexBuilder>, types: seq<IndexType>, from: nat, to: nat, seen: seq<Bytes>)
    reads builders
  {
    && |builders| == |types| && from <= to <= |types|
    && (forall i, j :: 0 <= i < j < |builders| ==> builders[i] != builders[j])
    && forall i :: from <= i < to ==> Follows(builders[i], types[i], seen)
  }

  predicate AllCanAdd(builders: seq<FlatIndexBuilder>, from: nat, bytes: nat)
    reads builders
  {
    forall i :: from <= i < |builders| ==> builders[i].CanStillAdd(bytes)
  }

  predicate AllInBounds(builders: seq<FlatIndexBuilder>, to: nat)
    requires to <= |builders|
    reads builders
  {
    forall i :: 0 <= i < to ==> builders[i].InBounds()
  }

  /** Adds a file to builder `k`, and leaves the others alone. */
  method AddNext(builders: seq<FlatIndexBuilder>, k: nat, fid: FileId, data: Bytes, ghost types: seq<IndexType>, ghost seen: seq<Bytes>)
    requires k < |types| && fid == |seen| && AllFollow(builders, types, 0, k, seen + [data]) && AllFollow(builders, types, k, |types|, seen)
    modifies builders[k]
    ensures AllFollow(builders, types, 0, k + 1, seen + [data]) && AllFollow(builders, types, k + 1, |types|, seen)
    ensures old(AllCanAdd(builders, k, |data|)) ==> AllCanAdd(builders, k + 1, |data|)
    ensures old(AllCanAdd(builders, k, |data|) && AllInBounds(builders, k)) ==> AllInBounds(builders, k + 1)
  {
    builders[k].AddFile(fid, data);
  }

  method AddToAll(builders: seq<FlatIndexBuilder>, fid: FileId, data: Bytes, ghost types: seq<IndexType>, ghost seen: seq<Bytes>)
    requires fid == |seen| && AllFollow(builders, types, 0, |types|, seen)
    modifies builders
    ensures AllFollow(builders, types, 0, |types|, seen + [data])
    ensures old(AllCanAdd(builders, 0, |data|)) ==> AllInBounds(builders, |builders|)
  {
    ghost var room := AllCanAdd(builders, 0, |data|);
    for k := 0 to |builders|
      invariant AllFollow(builders, types, 0, k, seen + [data]) && AllFollow(builders, types, k, |types|, seen)
      invariant room ==> AllCanAdd(builders, k, |data|) && AllInBounds(builders, k)
    {
      AddNext(builders, k, fid, data, types, seen);
    }
  }

  // ----- builders of the bitmap kind -----

  ghost predicate FollowsBits(builder: BitmapIndexBuilder, t: IndexType, seen: seq<Bytes>)
    reads builder, builder.rawData
  {
    builder.Valid() && builder.ntype == t && builder.files == seen
  }

  ghost function ArraysOf(builders: seq<BitmapIndexBuilder>): set<array<bv8>> {
    set b | b in builders :: b.rawData
  }

  ghost predicate AllFollowBits(builders: seq<BitmapIndexBuilder>, types: seq<IndexType>, from: nat, to: nat, seen: seq<Bytes>)
    reads builders, ArraysOf(builders)
  {
    && |builders| == |types| && from <= to <= |types|
    && (forall i, j :: 0 <= i < j < |builders| ==> builders[i] != builders[j] && builders[i].rawData != builders[j].rawData)
    && forall i :: from <= i < to ==> FollowsBits(builders[i], types[i], seen)
  }

  method AddOneBits(builder: BitmapIndexBuilder, ghost t: IndexType, fid: FileId, data: Bytes, ghost seen: seq<Bytes>) returns (ok: bool)
    requires fid == |seen| && FollowsBits(builder, t, seen)
    modifies builder, builder.rawData
    ensures ok == (fid < BITMAP_MAX_FILES)
    ensures ok ==> FollowsBits(builder, t, seen + [data])
  {
    ok := builder.AddFile(fid, data);
  }

  /** Adds a file to builder `k`, unless it throws because there are eight files already. */
  method AddNextBits(builders: seq<BitmapIndexBuilder>, k: nat, fid: FileId, data: Bytes, ghost types: seq<IndexType>, ghost seen: seq<Bytes>)
    returns (ok: bool)
    requires k < |types| && fid == |seen|
    requires AllFollowBits(builders, types, 0, k, seen + [data]) && AllFollowBits(builders, types, k, |types|, seen)
    modifies builders[k], builders[k].rawData
    ensures ok == (fid < BITMAP_MAX_FILES)
    ensures ok ==> AllFollowBits(builders, types, 0, k + 1, seen + [data]) && AllFollowBits(builders, types, k + 1, |types|, seen)
  {
    ok := AddOneBits(builders[k], types[k], fid, data, seen);
  }

  method AddToAllBits(builders: seq<BitmapIndexBuilder>, fid: FileId, data: Bytes, ghost types: seq<IndexType>, ghost seen: seq<Bytes>)
    returns (ok: bool)
    requires fid == |seen| && AllFollowBits(builders, types, 0, |types|, seen)
    modifies builders, ArraysOf(builders)
    ensures ok <==> builders == [] || fid < BITMAP_MAX_FILES
    ensures ok ==> AllFollowBits(builders, types, 0, |types|, seen + [data])
  {
    for k := 0 to |builders|
      invariant AllFollowBits(builders, types, 0, k, seen + [data]) && AllFollowBits(builders, types, k, |types|, seen)
      invariant k > 0 ==> fid < BITMAP_MAX_FILES
    {
      ok := AddNextBits(builders, k, fid, data, types, seen);
      if !ok {
        return;
      }
    }
    ok := true;
  }

  // ----- storing the indexes -----

  function AllTypes(types: seq<IndexType>, n: nat): set<IndexType>
    requires n <= |types|
  {
    if n == 0 then {} else AllTypes(types, n - 1) + {types[n - 1]}
  }

  /** The indexes of the first `k` types have been stored. */
  ghost predicate StoredUpTo(types: seq<IndexType>, k: nat, files: seq<IndexFile>, seen: seq<Bytes>)
    requires k <= |types|
  {
    |seen| <= MAX_FILES && TypesOf(files, |files|) == AllTypes(types, k) && AllOver(files, seen)
  }

  lemma StoredMore(types: seq<IndexType>, k: nat, files: seq<IndexFile>, index: IndexFile, seen: seq<Bytes>)
    requires k < |types| && StoredUpTo(types, k, files, seen) && Over(index, seen) && index.itype == types[k]
    ensures StoredUpTo(types, k + 1, files + [index], seen)
  {
    IndexMore(files, index, seen);
  }

  method SaveFlat(builders: seq<FlatIndexBuilder>, types: seq<IndexType>, k: nat, ghost seen: seq<Bytes>) returns (index: IndexFile)
    requires k < |types| && AllFollow(builders, types, k, |types|, seen) && AllInBounds(builders[k..], |types| - k)
    modifies builders[k]
    ensures AllFollow(builders, types, k + 1, |types|, seen) && AllInBounds(builders[k + 1..], |types| - k - 1)
    ensures |seen| <= MAX_FILES && Over(index, seen) && index.itype == types[k]
  {
    var out := builders[k].Save();
    index := IndexFile(types[k], out.content);
    assert builders[k + 1..] == builders[k..][1..];
  }

  method SaveFlats(builders: seq<FlatIndexBuilder>, types: seq<IndexType>, ghost seen: seq<Bytes>) returns (files: seq<IndexFile>)
    requires AllFollow(builders, types, 0, |types|, seen) && AllInBounds(builders, |types|) && |seen| <= MAX_FILES
    modifies builders
    ensures StoredUpTo(types, |types|, files, seen)
  {
    files := [];
    assert builders[0..] == builders;
    for k := 0 to |types|
      invariant AllFollow(builders, types, k, |types|, seen) && AllInBounds(builders[k..], |types| - k)
      invariant StoredUpTo(types, k, files, seen)
    {
      var index := SaveFlat(builders, types, k, seen);
      StoredMore(types, k, files, index, seen);
      files := files + [index];
    }
  }

  method SaveBits(builders: seq<BitmapIndexBuilder>, types: seq<IndexType>, ghost seen: seq<Bytes>) returns (files: seq<IndexFile>)
    requires AllFollowBits(builders, types, 0, |types|, seen) && |seen| <= MAX_FILES
    ensures StoredUpTo(types, |types|, files, seen)
  {
    files := [];
    for k := 0 to |types|
      invariant StoredUpTo(types, k, files, seen)
    {
      assert FollowsBits(builders[k], types[k], seen);
      var out := builders[k].Save();
      var index := IndexFile(types[k], out.content);
      StoredMore(types, k, files, index, seen);
      files := files + [index];
    }
  }

  // ----- new builders -----

  method NewFlats(types: seq<IndexType>) returns (builders: seq<FlatIndexBuilder>)
    ensures fresh(builders) && AllFollow(builders, types, 0, |types|, []) && AllInBounds(builders, |types|)
  {
    builders := [];
    for k := 0 to |types|
      invariant fresh(builders) && AllFollow(builders, types[..k], 0, k, [])
    {
      var builder := new FlatIndexBuilder(types[k]);
      builders := builders + [builder];
    }
    assert types[..|types|] == types;
    forall k | 0 <= k < |types| ensures builders[k].InBounds() {
      assert Follows(builders[k], types[k], []);
      builders[k].RoomWhenEmpty(0);
    }
  }

  method NewBits(types: seq<IndexType>) returns (builders: seq<BitmapIndexBuilder>)
    ensures fresh(builders) && fresh(ArraysOf(builders)) && AllFollowBits(builders, types, 0, |types|, [])
  {
    builders := [];
    for k := 0 to |types|
      invariant fresh(builders) && fresh(ArraysOf(builders)) && AllFollowBits(builders, types[..k], 0, k, [])
    {
      assert forall i :: 0 <= i < k ==> builders[i].rawData in ArraysOf(builders);
      var builder := new BitmapIndexBuilder(types[k]);
      builders := builders + [builder];
    }
    assert types[..|types|] == types;
  }

  // ----- the dataset builder -----

  class DatasetBuilder {
    const kind: BuilderKind
    const indexTypes: seq<IndexType>
    var flats: seq<FlatIndexBuilder>
    var bitmaps: seq<BitmapIndexBuilder>
    var fids: seq<Bytes>
    ghost var contents: seq<Bytes>

    /** Every index builder has seen exactly the registered files. */
    ghost predicate Valid()
      reads this, flats, bitmaps, ArraysOf(bitmaps)
    {
      && |fids| == |contents| < MAX_FILES && ValidNames(fids)
      && AllFollow(flats, FlatTypes(), 0, |FlatTypes()|, contents)
      && AllFollowBits(bitmaps, BitTypes(), 0, |BitTypes()|, contents)
    }

    /** What has been added fits: a save does not overflow. */
    ghost predicate InBounds()
      reads this, flats
    {
      AllInBounds(flats, |flats|)
    }

    ghost function FlatTypes(): seq<IndexType> {
      if kind.FlatKind? then indexTypes else []
    }

    ghost function BitTypes(): seq<IndexType> {
      if kind.BitmapKind? then indexTypes else []
    }

    ghost function Files(): FileList
      reads this
    {
      FileList(fids, contents)
    }

    constructor (kind: BuilderKind, indexTypes: seq<IndexType>)
      ensures Valid() && InBounds() && this.kind == kind && this.indexTypes == indexTypes && Files() == FileList([], [])
      ensures fresh(flats) && fresh(bitmaps) && fresh(ArraysOf(bitmaps))
    {
      this.kind, this.indexTypes := kind, indexTypes;
      flats, bitmaps, fids, contents := [], [], [], [];
      new;
      Clear();
    }

    /** Forgets all files, with new index builders. */
    method Clear()
      modifies this
      ensures Valid() && InBounds() && Files() == FileList([], [])
      ensures fresh(flats) && fresh(bitmaps) && fresh(ArraysOf(bitmaps))
    {
      var f, b := [], [];
      if kind.FlatKind? {
        f := NewFlats(indexTypes);
      } else {
        b := NewBits(indexTypes);
      }
      flats, bitmaps, fids, contents := f, b, [], [];
    }

    /** Whether all index builders have room for a file of `bytes` bytes. */
    predicate CanStillAdd(bytes: nat)
      reads this, flats
    {
      AllCanAdd(flats, 0, bytes) && forall k :: 0 <= k < |bitmaps| ==> bitmaps[k].CanStillAdd(|fids|)
    }

    /** A builder without files has room for every file of up to 64 MiB, and for bigger ones if it is of the bitmap kind. */
    lemma RoomWhenEmpty(bytes: nat)
      requires Valid() && contents == [] && (kind.FlatKind? ==> bytes <= MAX_TRIGRAMS)
      ensures CanStillAdd(bytes) && InBounds()
    {
      forall k | 0 <= k < |flats| ensures flats[k].CanStillAdd(bytes) && flats[k].InBounds() {
        assert Follows(flats[k], FlatTypes()[k], contents);
        flats[k].RoomWhenEmpty(bytes);
      }
    }

    /** `register_fname`, for a name without line breaks. */
    method RegisterFname(fname: Bytes) returns (id: FileId)
      requires |fids| < MAX_FILES
      modifies this`fids
      ensures fids == old(fids) + [fname] && id == |old(fids)|
    {
      id := |fids|;
      fids := fids + [fname];
    }

    /**
     * Adds a file. A name with a line break and a file that cannot be file or is empty are errors
     * that leave everything as it was; a ninth file for bitmaps is one that leaves the name behind.
     * If there was room for the file, what has been added still fits.
     */
    method Index(filepath: Bytes, file: Opened) returns (r: Outcome)
      requires Valid() && |fids| + 1 < MAX_FILES && (filepath == [] ==> file == CannotOpen)
      modifies this, flats, bitmaps, ArraysOf(bitmaps)
      ensures flats == old(flats) && bitmaps == old(bitmaps)
      ensures r == if !GoodName(filepath) then InvalidName
                   else if file.CannotOpen? then OpenFailed
                   else if file.NoContent? then EmptyFile
                   else if bitmaps != [] && |old(fids)| >= BITMAP_MAX_FILES then TooManyFiles
                   else Added
      ensures r.InvalidName? <==> 10 in filepath || 13 in filepath
      ensures r.Added? ==> Valid() && Files() == Both(old(Files()), FileList([filepath], [file.data]))
      ensures r.Added? && old(CanStillAdd(|file.data|)) ==> InBounds()
      ensures r.TooManyFiles? ==> fids == old(fids) + [filepath]
      ensures !r.Added? && !r.TooManyFiles? ==> Valid() && Files() == old(Files()) && (old(InBounds()) ==> InBounds())
    {
      if RETURN in filepath || NEWLINE in filepath {
        return InvalidName;
      }
      if file.CannotOpen? {
        return OpenFailed;
      } else if file.NoContent? {
        return EmptyFile;
      }
      ghost var seen := contents;
      var fid := RegisterFname(filepath);
      var ok := AddToIndices(fid, file.data, seen);
      if !ok {
        return TooManyFiles;
      }
      contents := seen + [file.data];
      return Added;
    }

    /** Adds a file to all index builders. */
    method AddToIndices(fid: FileId, data: Bytes, ghost seen: seq<Bytes>) returns (ok: bool)
      requires fid == |seen| && AllFollow(flats, FlatTypes(), 0, |FlatTypes()|, seen)
      requires AllFollowBits(bitmaps, BitTypes(), 0, |BitTypes()|, seen)
      modifies flats, bitmaps, ArraysOf(bitmaps)
      ensures ok <==> bitmaps == [] || fid < BITMAP_MAX_FILES
      ensures AllFollow(flats, FlatTypes(), 0, |FlatTypes()|, seen + [data])
      ensures ok ==> AllFollowBits(bitmaps, BitTypes(), 0, |BitTypes()|, seen + [data])
      ensures old(AllCanAdd(flats, 0, |data|)) ==> InBounds()
    {
      AddToAll(flats, fid, data, FlatTypes(), seen);
      ok := AddToAllBits(bitmaps, fid, data, BitTypes(), seen);
    }

    /** Stores the dataset: one index file per type, and the list of names. */
    method Save() returns (stored: StoredDataset)
      requires Valid() && InBounds()
      modifies flats
      ensures IsMerged(stored, AllTypes(indexTypes, |indexTypes|), {}, Files())
    {
      var files;
      if kind.FlatKind? {
        files := SaveFlats(flats, indexTypes, contents);
      } else {
        files := SaveBits(bitmaps, indexTypes, contents);
      }
      var names := WriteNamesFile(fids);
      stored := StoredDataset(files, names, {});
    }
  }
}
