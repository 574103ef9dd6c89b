/** Reading a stored result list piece by piece (`OnDiskIterator`). */
module OnDiskIterators {
  import opened Core
  import opened OnDiskFileIndexes

  /** What `tellg` gives once the end of the file has been hit: -1, as an unsigned 64-bit number. */
  const NO_POSITION: nat := 0xFFFF_FFFF_FFFF_FFFF

  /** Names without line breaks; unlike the names of a dataset they may be empty. */
  predicate OneLiners(names: seq<Bytes>) {
    forall k :: 0 <= k < |names| ==> NEWLINE !in names[k]
  }

  /** How far `count` more names lead from position `k` in a list of `n`. */
  function PopTo(n: nat, k: nat, count: nat): (r: nat)
    requires k <= n
    ensures k <= r <= n
  {
    if k + count <= n then k + count else n
  }

  /** The byte offset stored after popping `count` names at position `k`. */
  function PopBytes(names: seq<Bytes>, k: nat, count: nat): nat
    requires k <= |names|
  {
    if k + count <= |names| then NameStart(names, k + count) else NO_POSITION
  }

  class OnDiskIterator {
    const data: Bytes
    const totalFiles: nat
    var byteOffset: nat
    var fileOffset: nat

    /** The iterator reads the list `names` and stands before name `k`. */
    ghost predicate At(names: seq<Bytes>, k: nat)
      reads this
    {
      && OneLiners(names) && k <= |names| && totalFiles == |names|
      && data == NamesFile(names, |names|)
      && fileOffset == k && byteOffset == NameStart(names, k)
    }

    constructor (data: Bytes, totalFiles: nat, byteOffset: nat, fileOffset: nat)
      ensures this.data == data && this.totalFiles == totalFiles
      ensures this.byteOffset == byteOffset && this.fileOffset == fileOffset
    {
      this.data, this.totalFiles, this.byteOffset, this.fileOffset := data, totalFiles, byteOffset, fileOffset;
    }

    /**
     * Reads up to `count` names. The names are exactly the next ones in the list; the position in
     * bytes is lost when the list ends first.
     */
    method PopNames(count: nat, ghost names: seq<Bytes>, ghost k: nat) returns (out: seq<Bytes>)
      requires At(names, k)
      modifies this
      ensures out == names[k..PopTo(|names|, k, count)]
      ensures fileOffset == PopTo(|names|, k, count) && byteOffset == PopBytes(names, k, count)
      ensures |out| == (if count <= |names| - k then count else |names| - k) && fileOffset == k + |out|
      ensures byteOffset == if count <= |names| - k then Lengths(names, k + count) else NO_POSITION
    {
      out := [];
      var pos := byteOffset;
      var eof := false;
      var i := 0;
      StartInFile(names, k, |names|);
      while i < count && !eof
        invariant i <= count && (eof ==> k + i == |names| && i < count)
        invariant k + i <= |names| && fileOffset == k + i && out == names[k..k + i]
        invariant pos <= |data| && (!eof ==> pos == NameStart(names, k + i))
        decreases count - i, !eof
      {
        var next, pos', eof' := GetLine(data, pos);
        NextLine(names, k + i);
        pos, eof := pos', eof';
        if eof {
          break;
        }
        assert names[k..k + i + 1] == names[k..k + i] + [names[k + i]];
        out := out + [next];
        fileOffset := fileOffset + 1;
        i := i + 1;
      }
      byteOffset := if eof then NO_POSITION else pos;
      OffsetIsLengths(names, fileOffset);
    }
  }

  /** What reading a line at the start of name `k` gives; behind the last name, the end of the file. */
  lemma NextLine(names: seq<Bytes>, k: nat)
    requires OneLiners(names) && k <= |names|
    ensures var content, start := NamesFile(names, |names|), NameStart(names, k);
      && start <= |content|
      && (k == |names| ==> LineEnd(content, start) == |content|)
      && (k < |names| ==>
            var end := LineEnd(content, start);
            end < |content| && end + 1 == NameStart(names, k + 1) && content[start..end] == names[k])
  {
    StartInFile(names, k, |names|);
    if k < |names| {
      NameAt(names, |names|, k);
      LineEndIs(NamesFile(names, |names|), NameStart(names, k), NameStart(names, k + 1) - 1);
    }
  }

  /** The byte offset is the sum of the lengths of the names read, plus one for each. */
  function Lengths(names: seq<Bytes>, n: nat): nat
    requires n <= |names|
  {
    if n == 0 then 0 else Lengths(names, n - 1) + |names[n - 1]| + 1
  }

  lemma {:induction false} OffsetIsLengths(names: seq<Bytes>, n: nat)
    requires n <= |names|
    ensures NameStart(names, n) == Lengths(names, n)
  {
    if n > 0 {
      OffsetIsLengths(names, n - 1);
    }
  }
}
