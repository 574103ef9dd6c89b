/** Files, and the writers and readers of compressed runs. */
module RunWriters {
  import opened Core
  import opened Codec

  /** An open file, as the bytes it holds; all writes go to its end. */
  class RawFile {
    var content: Bytes

    constructor ()
      ensures content == []
    {
      content := [];
    }

    method Write(bytes: Bytes)
      modifies this
      ensures content == old(content) + bytes
    {
      content := content + bytes;
    }
  }

  /** Only the first number of a stored run depends on what precedes the run. */
  lemma RawSplice(prev: int, base: nat, run: Run)
    requires run != [] && AscendingFrom(-1, run) && prev < base + run[0]
    ensures AscendingFrom(prev, Shift(base, run))
    ensures EncodeFrom(prev, Shift(base, run))
         == EncodeGap(base + run[0] - prev - 1) + EncodeFrom(run[0], run[1..])
    ensures LastOf(prev, Shift(base, run)) == base + LastOf(run[0], run[1..])
  {
    var first, tail := base + run[0], Shift(base, run[1..]);
    EncodeShift(base, run[0], run[1..]);
    assert Shift(base, run) == [first] + tail;
    EncodeCons(prev, first, tail);
  }

  const RUN_BUFFER_SIZE: nat := 128 * 1024 * 1024

  /**
   * Writes runs to a file through a buffer. `prev` is the last id of the current run and
   * `outBytes` the number of bytes written since the last `Reset`.
   */
  class PosixRunWriter {
    const fd: RawFile
    var outBytes: nat
    var prev: int
    var buffer: Bytes

    constructor (fd: RawFile)
      ensures this.fd == fd && outBytes == 0 && prev == -1 && buffer == []
    {
      this.fd := fd;
      outBytes, prev, buffer := 0, -1, [];
    }

    /** Everything handed to the writer so far, flushed or not, after what the file held before. */
    ghost function Written(): Bytes
      reads this, fd
    {
      fd.content + buffer
    }

    method Flush()
      modifies this`buffer, fd
      ensures Written() == old(Written()) && buffer == []
    {
      if buffer != [] {
        fd.Write(buffer);
        buffer := [];
      }
    }

    /** Forgets the current run; the next one starts from scratch. */
    method Reset()
      modifies this`outBytes, this`prev
      ensures outBytes == 0 && prev == -1
    {
      outBytes, prev := 0, -1;
    }

    method Put(b: byte)
      modifies this`outBytes, this`buffer
      ensures Written() == old(Written()) + [b] && outBytes == old(outBytes) + 1
    {
      outBytes := outBytes + 1;
      buffer := buffer + [b];
    }

    method Write(next: FileId)
      requires -1 <= prev < next
      modifies this, fd
      ensures Written() == old(Written()) + EncodeGap(next - old(prev) - 1)
      ensures outBytes == old(outBytes) + |EncodeGap(next - old(prev) - 1)|
      ensures prev == next
    {
      var diff: nat := next - prev - 1;
      ghost var gap := diff;
      while diff >= 0x80
        invariant old(Written()) + EncodeGap(gap) == Written() + EncodeGap(diff)
        invariant old(outBytes) + |EncodeGap(gap)| == outBytes + |EncodeGap(diff)|
        invariant prev == old(prev)
      {
        Put(0x80 + diff % 0x80);
        diff := diff / 0x80;
      }
      Put(diff);
      prev := next;
      if |buffer| > RUN_BUFFER_SIZE {
        Flush();
      }
    }

    /**
     * Appends the stored run `bytes`, each id moved up by `base`, decoding only its first id. The
     * result is what writing the moved ids one by one would have left.
     */
    method WriteRaw(base: FileId, bytes: Bytes)
      requires -1 <= prev && Canonical(bytes)
      requires forall id :: id in DecodeRun(bytes) ==> prev < base + id < 0x1_0000_0000
      modifies this, fd
      ensures AscendingFrom(old(prev), Shift(base, DecodeRun(bytes)))
      ensures Written() == old(Written()) + EncodeFrom(old(prev), Shift(base, DecodeRun(bytes)))
      ensures outBytes == old(outBytes) + |EncodeFrom(old(prev), Shift(base, DecodeRun(bytes)))|
      ensures prev == LastOf(old(prev), Shift(base, DecodeRun(bytes)))
    {
      if bytes == [] {
        return;
      }
      ghost var run := DecodeRun(bytes);
      ghost var tail := run[1..];
      assert run[0] in run;
      RawSplice(prev, base, run);
      var first, start := DecompressSingle(bytes);
      ghost var gap, rest := EncodeGap(base + first - prev - 1), EncodeFrom(first, tail);
      Write(base + first);
      CopyTail(base, bytes[start..], first, tail);
      Assoc(old(Written()), gap, rest);
    }

    /** Appends the rest of a run whose last written id was `base + first`, byte by byte. */
    method CopyTail(ghost base: FileId, bytes: Bytes, ghost first: FileId, ghost ids: Run)
      requires prev == base + first
      requires AscendingFrom(first, ids) && bytes == EncodeFrom(first, ids)
      modifies this, fd
      ensures Written() == old(Written()) + bytes
      ensures outBytes == old(outBytes) + |bytes|
      ensures prev == base + LastOf(first, ids)
    {
      ghost var p, rest, left := first, ids, FirstGap(first, ids);
      var acc: nat, shift: nat := 0, 0;
      MidwayStart(first, ids);
      assert bytes[0..] == bytes;
      for ptr := 0 to |bytes|
        invariant Written() == old(Written()) + bytes[..ptr]
        invariant outBytes == old(outBytes) + ptr
        invariant prev == base + p && LastOf(p, rest) == LastOf(first, ids)
        invariant Midway(bytes[ptr..], acc, shift, p, rest, left)
      {
        MidwayStep(bytes[ptr..], acc, shift, p, rest, left);
        assert bytes[ptr..][1..] == bytes[ptr + 1..];
        assert bytes[..ptr + 1] == bytes[..ptr] + [bytes[ptr]];
        Put(bytes[ptr]);
        if |buffer| > RUN_BUFFER_SIZE {
          Flush();
        }
        acc := acc + Group(bytes[ptr], shift);
        shift := shift + 7;
        left := left / 128;
        if bytes[ptr] < 0x80 {
          prev := prev + acc + 1;
          acc, shift := 0, 0;
          p, rest, left := rest[0], rest[1..], FirstGap(rest[0], rest[1..]);
        }
      }
      assert bytes[..|bytes|] == bytes;
    }
  }

  /** Reads the number at the start of `bytes`; `ptr` is where the next one starts. */
  method DecompressSingle(bytes: Bytes) returns (value: FileId, ptr: nat)
    requires Canonical(bytes) && bytes != []
    ensures var run := DecodeRun(bytes);
      && run != [] && value == run[0] && ptr <= |bytes|
      && AscendingFrom(run[0], run[1..]) && bytes[ptr..] == EncodeFrom(run[0], run[1..])
  {
    ghost var run := DecodeRun(bytes);
    MidwayStart(-1, run);
    ghost var left := FirstGap(-1, run);
    var shift: nat, acc: nat := 0, 0;
    ptr := 0;
    assert bytes[0..] == bytes;
    while true
      invariant ptr < |bytes| && run != []
      invariant Midway(bytes[ptr..], acc, shift, -1, run, left)
      decreases |bytes| - ptr
    {
      MidwayStep(bytes[ptr..], acc, shift, -1, run, left);
      assert bytes[ptr..][1..] == bytes[ptr + 1..];
      acc := acc + Group(bytes[ptr], shift);
      if bytes[ptr] < 0x80 {
        ptr := ptr + 1;
        return acc, ptr;
      }
      shift := shift + 7;
      ptr, left := ptr + 1, left / 128;
    }
  }

  /** Reads a whole run, whatever bytes it is made of, as long as every shift is defined. */
  method ReadCompressedRun(bytes: Bytes) returns (res: Run)
    requires ShiftsDefined(bytes, 0)
    ensures res == DecodeRun(bytes)
  {
    res := [];
    var acc: nat, shift: nat, prev: int := 0, 0, -1;
    for ptr := 0 to |bytes|
      invariant DecodeRun(bytes) == res + DecodeFrom(bytes[ptr..], acc, shift, prev)
      invariant ShiftsDefined(bytes[ptr..], shift)
    {
      assert bytes[ptr..][1..] == bytes[ptr + 1..];
      acc := acc + Group(bytes[ptr], shift);
      shift := shift + 7;
      if bytes[ptr] < 0x80 {
        prev := prev + acc + 1;
        res := res + [prev % 0x1_0000_0000];
        acc, shift := 0, 0;
      }
    }
  }

  /** The simple writer of one run to a stream; `CompressRun` is its only use. */
  class RunWriter {
    var out: Bytes
    var outBytes: nat
    var prev: int

    constructor ()
      ensures out == [] && outBytes == 0 && prev == -1
    {
      out, outBytes, prev := [], 0, -1;
    }

    method Write(next: FileId)
      requires -1 <= prev < next
      modifies this
      ensures out == old(out) + EncodeGap(next - old(prev) - 1)
      ensures outBytes == old(outBytes) + |EncodeGap(next - old(prev) - 1)|
      ensures prev == next
    {
      var diff: nat := next - prev - 1;
      ghost var gap := diff;
      while diff >= 0x80
        invariant old(out) + EncodeGap(gap) == out + EncodeGap(diff)
        invariant old(outBytes) + |EncodeGap(gap)| == outBytes + |EncodeGap(diff)|
      {
        outBytes := outBytes + 1;
        out := out + [0x80 + diff % 0x80];
        diff := diff / 0x80;
      }
      outBytes := outBytes + 1;
      out := out + [diff];
      prev := next;
    }
  }

  /** Compresses a run; returns the bytes appended to the stream and their number. */
  method CompressRun(run: Run) returns (bytes: Bytes, written: nat)
    requires AscendingFrom(-1, run)
    ensures bytes == EncodeRun(run) && written == |bytes|
  {
    var writer := new RunWriter();
    for i := 0 to |run|
      invariant AscendingFrom(-1, run[..i]) && writer.prev == LastOf(-1, run[..i])
      invariant writer.out == EncodeRun(run[..i]) && writer.outBytes == |writer.out|
    {
      assert run[..i + 1] == run[..i] + [run[i]];
      assert run == run[..i + 1] + run[i + 1..];
      AscendingSplit(-1, run[..i + 1], run[i + 1..]);
      AscendingSplit(-1, run[..i], [run[i]]);
      EncodeAppend(-1, run[..i], [run[i]]);
      writer.Write(run[i]);
    }
    assert run[..|run|] == run;
    return writer.out, writer.outBytes;
  }

  /** Conversion of a 32-bit pattern to a signed number. */
  function ToInt32(x: int): int
    requires -1 <= x < 0x1_0000_0000
  {
    if x < 0x8000_0000 then x else x - 0x1_0000_0000
  }

  /**
   * Walks a stored run. `prev` is a signed 32-bit field, so ids from 2^31 on are kept as negative
   * numbers and wrapped back by `Current`. `last` and `rest` are the ids before and after `pos`.
   */
  class RunIterator {
    const run: Bytes
    var pos: nat
    var prev: int
    ghost var last: int
    ghost var rest: Run

    ghost predicate Valid()
      reads this
    {
      && -1 <= last < 0x1_0000_0000 && prev == ToInt32(last)
      && pos <= |run| && AscendingFrom(last, rest) && run[pos..] == EncodeFrom(last, rest)
    }

    /** `comp_begin` */
    constructor (run: Bytes)
      requires Canonical(run)
      ensures Valid() && this.run == run && rest == DecodeRun(run)
    {
      this.run, pos, prev := run, 0, -1;
      last, rest := -1, DecodeRun(run);
      new;
      assert run[0..] == run;
    }

    /** Whether the iterator differs from `comp_end`. */
    predicate More()
      reads this
    {
      pos != |run|
    }

    lemma MoreIsNonempty()
      requires Valid()
      ensures More() <==> rest != []
    {
    }

    method Current() returns (id: FileId)
      requires Valid() && More()
      ensures rest != [] && id == rest[0]
    {
      ghost var left := FirstGap(last, rest);
      MidwayStart(last, rest);
      var acc: nat, shift: nat, it := 0, 0, pos;
      while true
        invariant pos <= it < |run|
        invariant Midway(run[it..], acc, shift, last, rest, left)
        decreases |run| - it
      {
        MidwayStep(run[it..], acc, shift, last, rest, left);
        assert run[it..][1..] == run[it + 1..];
        acc := acc + Group(run[it], shift);
        shift := shift + 7;
        if run[it] < 0x80 {
          return (prev + acc + 1) % 0x1_0000_0000;
        }
        it, left := it + 1, left / 128;
      }
    }

    method NextPos() returns (next: nat)
      requires Valid() && More()
      ensures rest != [] && next <= |run| && AscendingFrom(rest[0], rest[1..])
      ensures run[next..] == EncodeFrom(rest[0], rest[1..])
    {
      ghost var left, acc: nat, shift: nat := FirstGap(last, rest), 0, 0;
      MidwayStart(last, rest);
      next := pos;
      while run[next] >= 0x80
        invariant pos <= next < |run|
        invariant Midway(run[next..], acc, shift, last, rest, left)
        decreases |run| - next
      {
        MidwayStep(run[next..], acc, shift, last, rest, left);
        assert run[next..][1..] == run[next + 1..];
        acc := acc + Group(run[next], shift);
        shift := shift + 7;
        next, left := next + 1, left / 128;
      }
      MidwayStep(run[next..], acc, shift, last, rest, left);
      assert run[next..][1..] == run[next + 1..];
      next := next + 1;
    }

    /** `operator++` */
    method Advance()
      requires Valid() && More()
      modifies this
      ensures Valid() && old(rest) != [] && rest == old(rest)[1..]
    {
      var id := Current();
      var next := NextPos();
      prev := ToInt32(id);
      pos := next;
      last, rest := id, rest[1..];
    }
  }
}
