/**
 * `LUNStream`: a read-only, seekable stream over a whole LUN, each read
 * fetching whole sectors through an `EDLSectorReader`.
 */
module LunStreams {
  import opened Wrappers
  import opened Ints
  import opened Arith
  import opened Transport
  import opened FirehoseCommands
  import opened SectorMath
  import opened Buffers
  import opened SectorReaders
  import opened PartStreams

  /**
   * The sectors this stream asks the reader for, as written: the window's
   * first sector through its end sector, both as `uint`s, the end sector
   * taken as the inclusive last one.
   */
  function LunRequest(w: Window): (q: SectorRange)
    ensures IsUInt(q.first) && IsUInt(q.last)
    ensures 0 <= w.first < TWO_32 && 0 <= w.end < TWO_32 ==> q.first == w.first && q.last == w.end
  {
    SectorRange(ToUInt(w.first), ToUInt(w.end))
  }

  /** The reader's answer as a nullable reply: the reader itself never returns no buffer. */
  function Present(reply: Result<seq<byte>>): Result<Option<seq<byte>>>
  {
    match reply
    case Err(e) => Err(e)
    case Ok(bytes) => Ok(Some(bytes))
  }

  class LUNStream {
    const reader: EDLSectorReader
    var currentPosition: int64

    /** Reads end: the reader's block size is no larger than its payload cap. */
    predicate Valid()
    {
      reader.Valid()
    }

    /** A stream over the reader's LUN, positioned at its start. */
    constructor (reader: EDLSectorReader)
      ensures this.reader == reader && currentPosition == 0
    {
      this.reader := reader;
      currentPosition := 0;
    }

    /**
     * The LUN's size in bytes: sector count times sector size, an `ulong`
     * product with wrap-around, cast to `long`.
     */
    function Length(): (n: int64)
      ensures (reader.storageInfo.totalBlocks >= 0 && reader.storageInfo.blockSize >= 0
               && reader.storageInfo.totalBlocks * reader.storageInfo.blockSize < TWO_63) ==>
        n == reader.storageInfo.totalBlocks * reader.storageInfo.blockSize
    {
      ToLong(ToULong(reader.GetMaxSectors() * reader.GetSectorSize()))
    }

    /** The `Position` setter: refuses any new value while the current position is negative. */
    method SetPosition(value: int64) returns (failure: Option<Error>)
      modifies this
      ensures old(currentPosition) < 0 ==> failure == Some(ArgumentOutOfRange) && currentPosition == old(currentPosition)
      ensures old(currentPosition) >= 0 ==> failure == None && currentPosition == value
    {
      if currentPosition < 0 {
        return Some(ArgumentOutOfRange);
      }
      currentPosition := value;
      failure := None;
    }

    /**
     * The device half of `Read`: fetch the sectors `LunRequest` names for
     * `count` bytes at the current position, fewer where the LUN ends
     * first, copy those bytes into
     * `buffer` at `offset`, and advance. A failed read leaves the position
     * where it was.
     */
    method ReadWindow(buffer: array<byte>, offset: int32, count: int32) returns (r: Result<int>, ghost reply: seq<byte>)
      requires Valid() && reader.storageInfo.blockSize > 0 && 0 <= count && currentPosition < Length()
      modifies this, reader.fh, buffer
      ensures var n := ClampedCount(old(currentPosition), count, Length());
        var w := SectorWindow(old(currentPosition), n, reader.storageInfo.blockSize);
        var q := LunRequest(w);
        var c := reader.ReadRequest(q.first, q.last);
        && r == WindowOutcome(Present(reader.SectorsSpec(old(reader.fh.batches), old(reader.fh.raw), q.first, q.last)),
                              w.skip, buffer.Length, offset, n, old(currentPosition))
        && ReadBytesLeaves(old(reader.fh.batches), old(reader.fh.raw), c.sectorSize, c.firstSector, c.lastSector,
                           reader.fh.batches, reader.fh.raw)
      ensures reader.fh.closed == old(reader.fh.closed)
      ensures r.Err? ==> currentPosition == old(currentPosition)
      ensures r.Ok? ==>
        var n := ClampedCount(old(currentPosition), count, Length());
        var w := SectorWindow(old(currentPosition), n, reader.storageInfo.blockSize);
        var q := LunRequest(w);
        && r.value == n && old(currentPosition) >= 0
        && currentPosition == ToLong(old(currentPosition) + n)
        && reader.fh.sent == old(reader.fh.sent) + [reader.ReadRequest(q.first, q.last)]
        && |reply| == SectorSpan(q.first, q.last) * reader.storageInfo.blockSize
        && |reply| <= |Flatten(old(reader.fh.raw))| && reply == Flatten(old(reader.fh.raw))[..|reply|]
        && 0 <= w.skip && w.skip + n <= |reply| && 0 <= offset && offset + n <= buffer.Length
        && buffer[..] == old(buffer[..])[..offset] + reply[w.skip .. w.skip + n] + old(buffer[..])[offset + n..]
    {
      reply := [];
      var readBytes := ClampedCount(currentPosition, count, Length());
      var w := SectorWindow(currentPosition, readBytes, reader.storageInfo.blockSize);
      var q := LunRequest(w);
      var blocks := reader.ReadSectors(q.first, q.last);
      assert currentPosition == old(currentPosition) && buffer[..] == old(buffer[..]);
      if blocks.Err? {
        return Err(blocks.error), reply;
      }
      reply := blocks.value;
      var failure := Copy(blocks.value, w.skip, buffer, offset, readBytes);
      if failure.Some? {
        return Err(failure.value), reply;
      }
      failure := SetPosition(ToLong(currentPosition + readBytes));
      if failure.Some? {
        return Err(failure.value), reply;
      }
      r := Ok(readBytes);
    }

    /**
     * `Read`: validate the arguments, then fetch the sectors under
     * `count` bytes at the current position (fewer at the end), copy the
     * requested bytes into `buffer` at `offset` and advance. At or past
     * the end the call reports `count` bytes without reading. `reply` is
     * the reader's answer, when it gave one.
     */
    method Read(buffer: array?<byte>, offset: int32, count: int32) returns (r: Result<int>, ghost reply: seq<byte>)
      requires (buffer != null && ToInt(offset + count) <= buffer.Length && offset >= 0 && count >= 0
                && currentPosition < Length() && reader.storageInfo.blockSize != 0) ==> Valid()
      modifies this, reader.fh, buffer
      ensures buffer == null ==> r == Err(ArgumentNull)
      ensures buffer != null && ToInt(offset + count) > buffer.Length ==> r == Err(ArgumentError)
      ensures buffer != null && ToInt(offset + count) <= buffer.Length && (offset < 0 || count < 0) ==>
        r == Err(ArgumentOutOfRange)
      ensures r.Err? && (buffer == null || ToInt(offset + count) > buffer.Length || offset < 0 || count < 0) ==>
        && reader.fh.sent == old(reader.fh.sent) && reader.fh.batches == old(reader.fh.batches)
        && reader.fh.raw == old(reader.fh.raw) && (buffer != null ==> buffer[..] == old(buffer[..]))
      ensures reader.fh.closed == old(reader.fh.closed)
      ensures r.Err? ==> currentPosition == old(currentPosition)
      ensures buffer != null && ToInt(offset + count) <= buffer.Length && offset >= 0 && count >= 0 ==>
        && (old(currentPosition) >= Length() ==>
              r == Ok(count as int) && currentPosition == old(currentPosition) && reader.fh.sent == old(reader.fh.sent)
              && reader.fh.batches == old(reader.fh.batches) && reader.fh.raw == old(reader.fh.raw)
              && buffer[..] == old(buffer[..]))
        && (old(currentPosition) < Length() && reader.storageInfo.blockSize == 0 ==>
              r == Err(DivideByZero) && reader.fh.sent == old(reader.fh.sent)
              && reader.fh.batches == old(reader.fh.batches) && reader.fh.raw == old(reader.fh.raw)
              && buffer[..] == old(buffer[..]))
        && (old(currentPosition) < Length() && reader.storageInfo.blockSize > 0 ==>
              var n := ClampedCount(old(currentPosition), count, Length());
              var w := SectorWindow(old(currentPosition), n, reader.storageInfo.blockSize);
              var q := LunRequest(w);
              var c := reader.ReadRequest(q.first, q.last);
              && r == WindowOutcome(Present(reader.SectorsSpec(old(reader.fh.batches), old(reader.fh.raw), q.first, q.last)),
                                    w.skip, buffer.Length, offset, n, old(currentPosition))
              && ReadBytesLeaves(old(reader.fh.batches), old(reader.fh.raw), c.sectorSize, c.firstSector, c.lastSector,
                                 reader.fh.batches, reader.fh.raw))
      ensures r.Ok? && buffer != null && old(currentPosition) < Length() ==>
        var n := ClampedCount(old(currentPosition), count, Length());
        var w := SectorWindow(old(currentPosition), n, reader.storageInfo.blockSize);
        var q := LunRequest(w);
        && reader.storageInfo.blockSize > 0 && r.value == n && old(currentPosition) >= 0
        && currentPosition == ToLong(old(currentPosition) + n)
        && reader.fh.sent == old(reader.fh.sent) + [reader.ReadRequest(q.first, q.last)]
        && |reply| == SectorSpan(q.first, q.last) * reader.storageInfo.blockSize
        && |reply| <= |Flatten(old(reader.fh.raw))| && reply == Flatten(old(reader.fh.raw))[..|reply|]
        && 0 <= w.skip && w.skip + n <= |reply| && offset + n <= buffer.Length
        && buffer[..] == old(buffer[..])[..offset] + reply[w.skip .. w.skip + n] + old(buffer[..])[offset + n..]
    {
      reply := [];
      if buffer == null {
        r := Err(ArgumentNull);
      } else if ToInt(offset + count) > buffer.Length {
        r := Err(ArgumentError);
      } else if offset < 0 || count < 0 {
        r := Err(ArgumentOutOfRange);
      } else {
        r, reply := ReadChecked(buffer, offset, count);
      }
    }

    /**
     * `Read` once its arguments have passed the checks: at or past the
     * end report `count` bytes, otherwise read the window of the clamped
     * count.
     */
    method ReadChecked(buffer: array<byte>, offset: int32, count: int32) returns (r: Result<int>, ghost reply: seq<byte>)
      requires offset >= 0 && count >= 0
      requires (currentPosition < Length() && reader.storageInfo.blockSize != 0) ==> Valid()
      modifies this, reader.fh, buffer
      ensures reader.fh.closed == old(reader.fh.closed)
      ensures r.Err? ==> currentPosition == old(currentPosition)
      ensures old(currentPosition) >= Length() ==>
        r == Ok(count as int) && currentPosition == old(currentPosition) && reader.fh.sent == old(reader.fh.sent)
        && reader.fh.batches == old(reader.fh.batches) && reader.fh.raw == old(reader.fh.raw)
        && buffer[..] == old(buffer[..])
      ensures old(currentPosition) < Length() && reader.storageInfo.blockSize == 0 ==>
        r == Err(DivideByZero) && reader.fh.sent == old(reader.fh.sent)
        && reader.fh.batches == old(reader.fh.batches) && reader.fh.raw == old(reader.fh.raw)
        && buffer[..] == old(buffer[..])
      ensures old(currentPosition) < Length() && reader.storageInfo.blockSize > 0 ==>
        var n := ClampedCount(old(currentPosition), count, Length());
        var w := SectorWindow(old(currentPosition), n, reader.storageInfo.blockSize);
        var q := LunRequest(w);
        var c := reader.ReadRequest(q.first, q.last);
        && r == WindowOutcome(Present(reader.SectorsSpec(old(reader.fh.batches), old(reader.fh.raw), q.first, q.last)),
                              w.skip, buffer.Length, offset, n, old(currentPosition))
        && ReadBytesLeaves(old(reader.fh.batches), old(reader.fh.raw), c.sectorSize, c.firstSector, c.lastSector,
                           reader.fh.batches, reader.fh.raw)
      ensures r.Ok? && old(currentPosition) < Length() ==>
        var n := ClampedCount(old(currentPosition), count, Length());
        var w := SectorWindow(old(currentPosition), n, reader.storageInfo.blockSize);
        var q := LunRequest(w);
        && reader.storageInfo.blockSize > 0 && r.value == n && old(currentPosition) >= 0
        && currentPosition == ToLong(old(currentPosition) + n)
        && reader.fh.sent == old(reader.fh.sent) + [reader.ReadRequest(q.first, q.last)]
        && |reply| == SectorSpan(q.first, q.last) * reader.storageInfo.blockSize
        && |reply| <= |Flatten(old(reader.fh.raw))| && reply == Flatten(old(reader.fh.raw))[..|reply|]
        && 0 <= w.skip && w.skip + n <= |reply| && offset + n <= buffer.Length
        && buffer[..] == old(buffer[..])[..offset] + reply[w.skip .. w.skip + n] + old(buffer[..])[offset + n..]
    {
      reply := [];
      if currentPosition >= Length() {
        r := Ok(count as int);
      } else if ToLong(reader.GetSectorSize()) == 0 {
        r := Err(DivideByZero);
      } else {
        assert Valid();
        r, reply := ReadWindow(buffer, offset, count);
      }
    }

    /**
     * `Seek`: move to `offset` from the start, the current position or
     * the end, and report the new position; refused for an undefined
     * origin, and for every origin while the position is negative.
     */
    method Seek(offset: int64, origin: SeekOrigin) returns (r: Result<int64>)
      modifies this
      ensures origin == Undefined ==> r == Err(ArgumentError) && currentPosition == old(currentPosition)
      ensures origin != Undefined && old(currentPosition) < 0 ==>
        r == Err(ArgumentOutOfRange) && currentPosition == old(currentPosition)
      ensures origin != Undefined && old(currentPosition) >= 0 ==>
        currentPosition == SeekTarget(origin, offset, old(currentPosition), Length()) && r == Ok(currentPosition)
    {
      if origin == Undefined {
        return Err(ArgumentError);
      }
      var failure := SetPosition(SeekTarget(origin, offset, currentPosition, Length()));
      if failure.Some? {
        return Err(failure.value);
      }
      r := Ok(currentPosition);
    }
  }

  /**
   * The requested sectors always hold the requested bytes: the first one
   * holds `position`, and the range runs up to the sector boundary at or
   * after the read's end. It names one sector more than the bytes need:
   * `end - first + 1` sectors where the window has `end - first`.
   */
  lemma LunRequestCovers(position: int, n: int, blockSize: int)
    requires 0 <= position && 0 <= n && blockSize > 0 && position + n + blockSize <= TWO_63
    requires SectorWindow(position, n, blockSize).end < TWO_32
    ensures var w := SectorWindow(position, n, blockSize); var q := LunRequest(w);
      && q.first == position / blockSize && q.first * blockSize <= position
      && position + n <= q.last * blockSize < position + n + blockSize
      && q.last - q.first + 1 == w.end - w.first + 1
  {
    SectorWindowCovers(position, n, blockSize);
  }

  /**
   * A non-empty read that ends at the end of a LUN of `totalBlocks`
   * sectors asks for sector `totalBlocks`, which the LUN does not have.
   */
  lemma LunRequestPastEnd(position: int, n: int, blockSize: int, totalBlocks: int)
    requires 0 <= position && 0 < n && blockSize > 0 && 0 < totalBlocks < TWO_32
    requires position + n == totalBlocks * blockSize && totalBlocks * blockSize + blockSize <= TWO_63
    ensures LunRequest(SectorWindow(position, n, blockSize)).last == totalBlocks
  {
    SectorWindowCovers(position, n, blockSize);
    var w := SectorWindow(position, n, blockSize);
    SameMultiple(w.end, totalBlocks, blockSize);
    assert 0 <= w.first <= w.end < TWO_32;
  }

  /** A read of the first sector of a one-sector LUN asks for sectors 0 and 1. */
  lemma WholeFirstSectorReadsTwo()
    ensures LunRequest(SectorWindow(0, 512, 512)) == SectorRange(0, 1)
  {
    SectorWindowCovers(0, 512, 512);
  }

  /**
   * The range the stream evidently means to ask for, the one
   * `PartStream` asks for with no offset: the window's sectors, the last
   * one inclusive.
   */
  function CoveringRequest(w: Window): (q: SectorRange)
    ensures IsUInt(q.first) && IsUInt(q.last)
  {
    PartRequest(w, 0)
  }

  /** The sector holding byte `end - 1`, when `e` sectors are the fewest that hold `end` bytes. */
  lemma LastSectorInside(end: int, blockSize: int, e: int, totalBlocks: int)
    requires 0 < end && blockSize > 0 && end <= e * blockSize < end + blockSize && end <= totalBlocks * blockSize
    ensures e <= totalBlocks && (end - 1) / blockSize == e - 1
  {
    assert (totalBlocks + 1) * blockSize == totalBlocks * blockSize + blockSize;
    MulCancelLess(e, totalBlocks + 1, blockSize);
    assert (e - 1) * blockSize == e * blockSize - blockSize;
    DivBetween(end - 1, blockSize, e - 1);
  }

  /**
   * For a non-empty read inside a LUN of `totalBlocks` sectors, the
   * covering range is exactly the sectors holding the first and the last
   * requested byte, and so never passes the LUN's last sector.
   */
  lemma CoveringRequestIsMinimal(position: int, n: int, blockSize: int, totalBlocks: int)
    requires 0 <= position && 0 < n && blockSize > 0 && 0 < totalBlocks < TWO_32
    requires position + n <= totalBlocks * blockSize && totalBlocks * blockSize + blockSize <= TWO_63
    ensures var q := CoveringRequest(SectorWindow(position, n, blockSize));
      && q.first == position / blockSize && q.last == (position + n - 1) / blockSize
      && q.first <= q.last < totalBlocks
  {
    SectorWindowCovers(position, n, blockSize);
    LastSectorInside(position + n, blockSize, SectorWindow(position, n, blockSize).end, totalBlocks);
    PartRequestIsWindow(0, position, n, blockSize);
  }
}
