/**
 * `PartStream`: a read-only, seekable stream over the sectors
 * `firstSector..lastSector` of one LUN, each read fetching the sectors it
 * touches with a fresh Firehose read command.
 */
module PartStreams {
  import opened Wrappers
  import opened Ints
  import opened FirehoseXml
  import opened Transport
  import opened StorageInfoJson
  import opened FirehoseCommands
  import opened SectorMath
  import opened Buffers

  /** The inclusive sector range of a read command. */
  datatype SectorRange = SectorRange(first: int, last: int)

  /**
   * The read command's sector range for a window, offset by the stream's
   * first sector in `uint` arithmetic: the window's sectors, the last one
   * inclusive.
   */
  function PartRequest(w: Window, firstSector: int): (q: SectorRange)
    ensures IsUInt(q.first) && IsUInt(q.last)
  {
    SectorRange(ToUInt(ToUInt(firstSector) + ToUInt(w.first)), ToUInt(ToUInt(firstSector) + ToUInt(w.end) - 1))
  }

  /** With every sector number inside the `uint` range, no sum wraps. */
  lemma PartRequestExact(w: Window, firstSector: int)
    requires 0 <= firstSector && 0 <= w.first && 0 <= w.end
    requires firstSector + w.first < TWO_32 && 0 < firstSector + w.end <= TWO_32
    ensures PartRequest(w, firstSector) == SectorRange(firstSector + w.first, firstSector + w.end - 1)
  {
    assert ToUInt(firstSector) == firstSector && ToUInt(w.first) == w.first;
    assert ToUInt(firstSector + w.first) == firstSector + w.first;
    if w.end < TWO_32 {
      assert ToUInt(w.end) == w.end;
      assert ToUInt(firstSector + w.end - 1) == firstSector + w.end - 1;
    } else {
      // the end sector number itself wraps to 0, and the last sector back to 2^32 - 1
      assert ToUInt(w.end) == 0 && ToUInt(-1) == TWO_32 - 1;
    }
  }

  /**
   * How a stream read ends once the device read has returned: its
   * exception; `Array.Copy`'s exception when a reply came whose bytes do
   * not cover the request or do not fit the buffer; the position setter's
   * exception when the position is negative; otherwise the byte count,
   * whether or not a reply came.
   */
  function WindowOutcome(reply: Result<Option<seq<byte>>>, skip: int, bufferLength: int, offset: int,
                         readBytes: int, position: int): Result<int>
  {
    match reply
    case Err(e) => Err(e)
    case Ok(blocks) =>
      var copy := if blocks.Some? then CopyFault(|blocks.value|, skip, bufferLength, offset, readBytes) else None;
      if copy.Some? then Err(copy.value)
      else if position < 0 then Err(ArgumentOutOfRange)
      else Ok(readBytes)
  }

  class PartStream {
    const fh: QualcommFirehose
    const physicalPartitionNumber: int32
    const storageInfo: StorageInfo
    const storageType: StorageType
    const verbose: bool
    const firstSector: uint64
    const lastSector: uint64
    const maxPayload: int32
    var currentPosition: int64

    /**
     * Reads end: the block size is a whole number of bytes no larger than
     * the payload cap, so every raw transfer makes progress.
     */
    predicate Valid()
    {
      0 <= storageInfo.blockSize <= maxPayload
    }

    /** A stream over a known LUN description, positioned at its start. */
    constructor (fh: QualcommFirehose, physicalPartitionNumber: int32, storageType: StorageType, verbose: bool,
                 firstSector: uint64, lastSector: uint64, maxPayload: int32, luInfo: StorageInfo)
      ensures this.fh == fh && this.physicalPartitionNumber == physicalPartitionNumber
      ensures this.storageType == storageType && this.verbose == verbose
      ensures this.firstSector == firstSector && this.lastSector == lastSector
      ensures this.maxPayload == maxPayload && storageInfo == luInfo && currentPosition == 0
    {
      this.fh := fh;
      this.physicalPartitionNumber := physicalPartitionNumber;
      this.storageType := storageType;
      this.verbose := verbose;
      this.firstSector := firstSector;
      this.lastSector := lastSector;
      this.maxPayload := maxPayload;
      storageInfo := luInfo;
      currentPosition := 0;
    }

    /**
     * The partition's size in bytes: its sector count times the block
     * size, computed as `(long)(ulong)` times `long` with wrap-around.
     */
    function Length(): (n: int64)
      ensures (firstSector <= lastSector && lastSector - firstSector < TWO_63 - 1
               && IsLong((lastSector - firstSector + 1) * storageInfo.blockSize)) ==>
        n == (lastSector - firstSector + 1) * storageInfo.blockSize
    {
      ToLong(ToLong(ToULong(lastSector - firstSector + 1)) * storageInfo.blockSize)
    }

    /** The `Position` setter. */
    method SetPosition(value: int64) returns (failure: Option<Error>)
      modifies this
      ensures old(currentPosition) < 0 ==> failure == Some(ArgumentOutOfRange) && currentPosition == old(currentPosition)
      ensures old(currentPosition) >= 0 ==> failure == None && currentPosition == value
    {
      if currentPosition < 0 {
        return Some(ArgumentOutOfRange);
      }
      currentPosition := value;
      failure := None;
    }

    /**
     * The device half of `Read`: fetch the window of sectors under
     * `count` bytes at the current position, fewer where the partition
     * ends first, copy those bytes into
     * `buffer` at `offset` when the device answered with data, and
     * advance the position.
     */
    method ReadWindow(buffer: array<byte>, offset: int32, count: int32) returns (r: Result<int>, ghost reply: Option<seq<byte>>)
      requires Valid() && storageInfo.blockSize > 0 && 0 <= count && currentPosition < Length()
      modifies this, fh, buffer
      ensures var n := ClampedCount(old(currentPosition), count, Length());
        var w := SectorWindow(old(currentPosition), n, storageInfo.blockSize);
        var q := PartRequest(w, firstSector);
        var s := ReadBytesSpec(old(fh.batches), old(fh.raw), storageInfo.blockSize, q.first, q.last);
        && r == WindowOutcome(s, w.skip, buffer.Length, offset, n, old(currentPosition))
        && (s.Ok? ==> reply == s.value)
        && ReadBytesLeaves(old(fh.batches), old(fh.raw), storageInfo.blockSize, q.first, q.last, fh.batches, fh.raw)
      ensures r.Err? ==> currentPosition == old(currentPosition)
      ensures fh.closed == old(fh.closed)
      ensures r.Ok? ==>
        var n := ClampedCount(old(currentPosition), count, Length());
        var w := SectorWindow(old(currentPosition), n, storageInfo.blockSize);
        var q := PartRequest(w, firstSector);
        && r.value == n && old(currentPosition) >= 0
        && currentPosition == ToLong(old(currentPosition) + n)
        && fh.sent == old(fh.sent) + [ReadCommand(storageType, ToUInt(physicalPartitionNumber), storageInfo.blockSize, q.first, q.last)]
        && (reply.None? ==> buffer[..] == old(buffer[..]))
        && (reply.Some? ==>
              && |reply.value| == SectorSpan(q.first, q.last) * storageInfo.blockSize
              && |reply.value| <= |Flatten(old(fh.raw))| && reply.value == Flatten(old(fh.raw))[..|reply.value|]
              && 0 <= w.skip && w.skip + n <= |reply.value| && 0 <= offset && offset + n <= buffer.Length
              && buffer[..] == old(buffer[..])[..offset] + reply.value[w.skip .. w.skip + n] + old(buffer[..])[offset + n..])
    {
      reply := None;
      var readBytes := ClampedCount(currentPosition, count, Length());
      var w := SectorWindow(currentPosition, readBytes, storageInfo.blockSize);
      var q := PartRequest(w, firstSector);
      var blocks := ReadBytes(fh, storageType, ToUInt(physicalPartitionNumber), storageInfo.blockSize, q.first, q.last, maxPayload);
      assert currentPosition == old(currentPosition) && buffer[..] == old(buffer[..]);
      if blocks.Err? {
        return Err(blocks.error), reply;
      }
      reply := blocks.value;
      if blocks.value.Some? {
        var failure := Copy(blocks.value.value, w.skip, buffer, offset, readBytes);
        if failure.Some? {
          return Err(failure.value), reply;
        }
      }
      var failure := SetPosition(ToLong(currentPosition + readBytes));
      if failure.Some? {
        return Err(failure.value), reply;
      }
      r := Ok(readBytes);
    }

    /**
     * `Read`: validate the arguments, then fetch the sectors under
     * `count` bytes at the current position (fewer at the end), copy the
     * requested bytes into `buffer` at `offset` and advance. At or past
     * the end the call reports `count` bytes without reading. A refused
     * raw mode leaves `buffer` as it was but still advances. `reply` is
     * the device's answer to the read command, if one came.
     */
    method Read(buffer: array?<byte>, offset: int32, count: int32) returns (r: Result<int>, ghost reply: Option<seq<byte>>)
      requires (buffer != null && ToInt(offset + count) <= buffer.Length && offset >= 0 && count >= 0
                && currentPosition < Length() && storageInfo.blockSize != 0) ==> Valid()
      modifies this, fh, buffer
      ensures buffer == null ==> r == Err(ArgumentNull)
      ensures buffer != null && ToInt(offset + count) > buffer.Length ==> r == Err(ArgumentError)
      ensures buffer != null && ToInt(offset + count) <= buffer.Length && (offset < 0 || count < 0) ==>
        r == Err(ArgumentOutOfRange)
      ensures r.Err? && (buffer == null || ToInt(offset + count) > buffer.Length || offset < 0 || count < 0) ==>
        && fh.sent == old(fh.sent) && fh.batches == old(fh.batches) && fh.raw == old(fh.raw)
        && (buffer != null ==> buffer[..] == old(buffer[..]))
      ensures r.Err? ==> currentPosition == old(currentPosition)
      ensures fh.closed == old(fh.closed)
      ensures buffer != null && ToInt(offset + count) <= buffer.Length && offset >= 0 && count >= 0 ==>
        && (old(currentPosition) >= Length() ==>
              r == Ok(count as int) && currentPosition == old(currentPosition) && fh.sent == old(fh.sent)
              && fh.batches == old(fh.batches) && fh.raw == old(fh.raw) && buffer[..] == old(buffer[..]))
        && (old(currentPosition) < Length() && storageInfo.blockSize == 0 ==>
              r == Err(DivideByZero) && currentPosition == old(currentPosition) && fh.sent == old(fh.sent)
              && fh.batches == old(fh.batches) && fh.raw == old(fh.raw) && buffer[..] == old(buffer[..]))
        && (old(currentPosition) < Length() && storageInfo.blockSize > 0 ==>
              var n := ClampedCount(old(currentPosition), count, Length());
              var w := SectorWindow(old(currentPosition), n, storageInfo.blockSize);
              var q := PartRequest(w, firstSector);
              var s := ReadBytesSpec(old(fh.batches), old(fh.raw), storageInfo.blockSize, q.first, q.last);
              && r == WindowOutcome(s, w.skip, buffer.Length, offset, n, old(currentPosition))
              && (s.Ok? ==> reply == s.value)
              && ReadBytesLeaves(old(fh.batches), old(fh.raw), storageInfo.blockSize, q.first, q.last, fh.batches, fh.raw))
      ensures r.Ok? && buffer != null && old(currentPosition) < Length() ==>
        var n := ClampedCount(old(currentPosition), count, Length());
        var w := SectorWindow(old(currentPosition), n, storageInfo.blockSize);
        var q := PartRequest(w, firstSector);
        && storageInfo.blockSize > 0 && r.value == n && old(currentPosition) >= 0
        && currentPosition == ToLong(old(currentPosition) + n)
        && fh.sent == old(fh.sent) + [ReadCommand(storageType, ToUInt(physicalPartitionNumber), storageInfo.blockSize, q.first, q.last)]
        && (reply.None? ==> buffer[..] == old(buffer[..]))
        && (reply.Some? ==>
              && |reply.value| == SectorSpan(q.first, q.last) * storageInfo.blockSize
              && |reply.value| <= |Flatten(old(fh.raw))| && reply.value == Flatten(old(fh.raw))[..|reply.value|]
              && 0 <= w.skip && w.skip + n <= |reply.value| && offset + n <= buffer.Length
              && buffer[..] == old(buffer[..])[..offset] + reply.value[w.skip .. w.skip + n] + old(buffer[..])[offset + n..])
    {
      reply := None;
      if buffer == null {
        r := Err(ArgumentNull);
      } else if ToInt(offset + count) > buffer.Length {
        r := Err(ArgumentError);
      } else if offset < 0 || count < 0 {
        r := Err(ArgumentOutOfRange);
      } else {
        r, reply := ReadChecked(buffer, offset, count);
      }
    }

    /**
     * `Read` once its arguments have passed the checks: at or past the
     * end report `count` bytes, otherwise read the window of the clamped
     * count.
     */
    method ReadChecked(buffer: array<byte>, offset: int32, count: int32) returns (r: Result<int>, ghost reply: Option<seq<byte>>)
      requires offset >= 0 && count >= 0
      requires (currentPosition < Length() && storageInfo.blockSize != 0) ==> Valid()
      modifies this, fh, buffer
      ensures r.Err? ==> currentPosition == old(currentPosition)
      ensures fh.closed == old(fh.closed)
      ensures old(currentPosition) >= Length() ==>
        r == Ok(count as int) && currentPosition == old(currentPosition) && fh.sent == old(fh.sent)
        && fh.batches == old(fh.batches) && fh.raw == old(fh.raw) && buffer[..] == old(buffer[..])
      ensures old(currentPosition) < Length() && storageInfo.blockSize == 0 ==>
        r == Err(DivideByZero) && currentPosition == old(currentPosition) && fh.sent == old(fh.sent)
        && fh.batches == old(fh.batches) && fh.raw == old(fh.raw) && buffer[..] == old(buffer[..])
      ensures old(currentPosition) < Length() && storageInfo.blockSize > 0 ==>
        var n := ClampedCount(old(currentPosition), count, Length());
        var w := SectorWindow(old(currentPosition), n, storageInfo.blockSize);
        var q := PartRequest(w, firstSector);
        var s := ReadBytesSpec(old(fh.batches), old(fh.raw), storageInfo.blockSize, q.first, q.last);
        && r == WindowOutcome(s, w.skip, buffer.Length, offset, n, old(currentPosition))
        && (s.Ok? ==> reply == s.value)
        && ReadBytesLeaves(old(fh.batches), old(fh.raw), storageInfo.blockSize, q.first, q.last, fh.batches, fh.raw)
      ensures r.Ok? && old(currentPosition) < Length() ==>
        var n := ClampedCount(old(currentPosition), count, Length());
        var w := SectorWindow(old(currentPosition), n, storageInfo.blockSize);
        var q := PartRequest(w, firstSector);
        && storageInfo.blockSize > 0 && r.value == n && old(currentPosition) >= 0
        && currentPosition == ToLong(old(currentPosition) + n)
        && fh.sent == old(fh.sent) + [ReadCommand(storageType, ToUInt(physicalPartitionNumber), storageInfo.blockSize, q.first, q.last)]
        && (reply.None? ==> buffer[..] == old(buffer[..]))
        && (reply.Some? ==>
              && |reply.value| == SectorSpan(q.first, q.last) * storageInfo.blockSize
              && |reply.value| <= |Flatten(old(fh.raw))| && reply.value == Flatten(old(fh.raw))[..|reply.value|]
              && 0 <= w.skip && w.skip + n <= |reply.value| && offset + n <= buffer.Length
              && buffer[..] == old(buffer[..])[..offset] + reply.value[w.skip .. w.skip + n] + old(buffer[..])[offset + n..])
    {
      reply := None;
      if currentPosition >= Length() {
        r := Ok(count as int);
      } else if storageInfo.blockSize == 0 {
        r := Err(DivideByZero);
      } else {
        assert Valid();
        r, reply := ReadWindow(buffer, offset, count);
      }
    }

    /**
     * `Seek`: move to `offset` from the start, the current position or
     * the end, and report the new position; refused for an undefined
     * origin, and for every origin while the position is negative.
     */
    method Seek(offset: int64, origin: SeekOrigin) returns (r: Result<int64>)
      modifies this
      ensures origin == Undefined ==> r == Err(ArgumentError) && currentPosition == old(currentPosition)
      ensures origin != Undefined && old(currentPosition) < 0 ==>
        r == Err(ArgumentOutOfRange) && currentPosition == old(currentPosition)
      ensures origin != Undefined && old(currentPosition) >= 0 ==>
        currentPosition == SeekTarget(origin, offset, old(currentPosition), Length()) && r == Ok(currentPosition)
    {
      if origin == Undefined {
        return Err(ArgumentError);
      }
      var failure := SetPosition(SeekTarget(origin, offset, currentPosition, Length()));
      if failure.Some? {
        return Err(failure.value);
      }
      r := Ok(currentPosition);
    }
  }

  /**
   * The `PartStream` constructor: ask the device for the LUN's storage
   * description, failing when none arrives, and start at position 0.
   */
  method Open(fh: QualcommFirehose, parse: string -> Option<StorageInfo>, physicalPartitionNumber: int32,
              storageType: StorageType, verbose: bool, firstSector: uint64, lastSector: uint64, maxPayload: int32)
    returns (r: Result<PartStream>)
    modifies fh
    ensures fh.sent == old(fh.sent) + [StorageInfoCommand(storageType, ToUInt(physicalPartitionNumber))]
    ensures fh.raw == old(fh.raw) && fh.closed == old(fh.closed)
    ensures var d := DrainSpec(old(fh.batches));
      var info := if d.result.Ok? then StorageInfoLine(d.logs) else None;
      && fh.batches == old(fh.batches)[d.consumed..]
      && (d.result.Err? ==> r == Err(d.result.error))
      && (d.result.Ok? && (info.None? || parse(info.value).None?) ==> r.Err? && r.error.Failure?)
      && (d.result.Ok? && info.Some? && parse(info.value).Some? ==> r.Ok?)
      && (r.Ok? ==>
            && d.result.Ok? && info.Some? && parse(info.value) == Some(r.value.storageInfo)
            && fresh(r.value) && r.value.fh == fh && r.value.currentPosition == 0
            && r.value.firstSector == firstSector && r.value.lastSector == lastSector
            && r.value.physicalPartitionNumber == physicalPartitionNumber && r.value.storageType == storageType
            && r.value.maxPayload == maxPayload && r.value.verbose == verbose)
  {
    var luInfo := GetStorageInfo(fh, parse, storageType, ToUInt(physicalPartitionNumber));
    if luInfo.Err? {
      return Err(luInfo.error);
    }
    if luInfo.value.None? {
      return Err(Failure("Error in reading LUN for storage info!"));
    }
    var stream := new PartStream(fh, physicalPartitionNumber, storageType, verbose, firstSector, lastSector,
                                 maxPayload, luInfo.value.value);
    r := Ok(stream);
  }

  /**
   * For a non-empty read inside the partition whose sectors have `uint`
   * numbers, the command asks for exactly the window's sectors, offset
   * by the partition's first sector: from the sector holding the
   * position to the last sector the read reaches.
   */
  lemma PartRequestIsWindow(firstSector: int, position: int, n: int, blockSize: int)
    requires 0 <= position && 0 <= n && blockSize > 0 && position + n + blockSize <= TWO_63
    requires n > 0 || position % blockSize != 0
    requires 0 <= firstSector && firstSector + SectorWindow(position, n, blockSize).end <= TWO_32
    ensures var w := SectorWindow(position, n, blockSize); var q := PartRequest(w, firstSector);
      && q.first == firstSector + position / blockSize && q.last == firstSector + w.end - 1
      && q.first <= q.last
  {
    SectorWindowCovers(position, n, blockSize);
    var w := SectorWindow(position, n, blockSize);
    assert 0 <= w.first < w.end;
    assert 0 <= firstSector + w.first < TWO_32 && 0 < firstSector + w.end <= TWO_32;
    PartRequestExact(w, firstSector);
  }

  /**
   * A non-empty read inside the partition, against a programmer that
   * grants raw mode, streams the window's sectors and answers once more,
   * delivers every requested byte without error: the device's answer is
   * the window's sectors from the raw stream, and the requested bytes are
   * the ones at the window's skip.
   */
  lemma GrantedPartReadSucceeds(ack: Response, trailer: Response, rest: seq<Batch>, raw: seq<Chunk>,
                                firstSector: int, position: int, n: int, blockSize: int, bufferLength: int, offset: int)
    requires ack.rawMode && 0 <= position && 0 < n && 0 < blockSize < TWO_31 && position + n + blockSize <= TWO_63
    requires 0 <= firstSector && firstSector + SectorWindow(position, n, blockSize).end <= TWO_32
    requires var w := SectorWindow(position, n, blockSize);
      (w.end - w.first) * blockSize <= |Flatten(raw)| && (w.end - w.first) * blockSize < TWO_31
    requires 0 <= offset && offset + n <= bufferLength
    ensures var w := SectorWindow(position, n, blockSize); var q := PartRequest(w, firstSector);
      var s := ReadBytesSpec([Frames([Resp(ack)]), Frames([Resp(trailer)])] + rest, raw, blockSize, q.first, q.last);
      && s.Ok? && s.value.Some? && |s.value.value| == (w.end - w.first) * blockSize && s.value.value <= Flatten(raw)
      && WindowOutcome(s, w.skip, bufferLength, offset, n, position) == Ok(n)
      && 0 <= w.skip && w.skip + n <= |s.value.value|
      && s.value.value[w.skip .. w.skip + n] == Flatten(raw)[w.skip .. w.skip + n]
  {
    var w := SectorWindow(position, n, blockSize);
    var q := PartRequest(w, firstSector);
    SectorWindowCovers(position, n, blockSize);
    PartRequestIsWindow(firstSector, position, n, blockSize);
    var len := (w.end - w.first) * blockSize;
    assert SectorSpan(q.first, q.last) * blockSize == len;
    assert BufferCapacity(q.first, q.last, blockSize) == len;
    GrantedReadDelivers(ack, trailer, rest, raw, blockSize, q.first, q.last);
    var s := ReadBytesSpec([Frames([Resp(ack)]), Frames([Resp(trailer)])] + rest, raw, blockSize, q.first, q.last);
    assert s == Ok(Some(Flatten(raw)[..len]));
    assert s.value.value[w.skip .. w.skip + n] == Flatten(raw)[w.skip .. w.skip + n];
  }

  /**
   * An empty read at a sector boundary gives an empty window, whose
   * inclusive range ends one sector before it starts: the read command
   * is refused with InvalidData, or, at absolute sector 0, wraps to the
   * whole `uint` sector range.
   */
  lemma EmptyAlignedReadRange(firstSector: int, position: int, blockSize: int)
    requires 0 <= position && blockSize > 0 && position + blockSize <= TWO_63 && position % blockSize == 0
    requires 0 <= firstSector && firstSector + position / blockSize < TWO_32
    ensures var q := PartRequest(SectorWindow(position, 0, blockSize), firstSector);
      && q.first == firstSector + position / blockSize
      && (q.first > 0 ==> q.last == q.first - 1)
      && (q.first == 0 ==> q.last == TWO_32 - 1)
  {
    SectorWindowCovers(position, 0, blockSize);
  }
}
