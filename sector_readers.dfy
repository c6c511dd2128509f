/**
 * `EDLSectorReader`: a LUN of the device seen as an array of sectors, read
 * through Firehose commands. The source declares it against the
 * `SectorBasedReader` interface; here the one implementation stands in for
 * the interface.
 */
module SectorReaders {
  import opened Wrappers
  import opened Ints
  import opened FirehoseXml
  import opened Transport
  import opened StorageInfoJson
  import opened FirehoseCommands

  class EDLSectorReader {
    const fh: QualcommFirehose
    const physicalPartitionNumber: int32
    const storageInfo: StorageInfo
    const storageType: StorageType
    const verbose: bool
    const maxPayload: int32

    /**
     * Reads end: the block size is a whole number of bytes no larger than
     * the payload cap, so every raw transfer makes progress.
     */
    predicate Valid()
    {
      0 <= storageInfo.blockSize <= maxPayload
    }

    /** The reader over a LUN whose storage description is already known. */
    constructor (fh: QualcommFirehose, physicalPartitionNumber: int32, storageType: StorageType,
                 verbose: bool, maxPayload: int32, luInfo: StorageInfo)
      ensures this.fh == fh && this.physicalPartitionNumber == physicalPartitionNumber
      ensures this.storageType == storageType && this.verbose == verbose
      ensures this.maxPayload == maxPayload && storageInfo == luInfo
    {
      this.fh := fh;
      this.physicalPartitionNumber := physicalPartitionNumber;
      this.storageType := storageType;
      this.verbose := verbose;
      this.maxPayload := maxPayload;
      storageInfo := luInfo;
    }

    /** The sector size, as the `ulong` the interface uses (a negative size sign-extends). */
    function GetSectorSize(): (r: uint64)
      ensures storageInfo.blockSize >= 0 ==> r == storageInfo.blockSize
      ensures storageInfo.blockSize < 0 ==> r >= TWO_64 - TWO_31
    {
      ToULong(storageInfo.blockSize)
    }

    /** The sector count, as the `ulong` the interface uses (a negative count sign-extends). */
    function GetMaxSectors(): (r: uint64)
      ensures storageInfo.totalBlocks >= 0 ==> r == storageInfo.totalBlocks
      ensures storageInfo.totalBlocks < 0 ==> r >= TWO_64 - TWO_31
    {
      ToULong(storageInfo.totalBlocks)
    }

    /** The read command this reader sends for sectors `first..last` (the bounds truncated to `uint`). */
    function ReadRequest(first: uint64, last: uint64): (c: Command)
      ensures c.ReadCommand? && c.sectorSize == ToUInt(storageInfo.blockSize)
      ensures c.lun == ToUInt(physicalPartitionNumber) && c.storageType == storageType
      ensures first < TWO_32 && last < TWO_32 ==> c.firstSector == first && c.lastSector == last
    {
      ReadCommand(storageType, ToUInt(physicalPartitionNumber), ToUInt(storageInfo.blockSize), ToUInt(first), ToUInt(last))
    }

    /** Reads of sectors `first..last` end: the payload cap lets the raw transfer make progress. */
    predicate CanRead(first: uint64, last: uint64)
    {
      var c := ReadRequest(first, last);
      maxPayload >= 0 && ReadTerminates(c.firstSector, c.lastSector, c.sectorSize, maxPayload)
    }

    /**
     * What `ReadSectors` into a new buffer returns against a script: the
     * buffer read's bytes, its exception, or a plain exception for a
     * refused raw mode.
     */
    function SectorsSpec(batches: seq<Batch>, raw: seq<Chunk>, first: uint64, last: uint64): Result<seq<byte>>
    {
      var c := ReadRequest(first, last);
      match ReadBytesSpec(batches, raw, c.sectorSize, c.firstSector, c.lastSector)
      case Err(e) => Err(e)
      case Ok(None) => Err(Failure(""))
      case Ok(Some(bytes)) => Ok(bytes)
    }

    /**
     * `ReadSectors` into a new buffer: the bytes of sectors
     * `first..last`, inclusive; a refused raw mode (a null buffer)
     * becomes a plain exception.
     */
    method ReadSectors(first: uint64, last: uint64) returns (r: Result<seq<byte>>)
      requires var c := ReadRequest(first, last);
        maxPayload >= 0 && (BufferCapacity(c.firstSector, c.lastSector, c.sectorSize) < 0 || CanRead(first, last))
      modifies fh
      ensures fh.closed == old(fh.closed)
      ensures r == SectorsSpec(old(fh.batches), old(fh.raw), first, last)
      ensures var c := ReadRequest(first, last);
        ReadBytesLeaves(old(fh.batches), old(fh.raw), c.sectorSize, c.firstSector, c.lastSector, fh.batches, fh.raw)
      ensures ToUInt(last) < ToUInt(first) ==> r == Err(InvalidData) && fh.sent == old(fh.sent)
      ensures r.Ok? ==>
        var c := ReadRequest(first, last); var n := SectorSpan(c.firstSector, c.lastSector) * c.sectorSize;
        && fh.sent == old(fh.sent) + [c]
        && 0 <= n <= |Flatten(old(fh.raw))| && r.value == Flatten(old(fh.raw))[..n]
      ensures ToUInt(first) <= ToUInt(last) && BufferCapacity(ToUInt(first), ToUInt(last), ToUInt(storageInfo.blockSize)) >= 0 ==>
        var d := DrainSpec(old(fh.batches));
        && (d.result.Err? ==> r == Err(d.result.error))
        && (d.result.Ok? && !d.result.value.rawMode ==> r.Err? && r.error.Failure?)
    {
      var c := ReadRequest(first, last);
      var buffer := ReadBytes(fh, storageType, c.lun, c.sectorSize, c.firstSector, c.lastSector, maxPayload);
      if buffer.Err? {
        return Err(buffer.error);
      }
      if buffer.value.None? {
        return Err(Failure(""));
      }
      r := Ok(buffer.value.value);
    }

    /** `ReadSectors` into a stream: whether raw mode was granted, the bytes going to `out`. */
    method ReadSectorsTo(first: uint64, last: uint64, out: OutputStream) returns (r: Result<bool>)
      requires CanRead(first, last)
      modifies fh, out
      ensures fh.closed == old(fh.closed)
      ensures ToUInt(first) <= ToUInt(last) ==>
        r == ReadSpec(old(fh.batches), old(fh.raw), ToUInt(storageInfo.blockSize), ToUInt(first), ToUInt(last))
      ensures var c := ReadRequest(first, last);
        ReadLeaves(old(fh.batches), old(fh.raw), c.sectorSize, c.firstSector, c.lastSector, fh.batches, fh.raw)
      ensures ToUInt(last) < ToUInt(first) ==> r == Err(InvalidData) && out.written == old(out.written)
      ensures r == Ok(true) ==>
        var c := ReadRequest(first, last); var n := SectorSpan(c.firstSector, c.lastSector) * c.sectorSize;
        && fh.sent == old(fh.sent) + [c]
        && 0 <= n <= |Flatten(old(fh.raw))| && out.written == old(out.written) + Flatten(old(fh.raw))[..n]
      ensures r == Ok(false) ==> out.written == old(out.written) && fh.raw == old(fh.raw)
    {
      var c := ReadRequest(first, last);
      ghost var chunks, progress;
      r, chunks, progress := Read(fh, storageType, c.lun, c.sectorSize, c.firstSector, c.lastSector, maxPayload, out);
    }
  }

  /**
   * The reader constructor that asks the device for the LUN's storage
   * description first, failing when none arrives.
   */
  method Open(fh: QualcommFirehose, parse: string -> Option<StorageInfo>, physicalPartitionNumber: int32,
              storageType: StorageType, verbose: bool, maxPayload: int32)
    returns (r: Result<EDLSectorReader>)
    modifies fh
    ensures fh.sent == old(fh.sent) + [StorageInfoCommand(storageType, ToUInt(physicalPartitionNumber))]
    ensures fh.raw == old(fh.raw) && fh.closed == old(fh.closed)
    ensures var d := DrainSpec(old(fh.batches));
      var info := if d.result.Ok? then StorageInfoLine(d.logs) else None;
      && fh.batches == old(fh.batches)[d.consumed..]
      && (d.result.Err? ==> r == Err(d.result.error))
      && (d.result.Ok? && (info.None? || parse(info.value).None?) ==> r.Err? && r.error.Failure?)
      && (d.result.Ok? && info.Some? && parse(info.value).Some? ==> r.Ok?)
      && (r.Ok? ==>
            && d.result.Ok? && info.Some? && parse(info.value) == Some(r.value.storageInfo)
            && r.value.fh == fh && r.value.physicalPartitionNumber == physicalPartitionNumber
            && r.value.storageType == storageType && r.value.maxPayload == maxPayload && r.value.verbose == verbose)
  {
    var luInfo := GetStorageInfo(fh, parse, storageType, ToUInt(physicalPartitionNumber));
    if luInfo.Err? {
      return Err(luInfo.error);
    }
    if luInfo.value.None? {
      return Err(Failure("Error in reading LUN for storage info!"));
    }
    var reader := new EDLSectorReader(fh, physicalPartitionNumber, storageType, verbose, maxPayload, luInfo.value.value);
    r := Ok(reader);
  }
}
