/**
 * What the dump workflows pick to read once the LUN list is known
 * (`FirehoseDumpStorageLun`, `FirehoseDumpStoragePartitionByUID`,
 * `FirehoseDumpStoragePartitionByNameAndLUN`): a whole LUN, the first
 * partition with a given unique GUID, or the first partition with a given
 * name on a given LUN. The image writing that follows is not modelled;
 * the selection is returned instead. Partition tables come from the
 * `GptProbe` oracle, asked with the LUN's block size; an exception while
 * reading one is caught and counts as no table.
 */
module DumpSelection {
  import opened Wrappers
  import opened Ints
  import opened FirehoseXml
  import opened StorageInfoJson
  import opened Gpt
  import opened StorageTopology
  import opened FirehoseTasks
  import Arith

  const FileExistsError: string := "File already exists"

  /** The storage types the dump workflows handle; any other throws `NotImplementedException`. */
  predicate Dumpable(storageType: StorageType)
  {
    storageType == UFS || storageType == SPINOR
  }

  // ------------------------------------------------------------------
  // Dumping a whole LUN

  /** The device read of a whole-LUN dump and the capacity of the disk image it fills. */
  datatype LunDump = LunDump(lun: uint32, sectorSize: uint32, firstSector: uint32, lastSector: uint32, capacity: int64)

  /**
   * The LUN selection of `FirehoseDumpStorageLun`: none ("Lun not found")
   * when the list has no entry that far; a negative LUN fails on the list
   * index; otherwise sectors 0 through `total_blocks - 1` of the LUN.
   */
  function DumpLunPlan(infos: seq<StorageInfo>, storageType: StorageType, lun: int32): (r: Result<Option<LunDump>>)
    ensures !Dumpable(storageType) ==> r == Err(NotImplemented)
    ensures Dumpable(storageType) ==> (r == Ok(None) <==> |infos| <= lun)
    ensures Dumpable(storageType) && lun < 0 ==> r == Err(ArgumentOutOfRange)
    ensures r.Ok? && r.value.Some? ==> 0 <= lun < |infos| && r.value.value.lun == lun
  {
    if !Dumpable(storageType) then Err(NotImplemented)
    else if |infos| <= lun then Ok(None)
    else if lun < 0 then Err(ArgumentOutOfRange)
    else
      var info := infos[lun];
      Ok(Some(LunDump(
        ToUInt(lun), ToUInt(info.blockSize), 0, ToUInt(ToInt(info.totalBlocks - 1)),
        ToLong(info.blockSize * info.totalBlocks))))
  }

  /**
   * For a LUN with a positive block count and block size, the read covers
   * the LUN's blocks exactly, and the image's capacity is exactly the bytes
   * read.
   */
  lemma DumpLunCoversLun(infos: seq<StorageInfo>, storageType: StorageType, lun: int32)
    requires Dumpable(storageType) && 0 <= lun < |infos|
    requires infos[lun].totalBlocks > 0 && infos[lun].blockSize > 0
    ensures var r := DumpLunPlan(infos, storageType, lun);
      && r.Ok? && r.value.Some?
      && var d := r.value.value;
      && d.sectorSize == infos[lun].blockSize && d.firstSector == 0
      && d.lastSector - d.firstSector + 1 == infos[lun].totalBlocks
      && d.capacity == (d.lastSector - d.firstSector + 1) * d.sectorSize
  {
    var info := infos[lun];
    assert info.blockSize * info.totalBlocks < TWO_63 by {
      Arith.MulMonotone(info.blockSize, TWO_31, info.totalBlocks);
      Arith.MulMonotone(info.totalBlocks, TWO_31, TWO_31);
    }
  }

  /** A LUN with no blocks asks for sectors 0 through 2^32 - 1 of an empty image. */
  lemma DumpEmptyLunWraps(infos: seq<StorageInfo>, storageType: StorageType, lun: int32)
    requires Dumpable(storageType) && 0 <= lun < |infos| && infos[lun].totalBlocks == 0
    ensures var r := DumpLunPlan(infos, storageType, lun);
      r.Ok? && r.value.Some? && r.value.value.lastSector == TWO_32 - 1 && r.value.value.capacity == 0
  {
  }

  // ------------------------------------------------------------------
  // Choosing a partition

  /** The partition chosen: its LUN, the LUN's description and the table entry. */
  datatype PartitionDump = PartitionDump(lun: int, info: StorageInfo, partition: GptPartition)

  /** How a partition search ends. */
  datatype Selection =
    | LunNotFound            // "Lun not found."
    | NoGpt                  // "LUN n: No GPT found"
    | NotFound               // "Partition ... not found."
    | Selected(dump: PartitionDump)

  /** The table of LUN `i` read at its block size, with an exception counted as none. */
  function TableAt(infos: seq<StorageInfo>, probe: GptProbe, i: int): Option<GptTable>
    requires 0 <= i < |infos|
  {
    match probe(i, ToUInt(infos[i].blockSize))
    case Ok(t) => t
    case Err(_) => None
  }

  /** Partition `k` of LUN `i`'s table carries the unique GUID `uid`. */
  predicate UidAt(infos: seq<StorageInfo>, probe: GptProbe, uid: Guid, i: int, k: int)
  {
    && 0 <= i < |infos| && TableAt(infos, probe, i).Some?
    && 0 <= k < |TableAt(infos, probe, i).value.partitions|
    && TableAt(infos, probe, i).value.partitions[k].uid == uid
  }

  /** Partition `k` of LUN `i` is the first match in LUN order, then table order. */
  ghost predicate FirstUidAt(infos: seq<StorageInfo>, probe: GptProbe, uid: Guid, i: int, k: int)
  {
    && UidAt(infos, probe, uid, i, k)
    && (forall i', k' :: 0 <= i' < i ==> !UidAt(infos, probe, uid, i', k'))
    && (forall k' :: 0 <= k' < k ==> !UidAt(infos, probe, uid, i, k'))
  }

  /**
   * The search of `FirehoseDumpStoragePartitionByUID`: LUNs in order, each
   * table's partitions in order, and the first partition with the GUID
   * wins; an existing output file then makes it throw. No match at all is
   * "Partition UID not found".
   */
  method SelectPartitionByUid(infos: seq<StorageInfo>, storageType: StorageType, probe: GptProbe, uid: Guid, fileExists: bool)
    returns (r: Result<Selection>)
    ensures !Dumpable(storageType) ==> r == Err(NotImplemented)
    ensures Dumpable(storageType) ==>
      && (r == Ok(NotFound) <==> forall i, k :: !UidAt(infos, probe, uid, i, k))
      && (r.Err? ==> fileExists && r.error == Failure(FileExistsError))
      && (r.Ok? ==> r.value.NotFound? || r.value.Selected?)
      && (r.Ok? && r.value.Selected? ==>
            var d := r.value.dump;
            && !fileExists && 0 <= d.lun < |infos| && d.info == infos[d.lun]
            && exists k :: FirstUidAt(infos, probe, uid, d.lun, k)
                           && d.partition == TableAt(infos, probe, d.lun).value.partitions[k])
      && (r.Err? <==> fileExists && exists i, k :: UidAt(infos, probe, uid, i, k))
  {
    if !Dumpable(storageType) {
      return Err(NotImplemented);
    }
    var i := 0;
    while i < |infos|
      invariant 0 <= i <= |infos|
      invariant forall i', k' :: 0 <= i' < i ==> !UidAt(infos, probe, uid, i', k')
    {
      var gpt := probe(i, ToUInt(infos[i].blockSize));
      if gpt.Ok? && gpt.value.Some? {
        var partitions := gpt.value.value.partitions;
        var k := 0;
        while k < |partitions|
          invariant 0 <= k <= |partitions|
          invariant forall k' :: 0 <= k' < k ==> !UidAt(infos, probe, uid, i, k')
        {
          if partitions[k].uid == uid {
            assert FirstUidAt(infos, probe, uid, i, k);
            if fileExists {
              return Err(Failure(FileExistsError));
            }
            return Ok(Selected(PartitionDump(i, infos[i], partitions[k])));
          }
          k := k + 1;
        }
      }
      i := i + 1;
    }
    return Ok(NotFound);
  }

  /** Partition `k` of `partitions` is the first whose ASCII name is `name`. */
  predicate FirstNamedAt(partitions: seq<GptPartition>, name: string, k: int)
  {
    && 0 <= k < |partitions| && AsciiName(partitions[k].name) == name
    && forall k' :: 0 <= k' < k ==> AsciiName(partitions[k'].name) != name
  }

  /**
   * The search of `FirehoseDumpStoragePartitionByNameAndLUN`: the LUN must
   * be on the list, its table must be readable, and the first partition
   * whose name, cut down to ASCII, equals `name` wins; an existing output
   * file then makes it throw.
   */
  method SelectPartitionByName(infos: seq<StorageInfo>, storageType: StorageType, probe: GptProbe, name: string,
                               lun: int32, fileExists: bool)
    returns (r: Result<Selection>)
    ensures !Dumpable(storageType) ==> r == Err(NotImplemented)
    ensures Dumpable(storageType) ==>
      && (r == Ok(LunNotFound) <==> |infos| <= lun)
      && (lun < 0 ==> r == Err(ArgumentOutOfRange))
      && (0 <= lun < |infos| ==>
            var t := TableAt(infos, probe, lun);
            && (r == Ok(NoGpt) <==> t.None?)
            && (t.Some? ==>
                  && (r == Ok(NotFound) <==>
                        forall k :: 0 <= k < |t.value.partitions| ==> AsciiName(t.value.partitions[k].name) != name)
                  && (r.Err? <==> fileExists && exists k :: FirstNamedAt(t.value.partitions, name, k))
                  && (r.Err? ==> r.error == Failure(FileExistsError))
                  && (r.Ok? && r.value.Selected? ==>
                        && r.value.dump.lun == lun && r.value.dump.info == infos[lun]
                        && exists k :: FirstNamedAt(t.value.partitions, name, k)
                                       && r.value.dump.partition == t.value.partitions[k])
                  && (r.Ok? ==> r.value.NotFound? || r.value.Selected?)))
  {
    if !Dumpable(storageType) {
      return Err(NotImplemented);
    }
    if |infos| <= lun {
      return Ok(LunNotFound);
    }
    if lun < 0 {
      return Err(ArgumentOutOfRange);
    }
    var gpt := probe(lun, ToUInt(infos[lun].blockSize));
    if gpt.Err? || gpt.value.None? {
      return Ok(NoGpt);
    }
    var partitions := gpt.value.value.partitions;
    var k := 0;
    while k < |partitions|
      invariant 0 <= k <= |partitions|
      invariant forall k' :: 0 <= k' < k ==> AsciiName(partitions[k'].name) != name
    {
      if AsciiName(partitions[k].name) == name {
        assert FirstNamedAt(partitions, name, k);
        if fileExists {
          return Err(Failure(FileExistsError));
        }
        return Ok(Selected(PartitionDump(lun, infos[lun], partitions[k])));
      }
      k := k + 1;
    }
    return Ok(NotFound);
  }
}
