/**
 * What the external GUID partition table parser returns. The parser
 * itself (`GPT.ReadFromStream`) is not part of this model: callers take
 * it as a function from the bytes read and the sector size to a result.
 */
module Gpt {
  import opened Wrappers
  import opened Ints

  type Guid = seq<byte>

  /** One partition entry; `name` is the raw UTF-16 name array. */
  datatype GptPartition = GptPartition(
    name: seq<char>,
    typeGuid: Guid,
    uid: Guid,
    firstLba: uint64,
    lastLba: uint64,
    attributes: uint64)

  /** A parsed table: the sector size it was read with, the header's last usable LBA, the entries. */
  datatype GptTable = GptTable(
    sectorSize: int32,
    lastUsableLba: uint64,
    partitions: seq<GptPartition>)

  /**
   * The parser as an oracle: a table, no table (null), or an exception,
   * for the given bytes and sector size.
   */
  type GptParser = (seq<byte>, int) -> Result<Option<GptTable>>
}
