/**
 * The storage description a Firehose programmer embeds, as JSON, in a log
 * line. Only the fields the core reads are kept; the JSON wrapper object
 * (`Root.storage_info`) is flattened away.
 */
module StorageInfoJson {
  import opened Wrappers
  import opened Ints

  /** A number missing from the JSON deserialises as 0, a missing string as null. */
  datatype StorageInfo = StorageInfo(
    blockSize: int32,
    totalBlocks: int32,
    numPhysical: int32,
    prodName: Option<string>)
}
