# QCEDL.NET core in Dafny

QCEDL.NET is a host-side tool for Qualcomm devices in emergency download
(EDL) mode. It recognises the device on USB and hands it a Firehose
programmer over Sahara. It then talks Firehose XML to it: configure, read
sectors in raw mode, query storage information, and reset. With those
commands it discovers the LUNs of the device's storage and dumps a whole
LUN or one partition.

This project models the sequential logic of that core. It proves what each
operation does, stated against the state it starts from:

- **Firehose command engine** (`FirehoseCommands`)
  - Commands are methods on a scripted Firehose channel (`Transport.QualcommFirehose`).
  - The channel holds the frame batches the device will send, the raw byte chunks it will stream, the commands sent so far, and whether the port is closed.
  - The reply drain, configure negotiation, reset and storage-info query are each proved equal to a pure function of the script.
  - Every outcome of the raw-mode read is proved equal to a pure function of the script (`ReadSpec`, `ReadBytesSpec`): its errors, the refusal, a timeout when the raw stream runs short, and success. The sector reader, both streams and the GPT read state their outcomes through the same functions.
- **Response attribute records** (`FirehoseXml`): optional XML attributes as `Option` fields, with defaulting getters and `ShouldSerialize*` predicates.
- **Streams over sectors**
  - `PartStreams.PartStream` and `LunStreams.LUNStream` are classes with a mutable position that read through `SectorReaders.EDLSectorReader`.
  - Each `Read` turns a byte request into one whole-sector device read, copies the requested slice into the caller's array, and advances.
  - `SectorMath` holds the shared alignment arithmetic, including C#'s truncating `/` and `%` and the `long`/`int`/`uint` wrap-around (`Ints`).
- **Storage topology discovery** (`StorageTopology.GetStorageInfos`)
  - The primary per-LUN query path.
  - The fallback that probes ten LUNs with a sticky 4096-then-512 sector size, then rebuilds a dense LUN list with placeholders.
- **Dump selection** (`DumpSelection`): which LUN or partition the dump workflows read.
- **Session bring-up** (`FirehoseTasks`)
  - The outcome table of `CommonFirehoseLoad`, with the Sahara steps as a script.
  - The root-key-hash name lookup.
  - The GPT read.
  - Partition-name cleanup and the padded listing.
- **EDL device classification** (`UsbNotifier.GetEmergencyPathType`).

The device and the external libraries are inputs:

- The frame and raw-byte script of the channel.
- The JSON storage-info parser, `string -> Option<StorageInfo>`.
- The GPT parser (`Gpt.GptParser`).
- For discovery and dump selection, the storage-info query and the GPT probe as functions of the LUN (`StorageTopology.InfoQuery`, `StorageTopology.GptProbe`).
- Whether the output file exists, as a `bool`.
- The outcome of every Sahara step (`FirehoseTasks.SaharaScript`).
- The known OEM key-hash table, as a list of (name, hash) pairs.

## Model

| member | source | states |
|---|---|---|
| FirehoseXml.ConfigureResponse.SetStorageType | QCEDL.NET/Layers/APSS/Firehose/Xml/Elements/ConfigureResponse.cs:7-18 | setting `storage_type` makes it read back and serialise, and leaves every other attribute unchanged |
| FirehoseXml.ConfigureResponse.SetMinVersionSupported | QCEDL.NET/Layers/APSS/Firehose/Xml/Elements/ConfigureResponse.cs:20-31 | the set value reads back, the attribute serialises, nothing else changes |
| FirehoseXml.ConfigureResponse.SetVersion | QCEDL.NET/Layers/APSS/Firehose/Xml/Elements/ConfigureResponse.cs:33-44 | the set value reads back, the attribute serialises, nothing else changes |
| FirehoseXml.ConfigureResponse.SetMaxPayloadSizeToTargetInBytes | QCEDL.NET/Layers/APSS/Firehose/Xml/Elements/ConfigureResponse.cs:46-57 | the set value reads back, the attribute serialises, nothing else changes |
| FirehoseXml.ConfigureResponse.SetMaxPayloadSizeToTargetInBytesSupported | QCEDL.NET/Layers/APSS/Firehose/Xml/Elements/ConfigureResponse.cs:59-70 | the set value reads back, the attribute serialises, nothing else changes |
| FirehoseXml.ConfigureResponse.SetMaxXmlSizeInBytes | QCEDL.NET/Layers/APSS/Firehose/Xml/Elements/ConfigureResponse.cs:72-83 | the set value reads back, the attribute serialises, nothing else changes |
| FirehoseXml.ConfigureResponse.SetDateTime | QCEDL.NET/Layers/APSS/Firehose/Xml/Elements/ConfigureResponse.cs:85-89 | `DateTime` is a plain nullable property; setting it changes nothing else |
| FirehoseXml.AbsentAttributesReadAsDefaults | QCEDL.NET/Layers/APSS/Firehose/Xml/Elements/ConfigureResponse.cs:7-83 | with no attribute present, storage type reads as UFS, every integer attribute as 0, `value` as NAK and `rawmode` as false, and no `ShouldSerialize*` holds |
| FirehoseXml.Response.SetValue | QCEDL.NET/Layers/APSS/Firehose/Xml/Elements/Response.cs:8-19 | a set `value` reads back and serialises; the inherited attributes, `rawmode` and `sha256` are unchanged |
| FirehoseXml.Response.SetRawMode | QCEDL.NET/Layers/APSS/Firehose/Xml/Elements/Response.cs:21-25 | `rawmode` is a plain bool that reads back what was set, and nothing else changes |
| FirehoseXml.Response.SetSha256 | QCEDL.NET/Layers/APSS/Firehose/Xml/Elements/Response.cs:27-36 | `ShouldSerializeSHA256` holds exactly when the hash is non-null |
| FirehoseXml.NakKeepsSupportedPayload | QCEDL.NET/Layers/APSS/Firehose/Xml/Elements/Response.cs:6 | a NAK response still carries the inherited supported payload size that `Configure` reuses |
| Transport.QualcommFirehose.GetFirehoseResponseDataPayloads | QCEDL.NET/Layers/APSS/Firehose/QualcommFirehoseCommands.cs:64 | stand-in for the frame reader: the next scripted batch or its fault; once the script is exhausted, the device is gone (BadConnection) |
| Transport.QualcommFirehose.GetResponse | QCEDL.NET/Layers/APSS/Firehose/QualcommFirehoseCommands.cs:144 | stand-in for a serial read: a non-empty prefix of the raw stream, at most the requested length; a timeout when nothing is left |
| Transport.QualcommFirehose.Close | QCEDL.NET/Layers/APSS/Firehose/QualcommFirehoseCommands.cs:178 | closes the port and changes nothing else |
| FirehoseCommands.FirstResponse | QCEDL.NET/Layers/APSS/Firehose/QualcommFirehoseCommands.cs:66-84 | the position of a Response frame with no Response before it, or none when the frames hold no Response |
| FirehoseCommands.FirstResponseAt | QCEDL.NET/Layers/APSS/Firehose/QualcommFirehoseCommands.cs:81-84 | a Response with none before it is the one the loop returns |
| FirehoseCommands.FirstResponseConcat | QCEDL.NET/Layers/APSS/Firehose/QualcommFirehoseCommands.cs:62-97 | across batches: a Response in the earlier frames wins, and later frames only matter when the earlier ones hold none |
| FirehoseCommands.DrainFindsFirstResponse | QCEDL.NET/Layers/APSS/Firehose/QualcommFirehoseCommands.cs:60-98 | the drain returns the first Response of the whole frame stream, with the logs of every Log frame before it, in order; it skips unrecognised frames and ignores the rest of the batch; if no Response comes, it ends with the error that stopped the stream |
| FirehoseCommands.ScanFrames | QCEDL.NET/Layers/APSS/Firehose/QualcommFirehoseCommands.cs:66-96 | one batch's loop returns the first Response and the log lines before it |
| FirehoseCommands.MessageLoop | QCEDL.NET/Layers/APSS/Firehose/QualcommFirehoseCommands.cs:60-98 | the result, its log lines and the batches it consumes are those of the drain specification; the raw stream, sent commands and port are untouched |
| FirehoseCommands.Configure2 | QCEDL.NET/Layers/APSS/Firehose/QualcommFirehoseCommands.cs:29-40 | sends one configure command with the given payload size, then answers with the drained response |
| FirehoseCommands.Configure | QCEDL.NET/Layers/APSS/Firehose/QualcommFirehoseCommands.cs:13-27 | its result, the commands it sends and the batches it consumes are those of the two-step negotiation |
| FirehoseCommands.ConfigureSendsAtMostTwo | QCEDL.NET/Layers/APSS/Firehose/QualcommFirehoseCommands.cs:15-26 | sends one or two configure commands; the first asks for `ulong.MaxValue`; there is a second exactly when the first reply is not ACK, and it asks for the first reply's supported size cast to `ulong`; with two commands, the result is the second drain's |
| FirehoseCommands.ConfigureTwoStepNegotiation | QCEDL.NET/Layers/APSS/Firehose/QualcommFirehoseCommands.cs:15-26 | a NAK then an ACK gives the ACK after exactly two commands |
| FirehoseCommands.SectorSpan | QCEDL.NET/Layers/APSS/Firehose/QualcommFirehoseCommands.cs:125 | `LastSector - FirstSector + 1` in `uint` arithmetic equals the true sector count whenever that count fits |
| FirehoseCommands.SumDistributes | QCEDL.NET/Layers/APSS/Firehose/QualcommFirehoseCommands.cs:149-154 | when every chunk is its sector count times the sector size, the bytes total the sector total times the sector size |
| FirehoseCommands.ReceiveChunk | QCEDL.NET/Layers/APSS/Firehose/QualcommFirehoseCommands.cs:141-147 | the inner loop writes exactly the next `size` bytes of the raw stream to the output, or times out when the stream holds fewer |
| FirehoseCommands.NextChunk | QCEDL.NET/Layers/APSS/Firehose/QualcommFirehoseCommands.cs:136-149 | one outer step takes a positive whole number of sectors, no more than remain and no more bytes than the payload cap |
| FirehoseCommands.SectorChunkStep | QCEDL.NET/Layers/APSS/Firehose/QualcommFirehoseCommands.cs:136-153 | the capped buffer size is a whole, positive number of sectors within the cap and at most what remains |
| FirehoseCommands.ReceiveSectors | QCEDL.NET/Layers/APSS/Firehose/QualcommFirehoseCommands.cs:124-155 | writes exactly `span * sectorSize` bytes, the next ones of the raw stream; every chunk is whole sectors within the cap, the progress steps sum to `span`, and a zero sector size divides by zero; a timeout comes only when the raw stream holds fewer than `span * sectorSize` bytes |
| FirehoseCommands.ReadSpec | QCEDL.NET/Layers/APSS/Firehose/QualcommFirehoseCommands.cs:116-160 | the stream read succeeds only when the raw stream holds all `(Last - First + 1) * SectorSize` bytes |
| FirehoseCommands.Read | QCEDL.NET/Layers/APSS/Firehose/QualcommFirehoseCommands.cs:100-161 | Last < First throws before sending and leaves the channel as it was; otherwise one read command is sent and the result is `ReadSpec` of the script: the first drain's error, false for an ACK without `rawmode` (no payload read), a division by zero for a zero sector size, a timeout when the raw stream runs short, the trailing drain's error, or true; when the first drain fails or refuses raw mode, exactly its responses are gone from the script and the raw stream is untouched; on true it wrote exactly the next `(Last - First + 1) * SectorSize` raw bytes in whole-sector chunks, consumed exactly those from the raw stream, and drained exactly once more |
| FirehoseCommands.GrantedReadDelivers | QCEDL.NET/Layers/APSS/Firehose/QualcommFirehoseCommands.cs:42-161 | a programmer that grants raw mode, streams enough bytes and answers once more makes the stream read return true and the byte-array read return exactly those bytes |
| FirehoseCommands.BufferCapacity | QCEDL.NET/Layers/APSS/Firehose/QualcommFirehoseCommands.cs:49 | the `int` buffer capacity equals the byte count whenever that fits in an `int` |
| FirehoseCommands.ReadBytes | QCEDL.NET/Layers/APSS/Firehose/QualcommFirehoseCommands.cs:42-58 | the byte-array overload: InvalidData for Last < First, then ArgumentOutOfRange for a negative capacity, both before sending and with the channel untouched; otherwise the stream read's outcome, with exactly the sectors' bytes in place of true and null in place of false, and the stream read's effect on the script and the raw stream |
| FirehoseCommands.Reset | QCEDL.NET/Layers/APSS/Firehose/QualcommFirehoseCommands.cs:163-181 | sends one power command and drains once; then it closes the port and returns true, or, when the drain throws, leaves the port open and fails |
| FirehoseCommands.ResetOnRemovedDevice | QCEDL.NET/Layers/APSS/Firehose/QualcommFirehoseCommands.cs:173-178 | on a device that is already gone, `Reset` fails with BadConnection and leaves the port open |
| FirehoseCommands.ResetAndClose | QCEDL.NET/Layers/APSS/Firehose/QualcommFirehoseCommands.cs:163-181 | the corrected reset: the same command, drain and result, and the port is closed on every path |
| FirehoseCommands.StorageInfoLineIsLastMatch | QCEDL.NET/Layers/APSS/Firehose/QualcommFirehoseCommands.cs:193-206 | no line is captured iff no log line starts with `INFO: {"storage_info": `; otherwise the last such line wins, minus its first 6 characters |
| FirehoseCommands.GetStorageInfo | QCEDL.NET/Layers/APSS/Firehose/QualcommFirehoseCommands.cs:183-216 | sends one storage-info command; the result is null without a matching log line, otherwise the parse of the captured text (null when it fails) |
| Buffers.Copy | QCEDL.Client/PartStream.cs:108 | `Array.Copy`: writes exactly `length` source bytes at `dstIndex` and leaves the rest of the array as it was; argument faults throw without writing: ArgumentOutOfRange for a negative index or length, then ArgumentException for a range past either end |
| SectorMath.ClampedCount | QCEDL.Client/PartStream.cs:71-76 | the bytes a read delivers: at most `count`, never past the end, and either all of `count` or exactly up to the end |
| SectorMath.SeekTarget | QCEDL.Client/PartStream.cs:143-169 | Begin, Current and End give `offset`, `position + offset` and `length + offset` (wrapping in `long`) |
| SectorMath.SectorWindowCovers | QCEDL.Client/PartStream.cs:78-102 | the window starts at the sector holding the position and ends at the first sector boundary at or after the read's end, so it is the smallest whole-sector range holding the bytes; it is empty only for an empty read on a boundary |
| SectorMath.SectorWindowValues | QCEDL.Client/LUNStream.cs:54-63 | for positions inside the device, C#'s truncating `%` and `/` give exactly round-down and round-up |
| SectorMath.WindowCopyIsImageSlice | QCEDL.Client/PartStream.cs:106-109 | when the device answers with the window's sectors, the bytes copied out are exactly the requested bytes of the image |
| PartStreams.PartRequestExact | QCEDL.Client/PartStream.cs:104 | with sector numbers inside `uint`, the `uint` sums give the window's sectors offset by the first sector, the last one inclusive |
| PartStreams.PartRequestIsWindow | QCEDL.Client/PartStream.cs:78-104 | for a non-empty read, the command covers exactly sectors `firstSector + floor(P/bs)` through `firstSector + ceil((P+n)/bs) - 1` |
| PartStreams.EmptyAlignedReadRange | QCEDL.Client/PartStream.cs:81-104 | a zero-length read at a sector boundary asks for an empty range: last is first minus one, or it wraps to `2^32 - 1` at sector 0 |
| PartStreams.PartStream.constructor | QCEDL.Client/PartStream.cs:17-31 | the stream keeps its arguments and starts at position 0 |
| PartStreams.PartStream.Length | QCEDL.Client/PartStream.cs:37 | `(lastSector - firstSector + 1) * block_size` whenever nothing wraps |
| PartStreams.PartStream.SetPosition | QCEDL.Client/PartStream.cs:39-51 | the setter refuses while the old position is negative, whatever the new value, and otherwise stores the value |
| PartStreams.PartStream.ReadWindow | QCEDL.Client/PartStream.cs:71-140 | clamps `count` to the bytes left and sends the one read command for that window; the result is the byte read's error, a copy fault, or the clamped count, and it is that count whenever the device grants raw mode and sends the bytes; whenever the byte read succeeds, the reply is its answer: exactly the window's sectors from the raw stream, or null when raw mode is refused; the script and raw stream are left as the byte read leaves them; copies the requested bytes out of that reply when there is one, and changes no other byte of the buffer; advances by the count even when the reply was null, and does not move on an error |
| PartStreams.PartStream.Read | QCEDL.Client/PartStream.cs:53-141 | null buffer, then `offset + count > Length` (checked before the negativity checks), then negative arguments, each with the channel and buffer untouched; at or past the end it returns `count` with no device read or change; otherwise it clamps, reads the covering sectors, copies the requested bytes of the byte read's answer and advances by the clamped count, leaving the script and raw stream as the byte read does; the result is the byte read's error, a copy fault, or the clamped count; on every error the position stays; the stream's invariant is needed only on the path that reaches the device |
| PartStreams.PartStream.ReadChecked | QCEDL.Client/PartStream.cs:65-141 | the part of `Read` after the argument checks: at or past the end `count` with nothing changed, a division by zero for a zero block size with nothing changed, otherwise the window read's outcome for the clamped count |
| PartStreams.GrantedPartReadSucceeds | QCEDL.Client/PartStream.cs:78-140 | a programmer that grants raw mode, streams the window's bytes and answers once more makes the window read return exactly the byte count; its answer is the window's sectors from the raw stream, so the bytes copied into the buffer are the raw stream's bytes from the window's skip on |
| PartStreams.PartStream.Seek | QCEDL.Client/PartStream.cs:143-169 | moves to the Begin/Current/End target and returns it; throws for an unknown origin or while the old position is negative |
| PartStreams.Open | QCEDL.Client/PartStream.cs:17-31 | asks for the LUN's storage info first and throws when none arrives; the query's responses are gone from the script and the raw stream is untouched on every path; it succeeds whenever the drain answers and the captured line parses, with a fresh stream at position 0 over the parsed description that keeps every argument, the payload cap and the verbose flag included |
| SectorReaders.EDLSectorReader.constructor | QCEDL.Client/EDLSectorReader.cs:16-25 | the reader keeps the storage description and arguments it is given |
| SectorReaders.Open | QCEDL.Client/EDLSectorReader.cs:27-38 | the fetching constructor sends one storage-info query, whose responses are gone from the script while the raw stream is untouched; it throws when that yields no description and succeeds whenever the drain answers and the captured line parses, keeping the arguments and the verbose flag |
| SectorReaders.EDLSectorReader.GetSectorSize | QCEDL.Client/EDLSectorReader.cs:40-43 | the stored block size, as a `ulong` (a negative size sign-extends) |
| SectorReaders.EDLSectorReader.GetMaxSectors | QCEDL.Client/EDLSectorReader.cs:45-48 | the stored block count, as a `ulong` (a negative count sign-extends) |
| SectorReaders.EDLSectorReader.ReadRequest | QCEDL.Client/EDLSectorReader.cs:52 | the forwarded command carries the reader's LUN, block size and storage type, and the sector bounds cast to `uint` |
| SectorReaders.EDLSectorReader.ReadSectors | QCEDL.Client/EDLSectorReader.cs:50-54 | forwards to `Firehose.Read`: its error, including the negative-capacity exception; exactly the sectors' bytes on success; a refused raw mode (null) becomes an exception, so no null is returned; the script and raw stream are left as the byte read leaves them |
| SectorReaders.EDLSectorReader.ReadSectorsTo | QCEDL.Client/EDLSectorReader.cs:56-59 | the stream overload returns `Firehose.Read`'s outcome (`ReadSpec` for the reader's sector size) and leaves the script and raw stream as that read does; on true the sectors' bytes were written, on false nothing was written and no raw byte was consumed |
| LunStreams.LunRequest | QCEDL.Client/LUNStream.cs:61-65 | the sectors asked for are the window's first and end sectors, cast to `uint` |
| LunStreams.LunRequestCovers | QCEDL.Client/LUNStream.cs:56-65 | the first sector holds the start (`firstSector * bs <= start`); the last is `ceil(end/bs)`, so the range covers `[start, end)` and names one sector more than needed |
| LunStreams.LunRequestPastEnd | QCEDL.Client/LUNStream.cs:62-65 | a non-empty read that ends at `Length` asks for sector `total_blocks`, one past the LUN |
| LunStreams.WholeFirstSectorReadsTwo | QCEDL.Client/LUNStream.cs:62-65 | reading the 512 bytes of sector 0 at size 512 asks for sectors 0 and 1 |
| LunStreams.CoveringRequest | QCEDL.Client/LUNStream.cs:62-65 | the corrected range: the window's sectors with the last one inclusive, as `PartStream` computes it |
| LunStreams.CoveringRequestIsMinimal | QCEDL.Client/LUNStream.cs:56-65 | the corrected range runs from the sector of the first requested byte to the sector of the last one, and stays inside the LUN |
| LunStreams.LUNStream.constructor | QCEDL.Client/LUNStream.cs:3-7 | the stream keeps its reader and starts at position 0 |
| LunStreams.LUNStream.Length | QCEDL.Client/LUNStream.cs:13 | `GetMaxSectors() * GetSectorSize()` whenever the product fits |
| LunStreams.LUNStream.SetPosition | QCEDL.Client/LUNStream.cs:15-27 | the setter refuses while the old position is negative, whatever the new value, and otherwise stores the value |
| LunStreams.LUNStream.ReadWindow | QCEDL.Client/LUNStream.cs:47-71 | clamps `count` to `Length - Position`, then one `ReadSectors` call for `LunRequest`'s sectors; the result is that call's error, a copy fault, or the clamped count; the script and raw stream are left as that sector read leaves them; the buffer gets the reply's bytes from `start % bs` and is otherwise unchanged; the position advances by the count and stays on an error |
| LunStreams.LUNStream.Read | QCEDL.Client/LUNStream.cs:29-72 | the same argument checks in the same order, each with the channel and buffer untouched; at or past the end it returns `count` without reading; otherwise it clamps to `Length - Position`, reads, copies and advances, leaving the script and raw stream as the sector read does; the result is the sector read's error, a copy fault, or the clamped count; on every error the position stays; the stream's invariant is needed only on the path that reaches the device |
| LunStreams.LUNStream.ReadChecked | QCEDL.Client/LUNStream.cs:41-72 | the part of `Read` after the argument checks: at or past the end `count` with nothing changed, a division by zero for a zero sector size with nothing changed, otherwise the window read's outcome for the clamped count |
| LunStreams.LUNStream.Seek | QCEDL.Client/LUNStream.cs:74-100 | the Begin/Current/End targets and the setter's check on the old position |
| FirehoseTasks.ReadGptBuffer | QCEDL.Client/FirehoseTasks.cs:20-24 | reads sectors 0 through 5 at the given size: the byte-array read's outcome, so exactly six sectors' bytes, null when raw mode is refused, or the read's error; the script and raw stream are left as that read leaves them |
| FirehoseTasks.ReadGpt | QCEDL.Client/FirehoseTasks.cs:26-37 | the buffer read's outcome, with its error; null iff the buffer is null; otherwise the parser's result for those bytes and the size cast to `int`; the script and raw stream are left as the buffer read leaves them |
| FirehoseTasks.AsciiChar | QCEDL.Client/FirehoseTasks.cs:93 | each UTF-16 unit becomes an ASCII character, and ASCII units are kept |
| FirehoseTasks.AsciiName | QCEDL.Client/FirehoseTasks.cs:91-94 | the cleaned name has no NUL, only ASCII, and is no longer than the array |
| FirehoseTasks.AsciiNameConcat | QCEDL.Client/FirehoseTasks.cs:91-94 | cleaning works unit by unit: it distributes over concatenation |
| FirehoseTasks.AsciiNameOfPlain | QCEDL.Client/FirehoseTasks.cs:91-94 | a NUL-free ASCII name comes out unchanged |
| FirehoseTasks.AsciiNameDropsPadding | QCEDL.Client/FirehoseTasks.cs:91-94 | trailing NUL padding is removed completely |
| FirehoseTasks.NulsVanish | QCEDL.Client/FirehoseTasks.cs:93 | a run of NULs cleans to the empty string |
| FirehoseTasks.MaxLength | QCEDL.Client/FirehoseTasks.cs:104 | the width is the length of a longest name, or 0 for no partitions |
| FirehoseTasks.PadRows | QCEDL.Client/FirehoseTasks.cs:106-115 | each name is padded with spaces to the width, and each row reports `LastLBA - FirstLBA + 1` |
| FirehoseTasks.PrintGptPartitions | QCEDL.Client/FirehoseTasks.cs:96-116 | one row per partition, in order; every padded name has exactly the longest clean name's length; SizeLBA is `LastLBA - FirstLBA + 1` |
| FirehoseTasks.DigitValue | QCEDL.Client/FirehoseTasks.cs:146 | inverts the uppercase hex digit of each value 0 to 15 |
| FirehoseTasks.HexString | QCEDL.Client/FirehoseTasks.cs:146 | two uppercase hex digits per byte |
| FirehoseTasks.HexRoundTrip | QCEDL.Client/FirehoseTasks.cs:146 | the hex string reads back to the original bytes |
| FirehoseTasks.HexStringInjective | QCEDL.Client/FirehoseTasks.cs:146 | two key hashes give the same string only when they are equal |
| FirehoseTasks.KnownName | QCEDL.Client/FirehoseTasks.cs:147-156 | the key of the first known entry whose value is the hex string, else "Unknown" |
| FirehoseTasks.FriendlyName | QCEDL.Client/FirehoseTasks.cs:147-156 | the lookup loop computes exactly that name |
| FirehoseTasks.BootDrainSpec | QCEDL.Client/FirehoseTasks.cs:198-246 | the bring-up drain consumes at least one batch when there is one |
| FirehoseTasks.BootDrainAgreesWithMessageLoop | QCEDL.Client/FirehoseTasks.cs:203-245 | the bring-up drain stops after the same batch as the message loop; device loss is swallowed and any other error escapes |
| FirehoseTasks.ScanBootFrames | QCEDL.Client/FirehoseTasks.cs:209-242 | one batch sets `GotResponse` exactly when it holds a Response |
| FirehoseTasks.CommonFirehoseLoad | QCEDL.Client/FirehoseTasks.cs:118-249 | a failed handshake gives no Firehose; a failed RKH read gives one at once, with no drain; a rejected programmer gives none; otherwise later exceptions are swallowed and it drains until a Response or device loss; one friendly-name line per RKH |
| StorageTopology.PrimaryTopology | QCEDL.Client/FirehoseTasks.dump.cs:19-33 | when the aggregate query answers, that description followed by one per-LUN answer for each of 1 to `num_physical - 1`, in order; otherwise it throws the error of the first LUN whose query fails or answers null |
| StorageTopology.ProbeLun | QCEDL.Client/FirehoseTasks.dump.cs:48-101 | with no confirmed size: it tries 4096 then 512 (also after a throw at 4096) and confirms the size that found a table; a confirmed size is tried alone and never changes |
| StorageTopology.SectorSizeSticky | QCEDL.Client/FirehoseTasks.dump.cs:41-101 | over the ten probes the size is always 0, 512 or 4096; once nonzero it never changes; it is nonzero exactly when an earlier probe found a table |
| StorageTopology.Discovered | QCEDL.Client/FirehoseTasks.dump.cs:111-119 | a found LUN records block size = the GPT's sector size, total blocks = LastUsableLBA + 1, and its index |
| StorageTopology.DiscoveriesEntry | QCEDL.Client/FirehoseTasks.dump.cs:103-120 | each recorded entry comes from a LUN whose probe found a table |
| StorageTopology.DiscoveriesEntries | QCEDL.Client/FirehoseTasks.dump.cs:103-120 | every recorded entry is the discovery of its LUN |
| StorageTopology.DiscoveriesComplete | QCEDL.Client/FirehoseTasks.dump.cs:103-120 | every LUN that found a table is recorded |
| StorageTopology.DiscoveriesOrdered | QCEDL.Client/FirehoseTasks.dump.cs:44-120 | entries are recorded in increasing LUN order |
| StorageTopology.FirstWithLun | QCEDL.Client/FirehoseTasks.dump.cs:132 | `FirstOrDefault` finds the first entry with the LUN index, or none |
| StorageTopology.MaxLun | QCEDL.Client/FirehoseTasks.dump.cs:128 | `MaxBy` yields an entry's index that no other exceeds |
| StorageTopology.Reconcile | QCEDL.Client/FirehoseTasks.dump.cs:123-157 | no discoveries give an empty list; otherwise `maxValid + 1` entries, each the discovered one or a placeholder of one block at the sticky size, all with `num_physical = maxValid + 1` |
| StorageTopology.ProbeLuns | QCEDL.Client/FirehoseTasks.dump.cs:39-121 | probes exactly LUNs 0 to 9 in order, threading the sticky size, and records the discoveries |
| StorageTopology.MaxLunIsLastFound | QCEDL.Client/FirehoseTasks.dump.cs:128 | the largest recorded index is the last LUN that found a table |
| StorageTopology.LookupDiscovered | QCEDL.Client/FirehoseTasks.dump.cs:132-138 | the lookup for LUN i finds its discovery exactly when LUN i found a table |
| StorageTopology.ReconcileDiscoveries | QCEDL.Client/FirehoseTasks.dump.cs:123-157 | entry i of the rebuilt list is LUN i's discovery if it found a table and a placeholder otherwise |
| StorageTopology.GetStorageInfos | QCEDL.Client/FirehoseTasks.dump.cs:14-161 | the primary result when the aggregate query answers, including its error from the first failing LUN; the fallback runs only when it answered null, probing LUNs 0 to 9 and rebuilding the list |
| DumpSelection.DumpLunPlan | QCEDL.Client/FirehoseTasks.dump.cs:249-262 | other storage types are not implemented; "Lun not found" iff `Count <= Lun`; a negative LUN fails the list index |
| DumpSelection.DumpLunCoversLun | QCEDL.Client/FirehoseTasks.dump.cs:272-279 | for a non-empty LUN the read covers sectors 0 to `total_blocks - 1` at its block size, and the disk capacity equals the bytes read |
| DumpSelection.DumpEmptyLunWraps | QCEDL.Client/FirehoseTasks.dump.cs:279 | a LUN with no blocks asks for last sector `2^32 - 1` of an empty disk |
| DumpSelection.SelectPartitionByUid | QCEDL.Client/FirehoseTasks.dump.cs:323-410 | scans LUNs, then partitions, in order; selects the first partition with the UID; throws when the file exists; "not found" iff no readable table has the UID |
| DumpSelection.SelectPartitionByName | QCEDL.Client/FirehoseTasks.dump.cs:446-538 | "Lun not found" iff `Count <= Lun`; "No GPT" iff the table is unreadable; selects the first partition whose cleaned name equals the name; throws when the file exists; "not found" iff none matches |
| UsbNotifier.GetEmergencyPathType | QCEDL.Client/USB/USBNotifier.cs:23-68 | no event unless the path contains `VID_05C6&` and `&PID_9008` in any letter case; download iff the bus name is `QHSUSB_DLOAD`, `QHSUSB__BULK` or starts with `QUSB_BULK`; flash iff it is `QHSUSB_ARMPRG`; a null path or (after a match) a null bus name throws |
| UsbNotifier.DownloadAndFlashExclusive | QCEDL.Client/USB/USBNotifier.cs:32-64 | no bus name is both a download and a flash name, so at most one event fires per call |
| UsbNotifier.EmptyBusNameRaisesNothing | QCEDL.Client/USB/USBNotifier.cs:32-62 | an empty bus name raises no event, so the "does not show busname" branches cannot run |
| UsbNotifier.PathCaseIrrelevant | QCEDL.Client/USB/USBNotifier.cs:28-30 | changing the path's ASCII letter case never changes the classification |
| UsbNotifier.ContainsCaseIrrelevant | QCEDL.Client/USB/USBNotifier.cs:28-30 | a case-insensitive search answers the same for two strings that agree once case is folded |

## Left out

- The `SectorBasedReader` interface (QCEDL.Client/SectorBasedReader.cs) is not a separate type. `EDLSectorReader` is its only implementation and stands in for it.
- Snapshot-inconsistent calls are modelled against each method's own definition:
  - `PartStream` is built from its own constructor (QCEDL.Client/PartStream.cs:17), not from the call at FirehoseTasks.dump.cs:371.
  - Its read call at PartStream.cs:104 passes no payload cap. The stream therefore takes the cap as a constructor argument.
  - `ReadGPTBuffer` at FirehoseTasks.cs:23 also calls `Read` with no cap. `ReadGptBuffer` and `ReadGpt` therefore take the cap as a parameter.
  - The progress callbacks of `Read` are absent.
- Transport I/O (`QualcommSerial`, the frame decoder) is not part of this model. `Transport.QualcommFirehose` replays a fixed script instead, and reads split raw chunks the way a serial read may.
- XML command building and the debug serialisation of unrecognised frames are not modelled; commands are the `Transport.Command` datatype. Console and Debug logging are not modelled; the log lines a drain sees are returned instead.
- JSON deserialisation of storage info and `GPT.ReadFromStream` are not modelled; both are parameters.
- The Sahara protocol, `HardwareID.ParseHWID` and the `KnownPKData` table are not part of this model. Their outcomes are the `SaharaScript` parameter, and the table is a list parameter.
- The disk-image and file output is not modelled: DiscUtils VHDX, `StreamPump`, `FileStream`, and `File.Exists` (which is a parameter).
  - The dump selection returns what it chose instead of writing it.
  - `FirehoseDumpStorage` (the loop that dumps every LUN) and the Configure and bring-up steps that start each dump workflow are left out. Each piece is modelled on its own.
- `ShowProgress` is left out (floating point and wall-clock time), as is the progress updater. The progress increments are a ghost sequence.
- `FindEDLDevices` (OS device enumeration), the CLI and `Program.cs` are not modelled. `async`/`await` is left out because everything here runs sequentially.
- `ReadGPTs` (QCEDL.Client/FirehoseTasks.cs:39-89) is not a member of its own. Its LUN-count loop is the same code as FirehoseTasks.dump.cs:19-33 (`StorageTopology.PrimaryTopology`), its per-LUN GPT read with the exception caught is `DumpSelection.TableAt`, and the rest is logging.
- UsbNotifier.GetEmergencyPathType: `OrdinalIgnoreCase` is modelled as ASCII case folding only. The required substrings are ASCII.
- UsbNotifier.GetEmergencyPathType: `StartsWith("QUSB_BULK")` at USBNotifier.cs:32 compares under the current culture, which ignores characters such as the soft hyphen U+00AD; the model compares ordinally, so a bus name like `\u00ADQUSB_BULK` counts as a download device in the source and not in the model.
- FirehoseCommands.GetStorageInfo: the prefix test `StartsWith("INFO: {\"storage_info\": ")` at QualcommFirehoseCommands.cs:197 is culture-sensitive in the same way; the model compares ordinally, so a log line with an ignorable character inside the prefix is captured by the source and not by the model.
- The LUN numbers in exception messages ("Error in reading LUN {i} ...") are not kept.
- FirehoseCommands.Read: requires `MaxPayloadSizeToTargetInBytes >= SectorSize`, or a request that fits in one chunk, because otherwise the source loops forever. `ReadBytes`, `ReadGptBuffer`, `ReadGpt` and `ReadSectors` carry the same requirement only when the buffer capacity is non-negative, since a negative one throws first. `PartStream.Read` and `LUNStream.Read` carry it, as their `Valid` invariant, only for a call that passes the argument checks, starts before the end and has a non-zero block size, since only such a call reaches the device.
- FirehoseCommands.Read: also requires a non-negative cap. The `ulong` cast at QualcommFirehoseCommands.cs:136 would turn a negative `int` cap into one above every buffer; that case is not modelled.
- FirehoseCommands.Read: a zero sector size is modelled as DivideByZero at the first division the loop reaches.
- FirehoseTasks.AsciiChar: a non-ASCII byte becomes '?', as `Encoding.ASCII` decodes it. UTF-16 surrogate pairs get no special treatment.
- The oracles (`InfoQuery`, `GptProbe`) answer the same question the same way every time; a device whose answers change between identical queries is not modelled.
- Transport.QualcommFirehose.GetResponse: returns whatever chunk the script holds, split to the requested length; the serial timeout value is not modelled.

## Findings

| source | as written | input that shows it | evidently intended | confidence | as-written member | corrected member |
|---|---|---|---|---|---|---|
| QCEDL.Client/LUNStream.cs:62-65 | passes `ceil(end / blockSize)`, the exclusive end sector, as the inclusive last sector to `ReadSectors` | a LUN of one 512-byte sector, `Read(buffer, 0, 512)` at position 0: asks for sectors 0 and 1, and any read that ends at `Length` asks for sector `total_blocks`, which the LUN does not have | the last sector inclusive, `ceil(end / blockSize) - 1`, as `PartStream` computes it at PartStream.cs:104 | not executed | LunStreams.LunRequestPastEnd | LunStreams.CoveringRequestIsMinimal |
| QCEDL.NET/Layers/APSS/Firehose/QualcommFirehoseCommands.cs:173-178 | calls `Serial.Close` after `MessageLoop`, so an exception from the drain skips it | a device that is already removed: the drain reads nothing and throws, so the port that the comment at lines 175-177 means to dispose stays open | close the port whether or not the drain throws, as a `finally` would | not executed | FirehoseCommands.ResetOnRemovedDevice | FirehoseCommands.ResetAndClose |
