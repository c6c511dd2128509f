/**
 * The client's session helpers (`FirehoseTasks`): reading a LUN's GUID
 * partition table, the partition listing, and the bring-up that hands a
 * Firehose programmer to the device over Sahara and waits for it to
 * answer.
 */
module FirehoseTasks {
  import opened Wrappers
  import opened Ints
  import opened FirehoseXml
  import opened Transport
  import opened FirehoseCommands
  import opened Gpt

  // ------------------------------------------------------------------
  // Reading the partition table

  /** The sectors a partition table read asks for: 0 through 5. */
  const GptFirstSector: uint32 := 0
  const GptLastSector: uint32 := 5

  /**
   * `ReadGPTBuffer`: the bytes of the first six sectors at the given
   * sector size, or none when the programmer refuses raw mode.
   */
  method ReadGptBuffer(fh: QualcommFirehose, sectorSize: uint32, storageType: StorageType, lun: uint32, maxPayload: int32)
    returns (r: Result<Option<seq<byte>>>)
    requires maxPayload >= 0
    requires BufferCapacity(GptFirstSector, GptLastSector, sectorSize) < 0
             || ReadTerminates(GptFirstSector, GptLastSector, sectorSize, maxPayload)
    modifies fh
    ensures r == ReadBytesSpec(old(fh.batches), old(fh.raw), sectorSize, GptFirstSector, GptLastSector)
    ensures ReadBytesLeaves(old(fh.batches), old(fh.raw), sectorSize, GptFirstSector, GptLastSector, fh.batches, fh.raw)
    ensures fh.closed == old(fh.closed)
    ensures BufferCapacity(GptFirstSector, GptLastSector, sectorSize) < 0 ==>
      r == Err(ArgumentOutOfRange) && fh.sent == old(fh.sent)
    ensures BufferCapacity(GptFirstSector, GptLastSector, sectorSize) >= 0 ==>
      && fh.sent == old(fh.sent) + [ReadCommand(storageType, lun, sectorSize, 0, 5)]
      && var d := DrainSpec(old(fh.batches));
      && (d.result.Err? ==> r == Err(d.result.error))
      && (d.result.Ok? && !d.result.value.rawMode ==> r == Ok(None))
    ensures r.Ok? && r.value.Some? ==>
      6 * sectorSize <= |Flatten(old(fh.raw))| && r.value.value == Flatten(old(fh.raw))[..6 * sectorSize]
  {
    r := ReadBytes(fh, storageType, lun, sectorSize, GptFirstSector, GptLastSector, maxPayload);
  }

  /**
   * `ReadGPT`: no table when the sectors could not be read, otherwise
   * whatever the parser makes of them at this sector size. `buffer` is
   * the result of the sector read.
   */
  method ReadGpt(fh: QualcommFirehose, parse: GptParser, sectorSize: uint32, storageType: StorageType, lun: uint32,
                 maxPayload: int32)
    returns (r: Result<Option<GptTable>>, ghost buffer: Result<Option<seq<byte>>>)
    requires maxPayload >= 0
    requires BufferCapacity(GptFirstSector, GptLastSector, sectorSize) < 0
             || ReadTerminates(GptFirstSector, GptLastSector, sectorSize, maxPayload)
    modifies fh
    ensures buffer == ReadBytesSpec(old(fh.batches), old(fh.raw), sectorSize, GptFirstSector, GptLastSector)
    ensures ReadBytesLeaves(old(fh.batches), old(fh.raw), sectorSize, GptFirstSector, GptLastSector, fh.batches, fh.raw)
    ensures fh.closed == old(fh.closed)
    ensures BufferCapacity(GptFirstSector, GptLastSector, sectorSize) >= 0 ==>
      && fh.sent == old(fh.sent) + [ReadCommand(storageType, lun, sectorSize, 0, 5)]
      && var d := DrainSpec(old(fh.batches));
      && (d.result.Err? ==> buffer == Err(d.result.error))
      && (d.result.Ok? && !d.result.value.rawMode ==> buffer == Ok(None))
    ensures buffer.Ok? && buffer.value.Some? ==>
      6 * sectorSize <= |Flatten(old(fh.raw))| && buffer.value.value == Flatten(old(fh.raw))[..6 * sectorSize]
    ensures buffer.Err? ==> r == Err(buffer.error)
    ensures buffer == Ok(None) ==> r == Ok(None)
    ensures buffer.Ok? && buffer.value.Some? ==> r == parse(buffer.value.value, ToInt(sectorSize))
  {
    var bytes := ReadGptBuffer(fh, sectorSize, storageType, lun, maxPayload);
    buffer := bytes;
    if bytes.Err? {
      return Err(bytes.error), buffer;
    }
    if bytes.value.None? {
      return Ok(None), buffer;
    }
    r := parse(bytes.value.value, ToInt(sectorSize));
  }

  // ------------------------------------------------------------------
  // Partition names and the listing

  /**
   * One UTF-16 code unit of a GPT name as `Encoding.ASCII` sees it
   * after the `(byte)` cast: the low byte, or '?' when it is not ASCII.
   */
  function AsciiChar(c: char): (a: char)
    ensures (a as int) < 128
    ensures (c as int) < 128 ==> a == c
  {
    var b := (c as int) % 256;
    if b < 128 then b as char else '?'
  }

  /** `ConvertCharArrayToASCIIString`: each unit through `AsciiChar`, every NUL removed. */
  function AsciiName(carr: seq<char>): (s: string)
    ensures |s| <= |carr|
    ensures forall i :: 0 <= i < |s| ==> s[i] != '\0' && (s[i] as int) < 128
  {
    if carr == [] then []
    else (if AsciiChar(carr[0]) == '\0' then [] else [AsciiChar(carr[0])]) + AsciiName(carr[1..])
  }

  lemma {:induction false} AsciiNameConcat(a: seq<char>, b: seq<char>)
    ensures AsciiName(a + b) == AsciiName(a) + AsciiName(b)
  {
    if a == [] {
      assert a + b == b;
    } else {
      assert (a + b)[1..] == a[1..] + b;
      AsciiNameConcat(a[1..], b);
    }
  }

  /** A name that is already plain ASCII without NULs comes out unchanged. */
  lemma {:induction false} AsciiNameOfPlain(carr: seq<char>)
    requires forall i :: 0 <= i < |carr| ==> 0 < (carr[i] as int) < 128
    ensures AsciiName(carr) == carr
  {
    if carr != [] {
      AsciiNameOfPlain(carr[1..]);
    }
  }

  /** The NUL padding that fills a GPT name array to its 36 units is dropped. */
  lemma {:induction false} AsciiNameDropsPadding(carr: seq<char>, padding: nat)
    ensures AsciiName(carr + seq(padding, _ => '\0')) == AsciiName(carr)
  {
    var zeros := seq(padding, _ => '\0');
    AsciiNameConcat(carr, zeros);
    NulsVanish(zeros);
  }

  lemma {:induction false} NulsVanish(zeros: seq<char>)
    requires forall i :: 0 <= i < |zeros| ==> zeros[i] == '\0'
    ensures AsciiName(zeros) == []
  {
    if zeros != [] {
      NulsVanish(zeros[1..]);
    }
  }

  /** `n` spaces. */
  function Spaces(n: nat): (s: string)
    ensures |s| == n && forall i :: 0 <= i < n ==> s[i] == ' '
  {
    seq(n, _ => ' ')
  }

  /** One line of the partition listing. */
  datatype PartitionRow = PartitionRow(name: string, partition: GptPartition, sizeLba: uint64)

  /** The length of the longest of `names`, or 0 when there are none (`MaxBy` on the lengths). */
  method MaxLength(names: seq<string>) returns (width: nat)
    ensures forall k :: 0 <= k < |names| ==> |names[k]| <= width
    ensures names == [] ==> width == 0
    ensures names != [] ==> exists k :: 0 <= k < |names| && |names[k]| == width
  {
    width := 0;
    for i := 0 to |names|
      invariant forall k :: 0 <= k < i ==> |names[k]| <= width
      invariant i == 0 ==> width == 0
      invariant i > 0 ==> exists k :: 0 <= k < i && |names[k]| == width
    {
      if |names[i]| > width {
        width := |names[i]|;
      }
    }
  }

  /** The padding loop of the listing: each name filled with spaces up to `width`. */
  method PadRows(ps: seq<GptPartition>, names: seq<string>, width: nat) returns (rows: seq<PartitionRow>)
    requires |names| == |ps| && forall k :: 0 <= k < |names| ==> |names[k]| <= width
    ensures |rows| == |ps|
    ensures forall k :: 0 <= k < |ps| ==>
      rows[k] == PartitionRow(names[k] + Spaces(width - |names[k]|), ps[k], ToULong(ps[k].lastLba - ps[k].firstLba + 1))
  {
    rows := [];
    for i := 0 to |ps|
      invariant |rows| == i
      invariant forall k :: 0 <= k < i ==>
        rows[k] == PartitionRow(names[k] + Spaces(width - |names[k]|), ps[k], ToULong(ps[k].lastLba - ps[k].firstLba + 1))
    {
      var paddedName := names[i];
      if |paddedName| < width {
        paddedName := paddedName + Spaces(width - |names[i]|);
      } else {
        assert Spaces(width - |names[i]|) == [];
      }
      rows := rows + [PartitionRow(paddedName, ps[i], ToULong(ps[i].lastLba - ps[i].firstLba + 1))];
    }
  }

  /**
   * `PrintGPTPartitions`: every entry's ASCII name padded with spaces to
   * the longest name's length (`width`, 0 for an empty table), with its
   * size in sectors as the `ulong` `LastLBA - FirstLBA + 1`.
   */
  method PrintGptPartitions(table: GptTable) returns (rows: seq<PartitionRow>, width: nat)
    ensures |rows| == |table.partitions|
    ensures forall i :: 0 <= i < |rows| ==> |AsciiName(table.partitions[i].name)| <= width
    ensures table.partitions == [] ==> width == 0
    ensures table.partitions != [] ==>
      exists i :: 0 <= i < |table.partitions| && |AsciiName(table.partitions[i].name)| == width
    ensures forall i :: 0 <= i < |rows| ==>
      var p := table.partitions[i];
      && rows[i].partition == p && |rows[i].name| == width
      && rows[i].name == AsciiName(p.name) + Spaces(width - |AsciiName(p.name)|)
      && rows[i].sizeLba == ToULong(p.lastLba - p.firstLba + 1)
      && (p.firstLba <= p.lastLba && p.lastLba - p.firstLba + 1 < TWO_64 ==> rows[i].sizeLba == p.lastLba - p.firstLba + 1)
  {
    var ps := table.partitions;
    var names: seq<string> := [];
    for i := 0 to |ps|
      invariant |names| == i && forall k :: 0 <= k < i ==> names[k] == AsciiName(ps[k].name)
    {
      names := names + [AsciiName(ps[i].name)];
    }
    width := MaxLength(names);
    rows := PadRows(ps, names, width);
  }

  // ------------------------------------------------------------------
  // Root key hashes

  /** An uppercase hexadecimal digit. */
  function HexDigit(v: int): (c: char)
    requires 0 <= v < 16
  {
    if v < 10 then ('0' as int + v) as char else ('A' as int + v - 10) as char
  }

  /** The value of an uppercase hexadecimal digit, or -1. */
  function DigitValue(c: char): (v: int)
    ensures -1 <= v < 16
    ensures forall d :: 0 <= d < 16 ==> (HexDigit(d) == c <==> v == d)
  {
    if '0' <= c <= '9' then c as int - '0' as int
    else if 'A' <= c <= 'F' then c as int - 'A' as int + 10
    else -1
  }

  /** `Convert.ToHexString`: two uppercase digits per byte, high nibble first. */
  function HexString(bytes: seq<byte>): (s: string)
    ensures |s| == 2 * |bytes|
    ensures forall i :: 0 <= i < |s| ==> DigitValue(s[i]) >= 0
  {
    if bytes == [] then ""
    else [HexDigit(bytes[0] / 16), HexDigit(bytes[0] % 16)] + HexString(bytes[1..])
  }

  /** Read a string of uppercase hexadecimal digit pairs back into bytes. */
  function ParseHex(s: string): Option<seq<byte>>
    decreases |s|
  {
    if s == [] then Some([])
    else if |s| == 1 || DigitValue(s[0]) < 0 || DigitValue(s[1]) < 0 then None
    else match ParseHex(s[2..])
      case None => None
      case Some(rest) => Some([DigitValue(s[0]) * 16 + DigitValue(s[1])] + rest)
  }

  /** The hex string holds the bytes exactly: reading it back gives them again. */
  lemma {:induction false} HexRoundTrip(bytes: seq<byte>)
    ensures ParseHex(HexString(bytes)) == Some(bytes)
  {
    if bytes != [] {
      var s := HexString(bytes);
      assert s[2..] == HexString(bytes[1..]);
      HexRoundTrip(bytes[1..]);
      assert DigitValue(s[0]) == bytes[0] / 16 && DigitValue(s[1]) == bytes[0] % 16;
      assert [bytes[0]] + bytes[1..] == bytes;
    }
  }

  /** Two root key hashes print alike only when they are the same bytes. */
  lemma HexStringInjective(a: seq<byte>, b: seq<byte>)
    requires HexString(a) == HexString(b)
    ensures a == b
  {
    HexRoundTrip(a);
    HexRoundTrip(b);
  }

  const UnknownName: string := "Unknown"

  /**
   * The friendly name of a root key hash: the key of the first known
   * (name, hash) entry whose hash is `rkhHex`, or "Unknown".
   */
  function KnownName(known: seq<(string, string)>, rkhHex: string): (name: string)
    ensures (forall i :: 0 <= i < |known| ==> known[i].1 != rkhHex) ==> name == UnknownName
    ensures (exists i :: 0 <= i < |known| && known[i].1 == rkhHex) ==>
      exists i :: 0 <= i < |known| && known[i].1 == rkhHex && name == known[i].0
               && forall k :: 0 <= k < i ==> known[k].1 != rkhHex
  {
    if known == [] then UnknownName
    else if known[0].1 == rkhHex then known[0].0
    else
      var name := KnownName(known[1..], rkhHex);
      assert forall i :: 1 <= i < |known| ==> known[i] == known[1..][i - 1];
      name
  }

  /** The lookup loop of the bring-up: scan the known entries in order, stopping at the first match. */
  method FriendlyName(known: seq<(string, string)>, rkhHex: string) returns (name: string)
    ensures name == KnownName(known, rkhHex)
  {
    name := UnknownName;
    var i := 0;
    while i < |known|
      invariant 0 <= i <= |known|
      invariant KnownName(known, rkhHex) == KnownName(known[i..], rkhHex)
    {
      if known[i].1 == rkhHex {
        name := known[i].0;
        return;
      }
      assert known[i..][1..] == known[i + 1..];
      i := i + 1;
    }
  }

  // ------------------------------------------------------------------
  // Bring-up

  /**
   * What each Sahara step does when the bring-up runs it: its result, or
   * the exception it throws. The Sahara protocol itself is not part of
   * this model.
   */
  datatype SaharaScript = SaharaScript(
    handshake: Option<Error>,
    rkhs: Result<seq<seq<byte>>>,
    serialNumber: Result<seq<byte>>,
    hwid: Result<seq<byte>>,
    parseHwid: Option<Error>,
    openProgrammer: Option<Error>,
    switchMode: Option<Error>,
    loadProgrammer: Result<bool>)

  /** The Sahara part reaches `LoadProgrammer`, and that reports failure. */
  predicate ProgrammerRejected(s: SaharaScript)
  {
    && s.handshake.None? && s.rkhs.Ok? && s.serialNumber.Ok? && s.hwid.Ok? && s.parseHwid.None?
    && s.openProgrammer.None? && s.switchMode.None? && s.loadProgrammer == Ok(false)
  }

  /** What the bring-up's final drain does: the exception it lets through, and the batches it reads. */
  datatype BootDrained = BootDrained(error: Option<Error>, consumed: nat)

  /**
   * The bring-up's drain: read batches until one holds a Response,
   * treating every frame of that batch; the device going away ends it
   * quietly, any other exception escapes.
   */
  function BootDrainSpec(batches: seq<Batch>): (d: BootDrained)
    ensures d.consumed <= |batches|
    ensures batches != [] ==> d.consumed >= 1
  {
    if batches == [] then BootDrained(None, 0)
    else
      match batches[0]
      case Fault(e) => BootDrained(if e == BadConnection then None else Some(e), 1)
      case Frames(fs) =>
        if !NoResponse(fs) then BootDrained(None, 1)
        else
          var d := BootDrainSpec(batches[1..]);
          BootDrained(d.error, d.consumed + 1)
  }

  /**
   * The bring-up's drain reads exactly the batches `MessageLoop` would,
   * and fails only where `MessageLoop` fails with anything but the
   * device going away.
   */
  lemma {:induction false} BootDrainAgreesWithMessageLoop(batches: seq<Batch>)
    ensures var d, b := DrainSpec(batches), BootDrainSpec(batches);
      && b.consumed == d.consumed
      && b.error == (if d.result.Err? && d.result.error != BadConnection then Some(d.result.error) else None)
  {
    if batches != [] {
      match batches[0]
      case Fault(e) =>
      case Frames(fs) =>
        if NoResponse(fs) {
          assert FirstResponse(fs).None?;
          BootDrainAgreesWithMessageLoop(batches[1..]);
        }
    }
  }

  /**
   * One batch of the bring-up's drain: every frame is looked at, and the
   * batch settles the drain when any of them is a Response.
   */
  method ScanBootFrames(fs: seq<Frame>) returns (gotResponse: bool)
    ensures gotResponse <==> !NoResponse(fs)
  {
    gotResponse := false;
    for i := 0 to |fs|
      invariant gotResponse <==> !NoResponse(fs[..i])
    {
      assert fs[..i + 1] == fs[..i] + [fs[i]];
      if fs[i].Resp? {
        gotResponse := true;
      }
    }
    assert fs[..|fs|] == fs;
  }

  /**
   * `CommonFirehoseLoad`. `r` is `Ok(true)` when a Firehose is handed back,
   * `Ok(false)` when it is null, or the exception that escapes;
   * `rkhReport` lists each root key hash as hexadecimal with its friendly
   * name, as logged.
   *   - A failed handshake gives no Firehose, whatever follows.
   *   - A handshake without root key hashes gives a Firehose at once.
   *   - A programmer that `LoadProgrammer` rejects gives no Firehose.
   *   - Otherwise every failure after the root key hashes is swallowed,
   *     and the drain runs before the Firehose is handed back.
   */
  method CommonFirehoseLoad(fh: QualcommFirehose, sahara: SaharaScript, known: seq<(string, string)>)
    returns (r: Result<bool>, rkhReport: seq<(string, string)>)
    modifies fh
    ensures fh.sent == old(fh.sent) && fh.raw == old(fh.raw) && fh.closed == old(fh.closed)
    ensures sahara.handshake.Some? ==> r == Ok(false) && fh.batches == old(fh.batches)
    ensures sahara.handshake.None? && sahara.rkhs.Err? ==> r == Ok(true) && fh.batches == old(fh.batches)
    ensures ProgrammerRejected(sahara) ==> r == Ok(false) && fh.batches == old(fh.batches)
    ensures sahara.handshake.None? && sahara.rkhs.Ok? && !ProgrammerRejected(sahara) ==>
      var d := BootDrainSpec(old(fh.batches));
      && fh.batches == old(fh.batches)[d.consumed..]
      && r == (if d.error.Some? then Err(d.error.value) else Ok(true))
    ensures sahara.handshake.None? && sahara.rkhs.Ok? && sahara.serialNumber.Ok? ==>
      && |rkhReport| == |sahara.rkhs.value|
      && forall i :: 0 <= i < |rkhReport| ==>
           var hex := HexString(sahara.rkhs.value[i]); rkhReport[i] == (hex, KnownName(known, hex))
    ensures !(sahara.handshake.None? && sahara.rkhs.Ok? && sahara.serialNumber.Ok?) ==> rkhReport == []
  {
    rkhReport := [];
    var passedHandShake := false;
    var passedRkh := false;
    var rejected := false;
    // The Sahara session; the first exception leaves the try block.
    if sahara.handshake.None? {
      passedHandShake := true;
      if sahara.rkhs.Ok? {
        passedRkh := true;
        if sahara.serialNumber.Ok? {
          var rkhs := sahara.rkhs.value;
          for i := 0 to |rkhs|
            invariant |rkhReport| == i && unchanged(fh)
            invariant forall k :: 0 <= k < i ==> rkhReport[k] == (HexString(rkhs[k]), KnownName(known, HexString(rkhs[k])))
          {
            var hex := HexString(rkhs[i]);
            var name := FriendlyName(known, hex);
            rkhReport := rkhReport + [(hex, name)];
          }
          if sahara.hwid.Ok? && sahara.parseHwid.None? && sahara.openProgrammer.None? && sahara.switchMode.None?
             && sahara.loadProgrammer == Ok(false) {
            rejected := true;
          }
        }
      }
    }
    if rejected {
      return Ok(false), rkhReport;
    }
    if passedHandShake && !passedRkh {
      return Ok(true), rkhReport;
    } else if !passedHandShake {
      return Ok(false), rkhReport;
    }
    var gotResponse := false;
    ghost var consumed := 0;
    while !gotResponse
      invariant consumed <= |old(fh.batches)| && fh.batches == old(fh.batches)[consumed..]
      invariant !gotResponse ==>
        BootDrainSpec(old(fh.batches)) == BootDrained(BootDrainSpec(fh.batches).error, BootDrainSpec(fh.batches).consumed + consumed)
      invariant gotResponse ==> BootDrainSpec(old(fh.batches)) == BootDrained(None, consumed)
      invariant fh.sent == old(fh.sent) && fh.raw == old(fh.raw) && fh.closed == old(fh.closed)
      decreases |fh.batches|, !gotResponse
    {
      ghost var ended := fh.batches == [];
      var datas := fh.GetFirehoseResponseDataPayloads();
      if datas.Err? {
        if datas.error == BadConnection {
          consumed := consumed + (if ended then 0 else 1);
          return Ok(true), rkhReport;
        }
        return Err(datas.error), rkhReport;
      }
      consumed := consumed + 1;
      gotResponse := ScanBootFrames(datas.value);
    }
    r := Ok(true);
  }
}
