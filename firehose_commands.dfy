/**
 * The Firehose command engine (`QualcommFirehoseCommands`): the reply
 * drain, configure negotiation, raw-mode sector reads, reset and the
 * storage-info query. Every command is a method on the scripted channel;
 * what the device answers is fixed in advance by the script, so each
 * method's outcome is stated as a function of the script it starts from.
 */
module FirehoseCommands {
  import opened Wrappers
  import opened Ints
  import opened Arith
  import opened Strings
  import opened FirehoseXml
  import opened Transport
  import opened StorageInfoJson

  // ------------------------------------------------------------------
  // The reply drain

  /** No frame of `fs` is a Response. */
  predicate NoResponse(fs: seq<Frame>)
  {
    forall i :: 0 <= i < |fs| ==> !fs[i].Resp?
  }

  /** The position of the first Response frame of `fs`, if there is one. */
  function FirstResponse(fs: seq<Frame>): (k: Option<nat>)
    ensures k.Some? ==> k.value < |fs| && fs[k.value].Resp? && NoResponse(fs[..k.value])
    ensures k.None? ==> NoResponse(fs)
  {
    if fs == [] then None
    else if fs[0].Resp? then Some(0)
    else
      match FirstResponse(fs[1..])
      case None => None
      case Some(j) =>
        assert fs[..j + 1] == [fs[0]] + fs[1..][..j];
        Some(j + 1)
  }

  /** A Response at `k` with none before it is the first one. */
  lemma FirstResponseAt(fs: seq<Frame>, k: nat)
    requires k < |fs| && fs[k].Resp? && NoResponse(fs[..k])
    ensures FirstResponse(fs) == Some(k)
  {
  }

  /** The log texts of `fs`, in order. */
  function LogsOf(fs: seq<Frame>): (logs: seq<string>)
    ensures |logs| <= |fs|
  {
    if fs == [] then [] else (if fs[0].Log? then [fs[0].text] else []) + LogsOf(fs[1..])
  }

  lemma {:induction false} LogsOfConcat(a: seq<Frame>, b: seq<Frame>)
    ensures LogsOf(a + b) == LogsOf(a) + LogsOf(b)
  {
    if a == [] {
      assert a + b == b;
    } else {
      var head := if a[0].Log? then [a[0].text] else [];
      assert (a + b)[0] == a[0] && (a + b)[1..] == a[1..] + b;
      LogsOfConcat(a[1..], b);
      assert LogsOf(a + b) == head + (LogsOf(a[1..]) + LogsOf(b));
      assert LogsOf(a) == head + LogsOf(a[1..]);
    }
  }

  /** What one drain yields: the response or exception, the logs surfaced, the batches read. */
  datatype Drained = Drained(result: Result<Response>, logs: seq<string>, consumed: nat)

  /** The drain of `MessageLoop` against a script of batches. */
  function DrainSpec(batches: seq<Batch>): (d: Drained)
    ensures d.consumed <= |batches|
  {
    if batches == [] then Drained(Err(BadConnection), [], 0)
    else
      match batches[0]
      case Fault(e) => Drained(Err(e), [], 1)
      case Frames(fs) =>
        match FirstResponse(fs)
        case Some(k) => Drained(Ok(fs[k].response), LogsOf(fs[..k]), 1)
        case None =>
          var d := DrainSpec(batches[1..]);
          Drained(d.result, LogsOf(fs) + d.logs, d.consumed + 1)
  }

  /** The frames the device emits, in order, up to the first failing read. */
  function StreamFrames(batches: seq<Batch>): seq<Frame>
  {
    if batches == [] then []
    else
      match batches[0]
      case Fault(_) => []
      case Frames(fs) => fs + StreamFrames(batches[1..])
  }

  /** The exception that ends the frame stream: the first failing read, or the device going away. */
  function StreamEnd(batches: seq<Batch>): Error
  {
    if batches == [] then BadConnection
    else
      match batches[0]
      case Fault(e) => e
      case Frames(_) => StreamEnd(batches[1..])
  }

  lemma FirstResponseConcat(a: seq<Frame>, b: seq<Frame>)
    ensures FirstResponse(a).Some? ==> FirstResponse(a + b) == FirstResponse(a)
    ensures FirstResponse(a).None? ==>
      match FirstResponse(b)
      case None => FirstResponse(a + b).None?
      case Some(j) => FirstResponse(a + b) == Some(|a| + j)
  {
    match FirstResponse(a)
    case Some(k) =>
      assert (a + b)[..k] == a[..k];
      FirstResponseAt(a + b, k);
    case None =>
      match FirstResponse(b)
      case None =>
        assert forall i :: 0 <= i < |a + b| ==> (a + b)[i] == if i < |a| then a[i] else b[i - |a|];
      case Some(j) =>
        assert forall i :: 0 <= i < |a| + j ==> (a + b)[..|a| + j][i] == if i < |a| then a[i] else b[..j][i - |a|];
        FirstResponseAt(a + b, |a| + j);
  }

  /**
   * `MessageLoop` returns the first Response in stream order, surfaces
   * exactly the log texts before it, in order, and passes over
   * unrecognised frames; with no Response it raises the exception that
   * ends the stream, after surfacing every log.
   */
  lemma {:induction false} DrainFindsFirstResponse(batches: seq<Batch>)
    ensures var d := DrainSpec(batches); var s := StreamFrames(batches);
      match FirstResponse(s)
      case Some(k) => d.result == Ok(s[k].response) && d.logs == LogsOf(s[..k])
      case None => d.result == Err(StreamEnd(batches)) && d.logs == LogsOf(s)
  {
    if batches != [] {
      match batches[0]
      case Fault(_) =>
      case Frames(fs) =>
        var rest := StreamFrames(batches[1..]);
        assert StreamFrames(batches) == fs + rest;
        FirstResponseConcat(fs, rest);
        match FirstResponse(fs)
        case Some(k) =>
          assert (fs + rest)[..k] == fs[..k];
        case None =>
          DrainFindsFirstResponse(batches[1..]);
          match FirstResponse(rest)
          case None =>
            LogsOfConcat(fs, rest);
          case Some(j) =>
            assert (fs + rest)[..|fs| + j] == fs + rest[..j];
            LogsOfConcat(fs, rest[..j]);
    }
  }

  /**
   * One batch of `MessageLoop`: walk the frames in order, collecting log
   * texts, until the first Response.
   */
  method ScanFrames(fs: seq<Frame>) returns (found: Option<Response>, logs: seq<string>)
    ensures match FirstResponse(fs)
      case Some(k) => found == Some(fs[k].response) && logs == LogsOf(fs[..k])
      case None => found == None && logs == LogsOf(fs)
  {
    logs := [];
    var i := 0;
    while i < |fs|
      invariant 0 <= i <= |fs|
      invariant NoResponse(fs[..i])
      invariant logs == LogsOf(fs[..i])
    {
      assert fs[..i + 1] == fs[..i] + [fs[i]];
      LogsOfConcat(fs[..i], [fs[i]]);
      match fs[i] {
        case Log(text) =>
          logs := logs + [text];
        case Resp(response) =>
          FirstResponseAt(fs, i);
          return Some(response), logs;
        case Unrecognised =>
      }
      i := i + 1;
    }
    assert fs[..i] == fs;
    found := None;
  }

  /**
   * `MessageLoop`: read batches until one holds a Response and return
   * it, surfacing every log text met before it to the caller's callback
   * (returned here as `logs`); frames after the Response in its batch are
   * dropped, and a failing read propagates its exception.
   */
  method MessageLoop(fh: QualcommFirehose) returns (r: Result<Response>, logs: seq<string>)
    modifies fh
    ensures var d := DrainSpec(old(fh.batches));
      r == d.result && logs == d.logs && fh.batches == old(fh.batches)[d.consumed..]
    ensures fh.raw == old(fh.raw) && fh.sent == old(fh.sent) && fh.closed == old(fh.closed)
  {
    logs := [];
    ghost var consumed := 0;
    ghost var whole := DrainSpec(fh.batches);
    while true
      invariant consumed <= |old(fh.batches)| && fh.batches == old(fh.batches)[consumed..]
      invariant var d := DrainSpec(fh.batches);
        whole.result == d.result && whole.logs == logs + d.logs && whole.consumed == consumed + d.consumed
      invariant fh.raw == old(fh.raw) && fh.sent == old(fh.sent) && fh.closed == old(fh.closed)
      decreases |fh.batches|
    {
      ghost var pending := fh.batches;
      var datas := fh.GetFirehoseResponseDataPayloads();
      if datas.Err? {
        assert whole.result == Err(datas.error) && whole.logs == logs;
        assert fh.batches == old(fh.batches)[whole.consumed..];
        return Err(datas.error), logs;
      }
      assert pending != [] && pending[0] == Frames(datas.value) && fh.batches == pending[1..];
      assert fh.batches == old(fh.batches)[consumed + 1..];
      consumed := consumed + 1;
      var found, batchLogs := ScanFrames(datas.value);
      logs := logs + batchLogs;
      if found.Some? {
        assert whole.result == Ok(found.value) && whole.logs == logs && whole.consumed == consumed;
        return Ok(found.value), logs;
      }
      ghost var rest := DrainSpec(fh.batches);
      assert DrainSpec(pending) == Drained(rest.result, batchLogs + rest.logs, rest.consumed + 1);
    }
  }

  // ------------------------------------------------------------------
  // Configure

  const MaxULong: uint64 := TWO_64 - 1

  /** `Configure2`: one configure command with the given payload size, then one drain. */
  method Configure2(fh: QualcommFirehose, storageType: StorageType, verbose: bool, payload: uint64)
    returns (r: Result<Response>)
    modifies fh
    ensures fh.sent == old(fh.sent) + [ConfigureCommand(storageType, verbose, payload)]
    ensures var d := DrainSpec(old(fh.batches));
      r == d.result && fh.batches == old(fh.batches)[d.consumed..]
    ensures fh.raw == old(fh.raw) && fh.closed == old(fh.closed)
  {
    fh.SendData(ConfigureCommand(storageType, verbose, payload));
    var logs;
    r, logs := MessageLoop(fh);
  }

  /** What `Configure` does against a script: its result, the commands it sends, the batches it reads. */
  datatype Configured = Configured(result: Result<Response>, commands: seq<Command>, consumed: nat)

  function ConfigureSpec(batches: seq<Batch>, storageType: StorageType, verbose: bool): Configured
  {
    var d1 := DrainSpec(batches);
    var first := ConfigureCommand(storageType, verbose, MaxULong);
    if d1.result.Err? || d1.result.value.Value() == ACK then
      Configured(d1.result, [first], d1.consumed)
    else
      var supported := ToULong(d1.result.value.config.MaxPayloadSizeToTargetInBytesSupported());
      var d2 := DrainSpec(batches[d1.consumed..]);
      Configured(d2.result, [first, ConfigureCommand(storageType, verbose, supported)], d1.consumed + d2.consumed)
  }

  /**
   * `Configure`: ask for the largest payload; if that is not ACKed, ask
   * once more with the size the reply says is supported and return
   * whatever comes back.
   */
  method Configure(fh: QualcommFirehose, storageType: StorageType, verbose: bool) returns (r: Result<Response>)
    modifies fh
    ensures var c := ConfigureSpec(old(fh.batches), storageType, verbose);
      r == c.result && fh.sent == old(fh.sent) + c.commands && fh.batches == old(fh.batches)[c.consumed..]
    ensures fh.raw == old(fh.raw) && fh.closed == old(fh.closed)
  {
    var response := Configure2(fh, storageType, verbose, MaxULong);
    if response.Err? || response.value.Value() == ACK {
      return response;
    }
    var payload := ToULong(response.value.config.MaxPayloadSizeToTargetInBytesSupported());
    r := Configure2(fh, storageType, verbose, payload);
  }

  /**
   * The negotiation sends one or two configure commands; the first asks
   * for the largest payload, and a second is sent exactly when the first
   * drain produced a response that is not ACK, with the payload size it
   * reported as supported.
   */
  lemma ConfigureSendsAtMostTwo(batches: seq<Batch>, storageType: StorageType, verbose: bool)
    ensures var c := ConfigureSpec(batches, storageType, verbose); var d1 := DrainSpec(batches);
      && 1 <= |c.commands| <= 2
      && c.commands[0] == ConfigureCommand(storageType, verbose, MaxULong)
      && (|c.commands| == 2 <==> d1.result.Ok? && d1.result.value.Value() != ACK)
      && (|c.commands| == 2 ==>
            c.commands[1].maxPayloadSizeToTargetInBytes
              == ToULong(d1.result.value.config.MaxPayloadSizeToTargetInBytesSupported()))
      && (|c.commands| == 1 ==> c.result == d1.result)
      && (|c.commands| == 2 ==> c.result == DrainSpec(batches[d1.consumed..]).result)
  {
  }

  /**
   * Against a device that NAKs the largest payload, reporting `supported`,
   * and ACKs the retry, the negotiation takes exactly two round trips and
   * ends in that ACK.
   */
  lemma ConfigureTwoStepNegotiation(nak: Response, ack: Response, rest: seq<Batch>,
                                    storageType: StorageType, verbose: bool)
    requires nak.Value() == NAK && ack.Value() == ACK
    ensures var c := ConfigureSpec([Frames([Resp(nak)]), Frames([Resp(ack)])] + rest, storageType, verbose);
      && c.result == Ok(ack) && c.consumed == 2
      && c.commands == [ConfigureCommand(storageType, verbose, MaxULong),
                        ConfigureCommand(storageType, verbose, ToULong(nak.config.MaxPayloadSizeToTargetInBytesSupported()))]
  {
    var batches := [Frames([Resp(nak)]), Frames([Resp(ack)])] + rest;
    assert FirstResponse([Resp(nak)]) == Some(0);
    assert FirstResponse([Resp(ack)]) == Some(0);
    assert batches[1..] == [Frames([Resp(ack)])] + rest;
  }

  // ------------------------------------------------------------------
  // Raw-mode read

  /** `LastSector - FirstSector + 1` as the `uint` expression computes it. */
  function SectorSpan(first: int, last: int): (n: int)
    ensures IsUInt(n)
    ensures 0 <= last - first < TWO_32 - 1 ==> n == last - first + 1
  {
    ToUInt(last - first + 1)
  }

  /**
   * The raw-payload loop makes progress: a chunk cap of at least one
   * sector, or a request that fits in a single chunk. Otherwise the
   * source's loop spins forever without reading.
   */
  predicate ReadTerminates(first: int, last: int, sectorSize: int, maxPayload: int)
  {
    last < first || sectorSize <= maxPayload || SectorSpan(first, last) * sectorSize <= maxPayload
  }

  function Sum(s: seq<int>): int
  {
    if s == [] then 0 else Sum(s[..|s| - 1]) + s[|s| - 1]
  }

  /** The chunk sizes of a raw transfer: each a positive whole number of sectors within the cap. */
  predicate WholeSectorChunks(chunks: seq<int>, progress: seq<int>, sectorSize: int, maxPayload: int)
  {
    && |progress| == |chunks|
    && forall i :: 0 <= i < |chunks| ==>
         progress[i] > 0 && chunks[i] == progress[i] * sectorSize && 0 < chunks[i] <= maxPayload
  }

  lemma SumDistributes(progress: seq<int>, chunks: seq<int>, sectorSize: int, maxPayload: int)
    requires WholeSectorChunks(chunks, progress, sectorSize, maxPayload)
    ensures Sum(chunks) == Sum(progress) * sectorSize
  {
    if chunks != [] {
      var n := |chunks| - 1;
      assert WholeSectorChunks(chunks[..n], progress[..n], sectorSize, maxPayload) by {
        forall i | 0 <= i < n
          ensures progress[..n][i] > 0 && chunks[..n][i] == progress[..n][i] * sectorSize
        {
          assert progress[..n][i] == progress[i] && chunks[..n][i] == chunks[i];
        }
      }
      SumDistributes(progress[..n], chunks[..n], sectorSize, maxPayload);
      assert chunks[n] == progress[n] * sectorSize;
      assert (Sum(progress[..n]) + progress[n]) * sectorSize == Sum(progress[..n]) * sectorSize + progress[n] * sectorSize;
    }
  }

  /**
   * The inner copy loop of `Read`: move exactly `size` raw bytes from the
   * channel to `out`, asking each time for what is still missing.
   */
  method ReceiveChunk(fh: QualcommFirehose, size: nat, out: OutputStream) returns (failure: Option<Error>)
    modifies fh, out
    ensures failure.None? ==>
      && |Flatten(old(fh.raw))| >= size
      && out.written == old(out.written) + Flatten(old(fh.raw))[..size]
      && Flatten(fh.raw) == Flatten(old(fh.raw))[size..]
    ensures failure.Some? ==> failure == Some(Timeout) && |Flatten(old(fh.raw))| < size
    ensures fh.batches == old(fh.batches) && fh.sent == old(fh.sent) && fh.closed == old(fh.closed)
  {
    var count := 0;
    ghost var piece: seq<byte> := [];
    while count != size
      invariant 0 <= count <= size && |piece| == count
      invariant out.written == old(out.written) + piece && Flatten(old(fh.raw)) == piece + Flatten(fh.raw)
      invariant fh.batches == old(fh.batches) && fh.sent == old(fh.sent) && fh.closed == old(fh.closed)
      decreases size - count
    {
      var data := fh.GetResponse(size - count);
      if data.Err? {
        assert fh.raw == [];
        return Some(Timeout);
      }
      out.Write(data.value);
      count := count + |data.value|;
      piece := piece + data.value;
    }
    assert Flatten(old(fh.raw))[..size] == piece;
    failure := None;
  }

  /**
   * The raw-payload loop of `Read`: copy `span` sectors of `sectorSize`
   * bytes, in chunks of whole sectors capped at `maxPayload`. `chunks`
   * are the chunk sizes and `progress` the sector counts reported after
   * each chunk.
   */
  method ReceiveSectors(fh: QualcommFirehose, span: nat, sectorSize: nat, maxPayload: nat, out: OutputStream)
    returns (failure: Option<Error>, ghost chunks: seq<int>, ghost progress: seq<int>)
    requires span == 0 || sectorSize <= maxPayload || span * sectorSize <= maxPayload
    modifies fh, out
    ensures failure.None? ==> var n := span * sectorSize;
      && 0 <= n <= |Flatten(old(fh.raw))|
      && out.written == old(out.written) + Flatten(old(fh.raw))[..n]
      && Flatten(fh.raw) == Flatten(old(fh.raw))[n..]
      && WholeSectorChunks(chunks, progress, sectorSize, maxPayload)
      && Sum(progress) == span && Sum(chunks) == n
    ensures failure.Some? ==> failure == Some(Timeout) || (failure == Some(DivideByZero) && sectorSize == 0 && span != 0)
    ensures sectorSize == 0 && span != 0 ==> failure == Some(DivideByZero)
    ensures failure == Some(Timeout) ==> |Flatten(old(fh.raw))| < span * sectorSize
    ensures fh.batches == old(fh.batches) && fh.sent == old(fh.sent) && fh.closed == old(fh.closed)
  {
    chunks, progress := [], [];
    ghost var taken: seq<byte> := [];
    var remaining: int := span;
    var bufSize: int := remaining * sectorSize;
    while remaining != 0
      invariant 0 <= remaining <= span
      invariant bufSize == remaining * sectorSize
      invariant remaining == 0 || sectorSize <= maxPayload || bufSize <= maxPayload
      invariant out.written == old(out.written) + taken && Flatten(old(fh.raw)) == taken + Flatten(fh.raw)
      invariant WholeSectorChunks(chunks, progress, sectorSize, maxPayload)
      invariant Sum(progress) == span - remaining && |taken| == Sum(chunks)
      invariant fh.batches == old(fh.batches) && fh.sent == old(fh.sent) && fh.closed == old(fh.closed)
      decreases remaining
    {
      if sectorSize == 0 {
        // the copy loop is empty, and counting the sectors divides by zero
        return Some(DivideByZero), chunks, progress;
      }
      var sectorCount;
      bufSize, sectorCount := NextChunk(remaining, sectorSize, maxPayload, bufSize);
      ghost var rawBefore := fh.raw;
      var f := ReceiveChunk(fh, bufSize, out);
      if f.Some? {
        SumDistributes(progress, chunks, sectorSize, maxPayload);
        ShortOfSpan(|Flatten(old(fh.raw))|, |taken|, span, remaining, sectorCount, sectorSize);
        return f, chunks, progress;
      }
      ghost var piece := Flatten(rawBefore)[..bufSize];
      assert Flatten(rawBefore) == piece + Flatten(fh.raw);
      WholeSectorChunksSnoc(chunks, progress, sectorSize, maxPayload, bufSize, sectorCount);
      chunks := chunks + [bufSize];
      progress := progress + [sectorCount];
      taken := taken + piece;
      assert out.written == old(out.written) + taken && Flatten(old(fh.raw)) == taken + Flatten(fh.raw);
      remaining := remaining - sectorCount;
      bufSize := remaining * sectorSize;
    }
    SumDistributes(progress, chunks, sectorSize, maxPayload);
    assert Flatten(old(fh.raw))[..|taken|] == taken;
    failure := None;
  }

  /**
   * One turn of the raw-payload loop before the transfer: the buffer
   * size capped to whole sectors within `maxPayload`, and the sectors it
   * holds.
   */
  method NextChunk(remaining: int, sectorSize: int, maxPayload: int, bufSize: int) returns (chunk: int, sectorCount: int)
    requires remaining > 0 && sectorSize > 0 && maxPayload >= 0 && bufSize == remaining * sectorSize
    requires sectorSize <= maxPayload || bufSize <= maxPayload
    ensures 0 < sectorCount <= remaining && chunk == sectorCount * sectorSize && 0 < chunk <= maxPayload
    ensures remaining - sectorCount > 0 ==> sectorSize <= maxPayload
  {
    MulSign(remaining, sectorSize);
    chunk := bufSize;
    if chunk > maxPayload {
      chunk := (maxPayload / sectorSize) * sectorSize;
    }
    sectorCount := chunk / sectorSize;
    SectorChunkStep(remaining, sectorSize, maxPayload, chunk, sectorCount);
  }

  /** A transfer that times out in its next chunk had fewer raw bytes than the whole request. */
  lemma ShortOfSpan(have: int, done: int, span: int, remaining: int, count: int, sectorSize: int)
    requires sectorSize >= 0 && 0 < count <= remaining && done == (span - remaining) * sectorSize
    requires have < done + count * sectorSize
    ensures have < span * sectorSize
  {
    MulMonotone(count, remaining, sectorSize);
    assert (span - remaining) * sectorSize + remaining * sectorSize == span * sectorSize;
  }

  lemma WholeSectorChunksSnoc(chunks: seq<int>, progress: seq<int>, sectorSize: int, maxPayload: int,
                              chunk: int, count: int)
    requires WholeSectorChunks(chunks, progress, sectorSize, maxPayload)
    requires count > 0 && chunk == count * sectorSize && 0 < chunk <= maxPayload
    ensures WholeSectorChunks(chunks + [chunk], progress + [count], sectorSize, maxPayload)
    ensures Sum(chunks + [chunk]) == Sum(chunks) + chunk && Sum(progress + [count]) == Sum(progress) + count
  {
    assert (chunks + [chunk])[..|chunks|] == chunks;
    assert (progress + [count])[..|progress|] == progress;
  }

  /**
   * What `Read` into a stream returns against a script, once the range is
   * ordered: the first drain's exception; false when its response does
   * not grant raw mode; a division by zero for a zero sector size; a
   * timeout when the raw stream holds fewer bytes than the sectors asked
   * for; otherwise the trailing drain's exception, or true.
   */
  function ReadSpec(batches: seq<Batch>, raw: seq<Chunk>, sectorSize: uint32, first: uint32, last: uint32): (r: Result<bool>)
    ensures r == Ok(true) ==> SectorSpan(first, last) * sectorSize <= |Flatten(raw)|
  {
    var d := DrainSpec(batches);
    if d.result.Err? then Err(d.result.error)
    else if !d.result.value.rawMode then Ok(false)
    else if sectorSize == 0 && SectorSpan(first, last) != 0 then Err(DivideByZero)
    else if |Flatten(raw)| < SectorSpan(first, last) * sectorSize then Err(Timeout)
    else
      match DrainSpec(batches[d.consumed..]).result
      case Err(e) => Err(e)
      case Ok(_) => Ok(true)
  }

  /**
   * What the stream read leaves on the channel wherever the script
   * decides it. Last < First touches nothing. A failed or refusing first
   * drain consumes only its own batches and no payload byte. A read that
   * returns true consumes exactly the sectors' bytes and the batches of
   * both drains.
   */
  predicate ReadLeaves(batches0: seq<Batch>, raw0: seq<Chunk>, sectorSize: uint32, first: uint32, last: uint32,
                       batches: seq<Batch>, raw: seq<Chunk>)
  {
    var d := DrainSpec(batches0);
    if last < first then batches == batches0 && raw == raw0
    else
      && ((d.result.Err? || !d.result.value.rawMode) ==> batches == batches0[d.consumed..] && raw == raw0)
      && (ReadSpec(batches0, raw0, sectorSize, first, last) == Ok(true) ==>
            && batches == batches0[d.consumed + DrainSpec(batches0[d.consumed..]).consumed..]
            && Flatten(raw) == Flatten(raw0)[SectorSpan(first, last) * sectorSize..])
  }

  /**
   * `Read` into a stream: send the read command and drain to its ACK; if
   * the ACK does not grant raw mode, fail without touching the payload.
   * Otherwise copy exactly `SectorSpan * sectorSize` raw bytes to `out`
   * in chunks of whole sectors no larger than `maxPayload`, then drain the
   * trailing response once.
   */
  method Read(fh: QualcommFirehose, storageType: StorageType, lun: uint32, sectorSize: uint32,
              first: uint32, last: uint32, maxPayload: int32, out: OutputStream)
    returns (r: Result<bool>, ghost chunks: seq<int>, ghost progress: seq<int>)
    requires maxPayload >= 0
    requires ReadTerminates(first, last, sectorSize, maxPayload)
    modifies fh, out
    ensures fh.closed == old(fh.closed)
    ensures last < first ==>
      && r == Err(InvalidData) && fh.sent == old(fh.sent) && fh.batches == old(fh.batches)
      && fh.raw == old(fh.raw) && out.written == old(out.written)
    ensures first <= last ==> fh.sent == old(fh.sent) + [ReadCommand(storageType, lun, sectorSize, first, last)]
    ensures first <= last ==> r == ReadSpec(old(fh.batches), old(fh.raw), sectorSize, first, last)
    ensures ReadLeaves(old(fh.batches), old(fh.raw), sectorSize, first, last, fh.batches, fh.raw)
    ensures first <= last ==> var d := DrainSpec(old(fh.batches));
      && ((d.result.Err? || !d.result.value.rawMode) ==>
            fh.raw == old(fh.raw) && out.written == old(out.written) && fh.batches == old(fh.batches)[d.consumed..])
    ensures r == Ok(false) ==> out.written == old(out.written) && fh.raw == old(fh.raw)
    ensures r == Ok(true) ==>
      var d := DrainSpec(old(fh.batches)); var n := SectorSpan(first, last) * sectorSize;
      var d2 := DrainSpec(old(fh.batches)[d.consumed..]);
      && first <= last && d.result.Ok? && d.result.value.rawMode
      && 0 <= n <= |Flatten(old(fh.raw))|
      && out.written == old(out.written) + Flatten(old(fh.raw))[..n]
      && Flatten(fh.raw) == Flatten(old(fh.raw))[n..]
      && d2.result.Ok? && fh.batches == old(fh.batches)[d.consumed + d2.consumed..]
      && WholeSectorChunks(chunks, progress, sectorSize, maxPayload)
      && Sum(progress) == SectorSpan(first, last) && Sum(chunks) == n
  {
    chunks, progress := [], [];
    if last < first {
      return Err(InvalidData), chunks, progress;
    }
    fh.SendData(ReadCommand(storageType, lun, sectorSize, first, last));
    var response, logs := MessageLoop(fh);
    if response.Err? {
      return Err(response.error), chunks, progress;
    }
    if !response.value.rawMode {
      return Ok(false), chunks, progress;
    }
    ghost var drain := DrainSpec(old(fh.batches));
    ghost var afterAck := fh.batches;
    assert afterAck == old(fh.batches)[drain.consumed..];
    var failure;
    failure, chunks, progress := ReceiveSectors(fh, SectorSpan(first, last), sectorSize, maxPayload, out);
    if failure.Some? {
      return Err(failure.value), chunks, progress;
    }
    var trailer, trailerLogs := MessageLoop(fh);
    if trailer.Err? {
      return Err(trailer.error), chunks, progress;
    }
    assert afterAck[DrainSpec(afterAck).consumed..] == fh.batches;
    assert fh.batches == old(fh.batches)[drain.consumed + DrainSpec(afterAck).consumed..];
    r := Ok(true);
  }
  /**
   * Against a programmer that answers the read command with a response
   * granting raw mode, streams at least the requested bytes and then
   * answers once more, the stream read returns true and the buffer read
   * returns exactly the first `SectorSpan * sectorSize` raw bytes.
   */
  lemma GrantedReadDelivers(ack: Response, trailer: Response, rest: seq<Batch>, raw: seq<Chunk>,
                            sectorSize: uint32, first: uint32, last: uint32)
    requires ack.rawMode && first <= last && sectorSize > 0
    requires SectorSpan(first, last) * sectorSize <= |Flatten(raw)|
    ensures var batches := [Frames([Resp(ack)]), Frames([Resp(trailer)])] + rest;
      && ReadSpec(batches, raw, sectorSize, first, last) == Ok(true)
      && (BufferCapacity(first, last, sectorSize) >= 0 ==>
            ReadBytesSpec(batches, raw, sectorSize, first, last)
              == Ok(Some(Flatten(raw)[..SectorSpan(first, last) * sectorSize])))
  {
    var batches := [Frames([Resp(ack)]), Frames([Resp(trailer)])] + rest;
    assert FirstResponse([Resp(ack)]) == Some(0);
    assert FirstResponse([Resp(trailer)]) == Some(0);
    assert batches[1..] == [Frames([Resp(trailer)])] + rest;
  }

  /** One chunk of the raw loop takes at least one and at most the remaining sectors. */
  lemma SectorChunkStep(remaining: int, sectorSize: int, maxPayload: int, bufSize: int, sectorCount: int)
    requires remaining > 0 && sectorSize > 0 && maxPayload >= 0
    requires sectorSize <= maxPayload || remaining * sectorSize <= maxPayload
    requires if remaining * sectorSize > maxPayload
             then bufSize == (maxPayload / sectorSize) * sectorSize
             else bufSize == remaining * sectorSize
    requires sectorCount == bufSize / sectorSize
    ensures 0 < sectorCount <= remaining && bufSize == sectorCount * sectorSize && 0 < bufSize <= maxPayload
    ensures remaining - sectorCount > 0 ==> sectorSize <= maxPayload
  {
    if remaining * sectorSize > maxPayload {
      var q := maxPayload / sectorSize;
      MulDivCancel(q, sectorSize);
      DivMulBelow(maxPayload, sectorSize);
      assert q >= 1;
      MulSign(q, sectorSize);
      if q >= remaining {
        MulMonotone(remaining, q, sectorSize);
      }
    } else {
      MulDivCancel(remaining, sectorSize);
      MulSign(remaining, sectorSize);
    }
  }

  /** The capacity the byte-array `Read` gives its buffer: the byte count in `uint`, cast to `int`. */
  function BufferCapacity(first: uint32, last: uint32, sectorSize: uint32): (c: int)
    ensures IsInt(c)
    ensures SectorSpan(first, last) * sectorSize < TWO_31 ==> c == SectorSpan(first, last) * sectorSize
  {
    var bytes := SectorSpan(first, last) * sectorSize;
    ToInt(ToUInt(bytes))
  }

  /**
   * What `Read` into a fresh buffer returns against a script: the stream
   * read's outcome, with the bytes it copied in place of true and no
   * buffer in place of false, after the two checks that come first.
   */
  function ReadBytesSpec(batches: seq<Batch>, raw: seq<Chunk>, sectorSize: uint32, first: uint32, last: uint32)
    : Result<Option<seq<byte>>>
  {
    if last < first then Err(InvalidData)
    else if BufferCapacity(first, last, sectorSize) < 0 then Err(ArgumentOutOfRange)
    else
      match ReadSpec(batches, raw, sectorSize, first, last)
      case Err(e) => Err(e)
      case Ok(granted) => if granted then Ok(Some(Flatten(raw)[..SectorSpan(first, last) * sectorSize])) else Ok(None)
  }

  /**
   * What the byte-array read leaves on the channel: nothing consumed
   * when the buffer cannot be allocated, otherwise what the stream read
   * leaves.
   */
  predicate ReadBytesLeaves(batches0: seq<Batch>, raw0: seq<Chunk>, sectorSize: uint32, first: uint32, last: uint32,
                            batches: seq<Batch>, raw: seq<Chunk>)
  {
    if first <= last && BufferCapacity(first, last, sectorSize) < 0 then batches == batches0 && raw == raw0
    else ReadLeaves(batches0, raw0, sectorSize, first, last, batches, raw)
  }

  /**
   * `Read` into a fresh buffer: the bytes the stream `Read` copies, or
   * None when raw mode was refused. A byte count whose `uint` product
   * wraps into the negative `int` range makes the buffer's constructor
   * throw before anything is sent.
   */
  method ReadBytes(fh: QualcommFirehose, storageType: StorageType, lun: uint32, sectorSize: uint32,
                   first: uint32, last: uint32, maxPayload: int32)
    returns (r: Result<Option<seq<byte>>>)
    requires maxPayload >= 0
    requires BufferCapacity(first, last, sectorSize) < 0 || ReadTerminates(first, last, sectorSize, maxPayload)
    modifies fh
    ensures fh.closed == old(fh.closed)
    ensures r == ReadBytesSpec(old(fh.batches), old(fh.raw), sectorSize, first, last)
    ensures ReadBytesLeaves(old(fh.batches), old(fh.raw), sectorSize, first, last, fh.batches, fh.raw)
    ensures last < first ==> r == Err(InvalidData) && fh.sent == old(fh.sent)
    ensures first <= last && BufferCapacity(first, last, sectorSize) < 0 ==>
      r == Err(ArgumentOutOfRange) && fh.sent == old(fh.sent) && fh.batches == old(fh.batches) && fh.raw == old(fh.raw)
    ensures first <= last && BufferCapacity(first, last, sectorSize) >= 0 ==>
      fh.sent == old(fh.sent) + [ReadCommand(storageType, lun, sectorSize, first, last)]
  {
    if last < first {
      return Err(InvalidData);
    }
    if BufferCapacity(first, last, sectorSize) < 0 {
      return Err(ArgumentOutOfRange);
    }
    var buffer := new OutputStream();
    ghost var spec := ReadSpec(fh.batches, fh.raw, sectorSize, first, last);
    ghost var stream := Flatten(fh.raw);
    var result, chunks, progress := Read(fh, storageType, lun, sectorSize, first, last, maxPayload, buffer);
    assert result == spec;
    if result.Err? {
      return Err(result.error);
    }
    if !result.value {
      return Ok(None);
    }
    assert buffer.written == stream[..SectorSpan(first, last) * sectorSize];
    r := Ok(Some(buffer.written));
  }

  // ------------------------------------------------------------------
  // Reset

  /**
   * `Reset`: send the power command, drain its response, then close the
   * channel. A failing drain propagates before the close.
   */
  method Reset(fh: QualcommFirehose, power: PowerValue, delayInSeconds: uint32) returns (r: Result<bool>)
    modifies fh
    ensures fh.sent == old(fh.sent) + [PowerCommand(power, delayInSeconds)]
    ensures var d := DrainSpec(old(fh.batches));
      && fh.batches == old(fh.batches)[d.consumed..]
      && (d.result.Ok? ==> r == Ok(true) && fh.closed)
      && (d.result.Err? ==> r == Err(d.result.error) && fh.closed == old(fh.closed))
    ensures fh.raw == old(fh.raw)
  {
    fh.SendData(PowerCommand(power, delayInSeconds));
    var response, logs := MessageLoop(fh);
    if response.Err? {
      return Err(response.error);
    }
    fh.Close();
    r := Ok(true);
  }

  /**
   * `Reset` on a device that is already gone: the drain ends in
   * BadConnection, so the close meant for exactly this case is skipped
   * and the port stays open.
   */
  method ResetOnRemovedDevice(fh: QualcommFirehose, power: PowerValue, delayInSeconds: uint32)
    returns (r: Result<bool>)
    requires fh.batches == [] && !fh.closed
    modifies fh
    ensures r == Err(BadConnection) && !fh.closed
  {
    r := Reset(fh, power, delayInSeconds);
  }

  /**
   * The reset with the close in a `finally`: the port is closed whether
   * or not the drain throws, and the outcome is otherwise `Reset`'s.
   */
  method ResetAndClose(fh: QualcommFirehose, power: PowerValue, delayInSeconds: uint32) returns (r: Result<bool>)
    modifies fh
    ensures fh.sent == old(fh.sent) + [PowerCommand(power, delayInSeconds)]
    ensures var d := DrainSpec(old(fh.batches));
      && fh.batches == old(fh.batches)[d.consumed..]
      && r == (if d.result.Ok? then Ok(true) else Err(d.result.error))
    ensures fh.closed && fh.raw == old(fh.raw)
  {
    fh.SendData(PowerCommand(power, delayInSeconds));
    var response, logs := MessageLoop(fh);
    fh.Close();
    if response.Err? {
      return Err(response.error);
    }
    r := Ok(true);
  }

  /** The defaults of `Reset`'s optional parameters: reset after one second. */
  const DefaultPower: PowerValue := PowerValue.Reset
  const DefaultResetDelay: uint32 := 1

  // ------------------------------------------------------------------
  // Storage info

  /** The log line that carries the storage-info JSON. */
  const StorageInfoPrefix: string := "INFO: {\"storage_info\": "

  /** The JSON text of the last storage-info log line (the line without its `INFO: ` tag), if any. */
  function StorageInfoLine(logs: seq<string>): Option<string>
  {
    if logs == [] then None
    else
      match StorageInfoLine(logs[1..])
      case Some(json) => Some(json)
      case None => if StartsWith(logs[0], StorageInfoPrefix) then Some(logs[0][6..]) else None
  }

  /**
   * The callback keeps the last matching line: the JSON comes from a log
   * with the storage-info prefix, no later log has that prefix, and
   * there is no JSON exactly when no log has it.
   */
  lemma {:induction false} StorageInfoLineIsLastMatch(logs: seq<string>)
    ensures StorageInfoLine(logs).None? <==> forall i :: 0 <= i < |logs| ==> !StartsWith(logs[i], StorageInfoPrefix)
    ensures StorageInfoLine(logs).Some? ==>
      exists i :: 0 <= i < |logs| && StartsWith(logs[i], StorageInfoPrefix)
        && StorageInfoLine(logs).value == logs[i][6..]
        && forall j :: i < j < |logs| ==> !StartsWith(logs[j], StorageInfoPrefix)
  {
    if logs != [] {
      StorageInfoLineIsLastMatch(logs[1..]);
      assert forall i :: 1 <= i < |logs| ==> logs[i] == logs[1..][i - 1];
      match StorageInfoLine(logs[1..])
      case Some(json) =>
        var k :| 0 <= k < |logs[1..]| && StartsWith(logs[1..][k], StorageInfoPrefix)
          && json == logs[1..][k][6..]
          && forall j :: k < j < |logs[1..]| ==> !StartsWith(logs[1..][j], StorageInfoPrefix);
        assert StartsWith(logs[k + 1], StorageInfoPrefix);
      case None =>
        if StartsWith(logs[0], StorageInfoPrefix) {
          assert StartsWith(logs[0], StorageInfoPrefix);
        }
    }
  }

  /**
   * `GetStorageInfo`: send the storage-info command, drain its response
   * while watching the logs, and deserialize the JSON of the last
   * storage-info line with `parse` (None for no line, or a document that
   * does not deserialize). A failing drain propagates.
   */
  method GetStorageInfo(fh: QualcommFirehose, parse: string -> Option<StorageInfo>,
                        storageType: StorageType, physicalPartition: uint32)
    returns (r: Result<Option<StorageInfo>>)
    modifies fh
    ensures fh.sent == old(fh.sent) + [StorageInfoCommand(storageType, physicalPartition)]
    ensures var d := DrainSpec(old(fh.batches));
      && fh.batches == old(fh.batches)[d.consumed..]
      && (d.result.Err? ==> r == Err(d.result.error))
      && (d.result.Ok? ==>
            r == Ok(match StorageInfoLine(d.logs) case None => None case Some(json) => parse(json)))
    ensures fh.raw == old(fh.raw) && fh.closed == old(fh.closed)
  {
    fh.SendData(StorageInfoCommand(storageType, physicalPartition));
    var response, logs := MessageLoop(fh);
    if response.Err? {
      return Err(response.error);
    }
    var json := StorageInfoLine(logs);
    if json.None? {
      return Ok(None);
    }
    r := Ok(parse(json.value));
  }

  /** The defaults of `GetStorageInfo`'s optional parameters: UFS, physical partition 0. */
  const DefaultStorageType: StorageType := UFS
  const DefaultPhysicalPartition: uint32 := 0
}
