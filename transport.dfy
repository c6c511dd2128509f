/**
 * The byte channel to the device once a Firehose programmer runs
 * (`QualcommSerial` plus `QualcommFirehose`'s frame reader), modelled as
 * a scripted device: the frame batches it will answer with, the raw
 * payload bytes it will stream, and a log of the commands sent to it.
 */
module Transport {
  import opened Wrappers
  import opened Ints
  import opened FirehoseXml

  /** One element of a decoded reply document. */
  datatype Frame = Log(text: string) | Resp(response: Response) | Unrecognised

  /** One call of the frame reader: a decoded batch, or the exception it raised. */
  datatype Batch = Frames(frames: seq<Frame>) | Fault(error: Error)

  /** A non-empty arrival of raw bytes. */
  type Chunk = c: seq<byte> | |c| > 0 witness [0]

  /** The `<power>` actions; the enumeration's full list is not part of this model. */
  datatype PowerValue = Reset | Off

  /** The command documents the core sends, with the arguments it chooses. */
  datatype Command =
    | ConfigureCommand(storageType: StorageType, verbose: bool, maxPayloadSizeToTargetInBytes: uint64)
    | ReadCommand(storageType: StorageType, lun: uint32, sectorSize: uint32, firstSector: uint32, lastSector: uint32)
    | PowerCommand(power: PowerValue, delayInSeconds: uint32)
    | StorageInfoCommand(storageType: StorageType, physicalPartitionNumber: uint32)

  /** The raw byte stream that a sequence of arrivals makes up. */
  function Flatten(chunks: seq<Chunk>): (s: seq<byte>)
    ensures |s| >= |chunks|
  {
    if chunks == [] then [] else chunks[0] + Flatten(chunks[1..])
  }

  class QualcommFirehose {
    /** The batches the frame reader will return, in order; when none are left the device is gone. */
    var batches: seq<Batch>
    /** The raw arrivals the serial port will return, in order; when none are left a read times out. */
    var raw: seq<Chunk>
    /** Every command sent so far. */
    var sent: seq<Command>
    /** Whether the serial port has been closed. */
    var closed: bool

    constructor (batches: seq<Batch>, raw: seq<Chunk>)
      ensures this.batches == batches && this.raw == raw && sent == [] && !closed
    {
      this.batches := batches;
      this.raw := raw;
      sent := [];
      closed := false;
    }

    /** `Serial.SendData`: the command goes to the device. */
    method SendData(c: Command)
      modifies this
      ensures sent == old(sent) + [c]
      ensures batches == old(batches) && raw == old(raw) && closed == old(closed)
    {
      sent := sent + [c];
    }

    /** `GetFirehoseResponseDataPayloads`: the next decoded batch of frames. */
    method GetFirehoseResponseDataPayloads() returns (r: Result<seq<Frame>>)
      modifies this
      ensures old(batches) == [] ==> r == Err(BadConnection) && batches == []
      ensures old(batches) != [] ==> batches == old(batches)[1..]
      ensures old(batches) != [] ==>
        r == match old(batches)[0] case Frames(fs) => Ok(fs) case Fault(e) => Err(e)
      ensures raw == old(raw) && sent == old(sent) && closed == old(closed)
    {
      if batches == [] {
        return Err(BadConnection);
      }
      var b := batches[0];
      batches := batches[1..];
      match b
      case Frames(fs) => r := Ok(fs);
      case Fault(e) => r := Err(e);
    }

    /**
     * `Serial.GetResponse(null, length)`: at most `length` raw bytes, at
     * least one; the part of an arrival beyond `length` stays queued.
     */
    method GetResponse(length: nat) returns (r: Result<seq<byte>>)
      requires length > 0
      modifies this
      ensures old(raw) == [] ==> r == Err(Timeout) && raw == []
      ensures old(raw) != [] ==> r.Ok? && 0 < |r.value| <= length
      ensures r.Ok? ==> Flatten(old(raw)) == r.value + Flatten(raw)
      ensures batches == old(batches) && sent == old(sent) && closed == old(closed)
    {
      if raw == [] {
        return Err(Timeout);
      }
      var c := raw[0];
      if |c| <= length {
        raw := raw[1..];
        r := Ok(c);
      } else {
        var rest: Chunk := c[length..];
        raw := [rest] + raw[1..];
        r := Ok(c[..length]);
        assert Flatten(raw) == rest + Flatten(old(raw)[1..]);
        assert c == c[..length] + rest;
      }
    }

    /** `Serial.Close`. */
    method Close()
      modifies this
      ensures closed
      ensures batches == old(batches) && raw == old(raw) && sent == old(sent)
    {
      closed := true;
    }
  }

  /** A writable byte stream (the caller's `Stream`, or a `MemoryStream`). */
  class OutputStream {
    var written: seq<byte>

    constructor ()
      ensures written == []
    {
      written := [];
    }

    method Write(data: seq<byte>)
      modifies this
      ensures written == old(written) + data
    {
      written := written + data;
    }
  }
}
