/**
 * The receiving side of the telemetry link: once per tick the server writes
 * the poll command, reads a 16-byte header, checks the start marker, reads
 * the body by the declared lengths, slices out the analog block, decodes its
 * little-endian words and fills the Hualong record field by field through
 * the channel map. Frames are read by declared length only: neither the
 * checksum nor the end marker is ever looked at.
 */
module SensorLink {
  import opened Wrappers
  import opened Bytes
  import opened ChannelMap

  const PollCommand: seq<byte> := [0x40, 0xFF, 0x00, 0x00, 0x0D, 0x0A]
  const HeaderLen: int := 16

  /** The record is filled only when there are more than 475 - 327 points. */
  const MinPoints: int := LastIndex - BaseIndex + 1

  /** The two length fields of a header: DI and AI block sizes in bytes. */
  datatype Lengths = Lengths(diLen: u16, aiLen: u16)

  /**
   * Header check: a header not starting with 40 01 is rejected; otherwise
   * the lengths are the big-endian u16 values at bytes 12..13 and 14..15.
   */
  function ParseHeader(header: seq<byte>): (r: Option<Lengths>)
    requires |header| == HeaderLen
    ensures r.Some? <==> header[0] == 0x40 && header[1] == 0x01
    ensures r.Some? ==> BigEndian16(r.value.diLen) == header[12..14]
    ensures r.Some? ==> BigEndian16(r.value.aiLen) == header[14..16]
  {
    if header[0] != 0x40 || header[1] != 0x01 then None
    else
      BigEndian16Injective(header[12], header[13]);
      BigEndian16Injective(header[14], header[15]);
      Some(Lengths(ReadBigEndian16(header[12], header[13]), ReadBigEndian16(header[14], header[15])))
  }

  /** Bytes read after the header: DI block, AI block, checksum and end marker (computed in int). */
  function BodyLength(h: Lengths): nat
  {
    h.diLen + h.aiLen + 4
  }

  /**
   * The analog block body[diLen : diLen+aiLen]. The upper bound is computed
   * in uint16: when diLen + aiLen exceeds 65535 it wraps below diLen and the
   * slice expression panics (None).
   */
  function AiSlice(body: seq<byte>, h: Lengths): (r: Option<seq<byte>>)
    requires |body| == BodyLength(h)
    ensures r.Some? <==> h.diLen + h.aiLen <= 0xFFFF
    ensures r.Some? ==> r.value == body[h.diLen .. h.diLen + h.aiLen]
  {
    var hi := (h.diLen + h.aiLen) % 0x1_0000;
    if hi < h.diLen then None else Some(body[h.diLen .. hi])
  }

  /** binary.Read of n little-endian 32-bit words from the front of a block. */
  function DecodeWords(block: seq<byte>, n: nat): (r: seq<u32>)
    requires 4 * n <= |block|
    ensures |r| == n
    ensures forall k :: 0 <= k < n ==> LittleEndian32(r[k]) == block[4 * k .. 4 * k + 4]
  {
    if n == 0 then []
    else
      var last := block[4 * (n - 1) .. 4 * n];
      LittleEndian32Injective(last);
      DecodeWords(block, n - 1) + [ReadLittleEndian32(last)]
  }

  /** A record field's value: the analog word widened to float64, or truncated to int32. */
  datatype Reading = Widened(bits: u32) | Truncated(bits: u32)

  function Convert(f: FieldName, w: u32): Reading
  {
    if KindOf(f) == Int32 then Truncated(w) else Widened(w)
  }

  /**
   * The record after the assignments for indices BaseIndex .. hi-1, keyed
   * by the protocol index each field is read from; FieldFor(p) names the
   * field.
   */
  function FilledUpTo(points: seq<u32>, hi: int, channels: int -> Option<FieldName>): map<int, Reading>
    requires hi <= LastIndex + 1 && |points| >= MinPoints
    decreases hi - BaseIndex
  {
    if hi <= BaseIndex then map[]
    else
      var m := FilledUpTo(points, hi - 1, channels);
      match channels(hi - 1)
      case None => m
      case Some(f) => m[hi - 1 := Convert(f, points[hi - 1 - BaseIndex])]
  }

  /** The completely filled record. */
  function Record(points: seq<u32>): map<int, Reading>
    requires |points| >= MinPoints
  {
    FilledUpTo(points, LastIndex + 1, FieldFor)
  }

  /** After the assignments below hi, exactly the named indices below hi are set, each from its own word. */
  lemma {:induction false} FilledUpToFields(points: seq<u32>, hi: int, channels: int -> Option<FieldName>)
    requires hi <= LastIndex + 1 && |points| >= MinPoints
    ensures forall p :: p in FilledUpTo(points, hi, channels) <==> BaseIndex <= p < hi && channels(p).Some?
    ensures forall p :: p in FilledUpTo(points, hi, channels) ==>
      FilledUpTo(points, hi, channels)[p] == Convert(channels(p).value, points[p - BaseIndex])
    decreases hi - BaseIndex
  {
    if hi > BaseIndex {
      FilledUpToFields(points, hi - 1, channels);
    }
  }

  /**
   * Every field the channel map names is set, from the word at offset
   * p - 327, and nothing else is.
   */
  lemma RecordFields(points: seq<u32>)
    requires |points| >= MinPoints
    ensures forall p :: p in Record(points) <==> FieldFor(p).Some?
    ensures forall p :: p in Record(points) ==> Record(points)[p] == Convert(FieldFor(p).value, points[p - BaseIndex])
  {
    FilledUpToFields(points, LastIndex + 1, FieldFor);
  }

  /** The Hualong record the decoder fills field by field. */
  class DredgerDataHl {
    /** Field values by the protocol index they come from; a field not set is absent (zero). */
    var values: map<int, Reading>

    constructor ()
      ensures values == map[]
    {
      values := map[];
    }

    /**
     * The guarded block of assignments: every field named by the channel
     * map gets the word at offset p - 327, converted by the field's kind.
     */
    method FillFromAnalog(aiFloats: seq<u32>)
      requires |aiFloats| >= MinPoints
      modifies this
      ensures values == Record(aiFloats)
      ensures forall p :: p in values <==> FieldFor(p).Some?
      ensures forall p :: p in values ==> values[p] == Convert(FieldFor(p).value, aiFloats[p - BaseIndex])
    {
      values := map[];
      var p := BaseIndex;
      while p <= LastIndex
        invariant BaseIndex <= p <= LastIndex + 1
        invariant values == FilledUpTo(aiFloats, p, FieldFor)
      {
        var field := FieldFor(p);
        if field.Some? {
          values := values[p := Convert(field.value, aiFloats[p - BaseIndex])];
        }
        p := p + 1;
      }
      RecordFields(aiFloats);
    }
  }

  /** What one tick makes of the bytes the sensor delivers. */
  datatype Exchange =
    | HeaderCut                   // fewer than 16 bytes left: the header read fails and the loop returns
    | BadStart(rest: seq<byte>)   // wrong start marker: the tick is skipped
    | BodyCut                     // fewer body bytes than declared: the loop returns
    | SlicePanic                  // diLen + aiLen wraps in uint16: the slice panics, unrecovered, ending the server process
    | TooFewPoints(rest: seq<byte>)  // 148 points or fewer: the tick is skipped
    | Decoded(lengths: Lengths, points: seq<u32>, record: map<int, Reading>, rest: seq<byte>)

  /** The analog words of the body at the front of input, or None where slicing the block panics. */
  function AiPoints(input: seq<byte>, h: Lengths): (r: Option<seq<u32>>)
    requires |input| >= BodyLength(h)
    ensures r.Some? <==> h.diLen + h.aiLen <= 0xFFFF
    ensures r.Some? ==> r.value == DecodeWords(input[h.diLen .. h.diLen + h.aiLen], h.aiLen / 4)
  {
    var body := input[..BodyLength(h)];
    assert h.diLen + h.aiLen <= 0xFFFF ==> body[h.diLen .. h.diLen + h.aiLen] == input[h.diLen .. h.diLen + h.aiLen];
    match AiSlice(body, h)
    case None => None
    case Some(block) => Some(DecodeWords(block, h.aiLen / 4))
  }

  /** Reads the body a header declared from the front of the bytes that follow the header. */
  function ReadBody(input: seq<byte>, h: Lengths): (r: Exchange)
    ensures r.BadStart? || r.HeaderCut? ==> false
    ensures r.BodyCut? <==> |input| < BodyLength(h)
    ensures r.SlicePanic? <==> |input| >= BodyLength(h) && h.diLen + h.aiLen > 0xFFFF
    ensures r.TooFewPoints? <==> |input| >= BodyLength(h) && h.diLen + h.aiLen <= 0xFFFF && h.aiLen / 4 < MinPoints
    ensures r.TooFewPoints? ==> r.rest == input[BodyLength(h)..] && |r.rest| < |input|
    ensures r.Decoded? ==>
      && r.lengths == h
      && |input| == BodyLength(h) + |r.rest|
      && input[BodyLength(h)..] == r.rest
      && |r.points| == h.aiLen / 4 >= MinPoints
      && r.points == DecodeWords(input[h.diLen .. h.diLen + h.aiLen], h.aiLen / 4)
      && r.record == Record(r.points)
  {
    if |input| < BodyLength(h) then BodyCut
    else
      var rest := input[BodyLength(h)..];
      match AiPoints(input, h)
      case None => SlicePanic
      case Some(points) =>
        if |points| < MinPoints then TooFewPoints(rest)
        else Decoded(h, points, Record(points), rest)
  }

  /** Reads one response frame from the front of the sensor's byte stream. */
  function ReadFrame(input: seq<byte>): (r: Exchange)
    ensures r.BadStart? || r.TooFewPoints? ==> |r.rest| < |input|
    ensures r.HeaderCut? <==> |input| < HeaderLen
    ensures r.BadStart? <==> |input| >= HeaderLen && !(input[0] == 0x40 && input[1] == 0x01)
    ensures r.BadStart? ==> r.rest == input[HeaderLen..]
    ensures |input| >= HeaderLen && input[0] == 0x40 && input[1] == 0x01 ==>
      r == ReadBody(input[HeaderLen..], ParseHeader(input[..HeaderLen]).value)
    ensures r.Decoded? ==>
      && r.lengths == ParseHeader(input[..HeaderLen]).value
      && |input| == HeaderLen + BodyLength(r.lengths) + |r.rest|
      && input[HeaderLen + BodyLength(r.lengths)..] == r.rest
      && |r.points| == r.lengths.aiLen / 4 >= MinPoints
      && r.record == Record(r.points)
  {
    if |input| < HeaderLen then HeaderCut
    else
      match ParseHeader(input[..HeaderLen])
      case None => BadStart(input[HeaderLen..])
      case Some(h) => ReadBody(input[HeaderLen..], h)
  }

  /**
   * One sensor connection of the server: the bytes the sensor will still
   * deliver, the commands written to it, the records pushed to the browser
   * and whether the loop is still running.
   */
  class SensorSession {
    var input: seq<byte>
    var commands: seq<seq<byte>>
    var published: seq<map<int, Reading>>
    var running: bool

    constructor (sensorBytes: seq<byte>)
      ensures input == sensorBytes && commands == [] && published == [] && running
    {
      input := sensorBytes;
      commands := [];
      published := [];
      running := true;
    }

    /** The part of the stream a tick leaves unread, by what the tick made of it. */
    static function Remaining(ex: Exchange): seq<byte>
    {
      match ex
      case HeaderCut => []
      case BodyCut => []
      case SlicePanic => []
      case BadStart(rest) => rest
      case TooFewPoints(rest) => rest
      case Decoded(_, _, _, rest) => rest
    }

    /**
     * The read half of a tick: the 16-byte header and its start-marker
     * check, then the body.
     */
    method Receive() returns (ex: Exchange)
      modifies this`input
      ensures ex == ReadFrame(old(input))
      ensures ex.SlicePanic? ==> |input| <= |old(input)|
      ensures !ex.SlicePanic? ==> input == Remaining(ex)
    {
      if |input| < HeaderLen {
        input := [];
        return HeaderCut;
      }
      var header := input[..HeaderLen];
      input := input[HeaderLen..];
      if header[0] != 0x40 || header[1] != 0x01 {
        return BadStart(input);
      }
      var diLen := ReadBigEndian16(header[12], header[13]);
      var aiLen := ReadBigEndian16(header[14], header[15]);
      assert ParseHeader(header) == Some(Lengths(diLen, aiLen));
      ex := ReceiveBody(Lengths(diLen, aiLen));
    }

    /**
     * The body read by the declared lengths (computed in int), the uint16
     * slice of the analog block and its decoding into little-endian words.
     */
    method ReceiveBody(lengths: Lengths) returns (ex: Exchange)
      modifies this`input
      ensures ex == ReadBody(old(input), lengths)
      ensures ex.SlicePanic? ==> |input| <= |old(input)|
      ensures !ex.SlicePanic? ==> input == Remaining(ex)
    {
      var diLen, aiLen := lengths.diLen, lengths.aiLen;
      var aiPointCount := aiLen / 4;
      var bodyLen: int := diLen as int + aiLen as int + 4;
      if |input| < bodyLen {
        input := [];
        return BodyCut;
      }
      var body := input[..bodyLen];
      input := input[bodyLen..];

      var hi: int := (diLen as int + aiLen as int) % 0x1_0000;
      if hi < diLen {
        return SlicePanic;
      }
      var aiDataBytes := body[diLen .. hi];
      assert AiSlice(body, lengths) == Some(aiDataBytes);
      var aiFloats := DecodeWords(aiDataBytes, aiPointCount);
      if |aiFloats| < MinPoints {
        return TooFewPoints(input);
      }
      return Decoded(lengths, aiFloats, Record(aiFloats), input);
    }

    /**
     * One tick of the loop. writeOk says whether the TCP write of the poll
     * command succeeds and pushOk whether the browser push succeeds; a
     * failure of either ends the loop, and so does a read that comes up short.
     */
    method Tick(writeOk: bool, pushOk: bool)
      requires running
      modifies this
      ensures !writeOk ==> !running && unchanged(`input, `commands, `published)
      ensures writeOk ==> commands == old(commands) + [PollCommand]
      ensures writeOk ==> match ReadFrame(old(input))
        case HeaderCut => !running && input == [] && published == old(published)
        case BodyCut => !running && input == [] && published == old(published)
        case SlicePanic => !running && published == old(published)
        case BadStart(rest) => running && input == rest && published == old(published)
        case TooFewPoints(rest) => running && input == rest && published == old(published)
        case Decoded(_, _, record, rest) =>
          running == pushOk && input == rest && published == old(published) + [record]
    {
      if !writeOk {
        running := false;
        return;
      }
      commands := commands + [PollCommand];
      var ex := Receive();
      match ex {
        case HeaderCut => running := false;
        case BodyCut => running := false;
        case SlicePanic => running := false;
        case BadStart(_) =>
        case TooFewPoints(_) =>
        case Decoded(_, aiFloats, _, _) =>
          var dredgerData := new DredgerDataHl();
          dredgerData.FillFromAnalog(aiFloats);
          published := published + [dredgerData.values];
          if !pushOk {
            running := false;
          }
      }
    }
  }
}
