/**
 * The simulator's frames and the server's decoder agree: decoding a frame
 * produced by the simulator recovers, for every field of the record, the
 * analog word the simulator wrote for that field's protocol index.
 */
module LinkRoundTrip {
  import opened Wrappers
  import opened Bytes
  import opened ChannelMap
  import SensorSimulator
  import opened SensorLink

  /** The simulator's poll check accepts exactly the command the server writes. */
  lemma PollCommandsAgree()
    ensures SensorSimulator.PollCommand == SensorLink.PollCommand
    ensures SensorSimulator.AcceptsPoll(SensorLink.PollCommand)
  {
  }

  /** The header of a simulated frame passes the start check and declares 40 DI and 628 AI bytes. */
  lemma HeaderRoundTrip(ai: map<int, u32>, rest: seq<byte>)
    ensures |SensorSimulator.EncodedFrame(ai) + rest| >= HeaderLen
    ensures ParseHeader((SensorSimulator.EncodedFrame(ai) + rest)[..HeaderLen]) == Some(Lengths(40, 628))
  {
    SensorSimulator.FrameHeader(ai);
    var input := SensorSimulator.EncodedFrame(ai) + rest;
    assert input[..HeaderLen] == SensorSimulator.Header;
    assert ParseHeader(SensorSimulator.Header) == Some(Lengths(40, 628));
  }

  /** The analog block the decoder slices out is the simulator's block of words. */
  lemma BlockRoundTrip(ai: map<int, u32>, rest: seq<byte>)
    ensures var input := SensorSimulator.EncodedFrame(ai) + rest;
      && |input| == 688 + |rest|
      && AiSlice(input[HeaderLen .. HeaderLen + BodyLength(Lengths(40, 628))], Lengths(40, 628))
           == Some(SensorSimulator.AiBlock(ai, SensorSimulator.FirstAiIndex, SensorSimulator.LastAiIndex + 1))
  {
    SensorSimulator.FrameAiSection(ai);
    var frame := SensorSimulator.EncodedFrame(ai);
    var input := frame + rest;
    var body := input[16 .. 688];
    assert body[40 .. 668] == frame[56 .. 684];
  }

  /** Decoding a block of words for indices lo .. hi-1 yields those words, in order. */
  lemma BlockWords(ai: map<int, u32>, lo: int, hi: int)
    requires lo < hi
    ensures |SensorSimulator.AiBlock(ai, lo, hi)| == 4 * (hi - lo)
    ensures forall p :: lo <= p < hi ==>
      DecodeWords(SensorSimulator.AiBlock(ai, lo, hi), hi - lo)[p - lo] == SensorSimulator.WordAt(ai, p)
  {
    var block := SensorSimulator.AiBlock(ai, lo, hi);
    SensorSimulator.AiBlockLength(ai, lo, hi);
    var words := DecodeWords(block, hi - lo);
    forall k | 0 <= k < hi - lo
      ensures words[k] == SensorSimulator.WordAt(ai, lo + k)
    {
      SensorSimulator.AiBlockAt(ai, lo, hi, lo + k);
      LittleEndian32RoundTrip(words[k]);
      LittleEndian32RoundTrip(SensorSimulator.WordAt(ai, lo + k));
    }
  }

  /** The body that follows a simulated header reads back as the simulator's 157 words. */
  lemma BodyRoundTrip(ai: map<int, u32>, rest: seq<byte>)
    ensures |SensorSimulator.AiBlock(ai, SensorSimulator.FirstAiIndex, SensorSimulator.LastAiIndex + 1)| == 4 * 157
    ensures var r := ReadBody((SensorSimulator.EncodedFrame(ai) + rest)[HeaderLen..], Lengths(40, 628));
      && r.Decoded?
      && r.points == DecodeWords(SensorSimulator.AiBlock(ai, SensorSimulator.FirstAiIndex, SensorSimulator.LastAiIndex + 1), 157)
      && r.rest == rest
  {
    BlockRoundTrip(ai, rest);
    var input := SensorSimulator.EncodedFrame(ai) + rest;
    var h := Lengths(40, 628);
    var tail := input[HeaderLen..];
    assert tail[..BodyLength(h)] == input[HeaderLen .. HeaderLen + BodyLength(h)];
    assert tail[BodyLength(h)..] == rest;
  }

  /**
   * One tick's read of a simulated frame (followed by anything) decodes it:
   * lengths 40 and 628, 157 points, the rest of the stream untouched, and
   * every field of the record holding the word written for its index.
   */
  lemma FrameRoundTrip(ai: map<int, u32>, rest: seq<byte>)
    ensures var r := ReadFrame(SensorSimulator.EncodedFrame(ai) + rest);
      && r.Decoded?
      && r.lengths == Lengths(40, 628)
      && |r.points| == 157
      && r.rest == rest
      && (forall p :: p in r.record <==> FieldFor(p).Some?)
      && (forall p :: p in r.record ==> r.record[p] == Convert(FieldFor(p).value, SensorSimulator.WordAt(ai, p)))
  {
    HeaderRoundTrip(ai, rest);
    BodyRoundTrip(ai, rest);
    BlockWords(ai, SensorSimulator.FirstAiIndex, SensorSimulator.LastAiIndex + 1);
    var input := SensorSimulator.EncodedFrame(ai) + rest;
    var r := ReadFrame(input);
    assert r == ReadBody(input[HeaderLen..], Lengths(40, 628));
    RecordFields(r.points);
  }
}
