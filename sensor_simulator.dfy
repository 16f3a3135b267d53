/**
 * The sensor side of the telemetry protocol (the hardware simulator): it
 * answers a valid poll command with one complete frame
 *
 *   40 01 | 10 reserved zero bytes | DI byte length (u16 BE) | AI byte length (u16 BE)
 *   | DI bytes | AI words, little-endian, indices 327..483 | 01 <sum mod 256> | 0D 0A
 *
 * The analog values come from a random perturbation of fixed base values;
 * here they are a parameter: the map from protocol index to the 32-bit
 * pattern of the binary32 value written for it.
 */
module SensorSimulator {
  import opened Bytes

  const StartMarker: seq<byte> := [0x40, 0x01]
  const EndMarker: seq<byte> := [0x0D, 0x0A]
  const PollCommand: seq<byte> := [0x40, 0xFF, 0x00, 0x00, 0x0D, 0x0A]

  /** Number of digital and analog points the simulated unit reports. */
  const DiCount: int := 320
  const AiCount: int := 157
  const FirstAiIndex: int := 327
  const LastAiIndex: int := 483

  const DiByteLen: u16 := (DiCount + 7) / 8
  const AiByteLen: u16 := AiCount * 4

  /** The 16-byte header: markers, reserved bytes and the two length fields. */
  const HeaderLen: int := 16
  const FrameLen: int := HeaderLen + DiByteLen + AiByteLen + 4

  function Zeros(n: nat): (r: seq<byte>)
    ensures |r| == n && forall i :: 0 <= i < n ==> r[i] == 0
  {
    seq(n, _ => 0)
  }

  /** The analog word written for index p: a value never set in the map encodes as 0. */
  function WordAt(ai: map<int, u32>, p: int): u32
  {
    if p in ai then ai[p] else 0
  }

  /** The little-endian words for indices lo .. hi-1, in ascending order. */
  function AiBlock(ai: map<int, u32>, lo: int, hi: int): seq<byte>
    decreases hi - lo
  {
    if hi <= lo then [] else AiBlock(ai, lo, hi - 1) + LittleEndian32(WordAt(ai, hi - 1))
  }

  /** Sum of a byte sequence, as an unbounded integer. */
  function ByteSum(s: seq<byte>): nat
  {
    if s == [] then 0 else ByteSum(s[..|s| - 1]) + s[|s| - 1]
  }

  /**
   * The 16 header bytes: start marker, ten reserved zero bytes, DI byte
   * length 40 and AI byte length 628, both big-endian (HeaderFields).
   */
  const Header: seq<byte> := [0x40, 0x01, 0, 0, 0, 0, 0, 0, 0, 0, 0, 0, 0, 40, 2, 116]

  /** Everything the checksum covers: header, DI bytes (all zero) and AI words. */
  function FrameBody(ai: map<int, u32>): seq<byte>
  {
    Header + Zeros(DiByteLen) + AiBlock(ai, FirstAiIndex, LastAiIndex + 1)
  }

  /** A body followed by the checksum (01, then the byte sum mod 256) and the end marker. */
  function Sealed(body: seq<byte>): seq<byte>
  {
    body + [0x01, ByteSum(body) % 0x100] + EndMarker
  }

  /** The frame the simulator sends for analog values ai. */
  function EncodedFrame(ai: map<int, u32>): seq<byte>
  {
    Sealed(FrameBody(ai))
  }

  lemma SealedParts(body: seq<byte>)
    ensures |Sealed(body)| == |body| + 4
    ensures Sealed(body)[..|body|] == body
    ensures Sealed(body)[|body|] == 0x01 && Sealed(body)[|body| + 1] == ByteSum(body) % 0x100
    ensures Sealed(body)[|body| + 2..] == EndMarker
  {
  }

  lemma BodyParts(ai: map<int, u32>)
    ensures |FrameBody(ai)| == 684
    ensures FrameBody(ai)[..HeaderLen] == Header
    ensures FrameBody(ai)[HeaderLen .. 56] == Zeros(DiByteLen)
    ensures FrameBody(ai)[56..] == AiBlock(ai, FirstAiIndex, LastAiIndex + 1)
  {
    AiBlockLength(ai, FirstAiIndex, LastAiIndex + 1);
    var a, b, c := Header, Zeros(DiByteLen), AiBlock(ai, FirstAiIndex, LastAiIndex + 1);
    assert (a + b + c)[..16] == a;
    assert (a + b + c)[16..56] == b;
    assert (a + b + c)[56..] == c;
  }

  lemma PrefixSlice(s: seq<byte>, n: int, lo: int, hi: int)
    requires 0 <= lo <= hi <= n <= |s|
    ensures s[..n][lo..hi] == s[lo..hi]
  {
  }

  lemma HeaderFields()
    ensures Header == StartMarker + Zeros(10) + BigEndian16(DiByteLen) + BigEndian16(AiByteLen)
    ensures ReadBigEndian16(Header[12], Header[13]) == 40 && ReadBigEndian16(Header[14], Header[15]) == 628
  {
  }

  /** The words of AiBlock sit at consecutive 4-byte offsets. */
  lemma {:induction false} AiBlockAt(ai: map<int, u32>, lo: int, hi: int, p: int)
    requires lo <= p < hi
    ensures |AiBlock(ai, lo, hi)| == 4 * (hi - lo)
    ensures AiBlock(ai, lo, hi)[4 * (p - lo) .. 4 * (p - lo) + 4] == LittleEndian32(WordAt(ai, p))
    decreases hi - lo
  {
    AiBlockLength(ai, lo, hi - 1);
    if p < hi - 1 {
      AiBlockAt(ai, lo, hi - 1, p);
      var prefix := AiBlock(ai, lo, hi - 1);
      assert AiBlock(ai, lo, hi) == prefix + LittleEndian32(WordAt(ai, hi - 1));
      assert AiBlock(ai, lo, hi)[4 * (p - lo) .. 4 * (p - lo) + 4] == prefix[4 * (p - lo) .. 4 * (p - lo) + 4];
    }
  }

  lemma {:induction false} AiBlockLength(ai: map<int, u32>, lo: int, hi: int)
    ensures |AiBlock(ai, lo, hi)| == if hi <= lo then 0 else 4 * (hi - lo)
    decreases hi - lo
  {
    if lo < hi {
      AiBlockLength(ai, lo, hi - 1);
    }
  }

  /**
   * Every simulated frame is 688 bytes: the header, 40 zero DI bytes, the
   * 628 AI bytes, then 01, the low byte of the sum of all 684 preceding
   * bytes, and 0D 0A.
   */
  lemma FrameLayout(ai: map<int, u32>)
    ensures var f := EncodedFrame(ai);
      && |f| == FrameLen == 688
      && f[..HeaderLen] == Header
      && f[HeaderLen .. HeaderLen + DiByteLen] == Zeros(DiByteLen)
      && f[56 .. 684] == AiBlock(ai, FirstAiIndex, LastAiIndex + 1)
      && f[684] == 0x01 && f[685] == ByteSum(f[..684]) % 0x100
      && f[686..] == EndMarker
  {
    FrameHeader(ai);
    FrameAiSection(ai);
    var body := FrameBody(ai);
    BodyParts(ai);
    SealedParts(body);
    PrefixSlice(Sealed(body), 684, 16, 56);
  }

  lemma FrameHeader(ai: map<int, u32>)
    ensures |EncodedFrame(ai)| == FrameLen
    ensures EncodedFrame(ai)[..HeaderLen] == Header
  {
    var body := FrameBody(ai);
    BodyParts(ai);
    SealedParts(body);
    PrefixSlice(Sealed(body), 684, 0, 16);
  }

  lemma FrameAiSection(ai: map<int, u32>)
    ensures |EncodedFrame(ai)| == FrameLen
    ensures EncodedFrame(ai)[56 .. 684] == AiBlock(ai, FirstAiIndex, LastAiIndex + 1)
  {
    var body := FrameBody(ai);
    BodyParts(ai);
    SealedParts(body);
    PrefixSlice(Sealed(body), 684, 56, 684);
  }

  /** The analog word for index p sits little-endian at offset 56 + 4 (p - 327). */
  lemma FrameWordAt(ai: map<int, u32>, p: int)
    requires FirstAiIndex <= p <= LastAiIndex
    ensures |EncodedFrame(ai)| == FrameLen
    ensures var k := 56 + 4 * (p - FirstAiIndex);
      EncodedFrame(ai)[k .. k + 4] == LittleEndian32(WordAt(ai, p))
  {
    FrameAiSection(ai);
    AiBlockAt(ai, FirstAiIndex, LastAiIndex + 1, p);
    SliceOfSlice(EncodedFrame(ai), 56, 684, 4 * (p - FirstAiIndex));
  }

  lemma SliceOfSlice(s: seq<byte>, lo: int, hi: int, k: int)
    requires 0 <= lo <= hi <= |s| && 0 <= k && lo + k + 4 <= hi
    ensures s[lo + k .. lo + k + 4] == s[lo .. hi][k .. k + 4]
  {
    var a, b := s[lo + k .. lo + k + 4], s[lo .. hi][k .. k + 4];
    assert |a| == 4 && |b| == 4;
    forall m | 0 <= m < 4
      ensures a[m] == b[m]
    {
      assert a[m] == s[lo + k + m];
      assert b[m] == s[lo .. hi][k + m];
    }
  }

  /** Keeping the running sum in a u16 does not change its low byte. */
  lemma LowByteOfWrappedSum(s: int)
    requires s >= 0
    ensures (s % 0x1_0000) % 0x100 == s % 0x100
  {
    var r, q := s % 0x1_0000, s / 0x1_0000;
    var t := 0x100 * q;
    assert s == 0x100 * t + r;
    var u, v := r / 0x100, r % 0x100;
    assert r == 0x100 * u + v && 0 <= v < 0x100;
    assert s == 0x100 * (t + u) + v;
  }

  /**
   * prepareResponse: writes the frame step by step into a buffer, the AI
   * words in a loop over indices 327..483 and the checksum in a second loop
   * that accumulates the byte sum in a wrapping u16.
   */
  method PrepareResponse(ai: map<int, u32>) returns (response: seq<byte>)
    ensures response == EncodedFrame(ai)
  {
    response := StartMarker;
    response := response + Zeros(10);
    response := response + BigEndian16(DiByteLen);
    response := response + BigEndian16(AiByteLen);
    HeaderFields();
    response := response + Zeros(DiByteLen);

    var aiBuf: seq<byte> := [];
    var i := FirstAiIndex;
    while i <= LastAiIndex
      invariant FirstAiIndex <= i <= LastAiIndex + 1
      invariant aiBuf == AiBlock(ai, FirstAiIndex, i)
    {
      aiBuf := aiBuf + LittleEndian32(WordAt(ai, i));
      i := i + 1;
    }
    response := response + aiBuf;

    var sum := Checksum(response);
    response := response + [0x01, sum % 0x100];
    response := response + EndMarker;
  }

  /** The checksum loop: the byte sum accumulated in a u16 that wraps around. */
  method Checksum(data: seq<byte>) returns (sum: u16)
    ensures sum % 0x100 == ByteSum(data) % 0x100
  {
    sum := 0;
    var k := 0;
    while k < |data|
      invariant 0 <= k <= |data|
      invariant sum == ByteSum(data[..k]) % 0x1_0000
    {
      assert data[..k + 1][..k] == data[..k];
      sum := (sum + data[k]) % 0x1_0000;
      k := k + 1;
    }
    assert data[..k] == data;
    LowByteOfWrappedSum(ByteSum(data));
  }

  /** handleConnection's check: at least six bytes, the first six equal to the poll command. */
  predicate AcceptsPoll(chunk: seq<byte>)
  {
    |chunk| >= |PollCommand| && chunk[..|PollCommand|] == PollCommand
  }

  /** Number of chunks in a sequence of reads that the simulator answers. */
  function AcceptedCount(chunks: seq<seq<byte>>): nat
  {
    if chunks == [] then 0
    else AcceptedCount(chunks[..|chunks| - 1]) + (if AcceptsPoll(chunks[|chunks| - 1]) then 1 else 0)
  }

  /**
   * The simulator's per-connection loop over the chunks it reads: an
   * invalid chunk is ignored (the connection stays open) and every valid
   * poll is answered with a fresh frame, whose analog values for the n-th
   * answer are values(n). The loop ends when the reads run out.
   */
  method HandleConnection(chunks: seq<seq<byte>>, values: nat -> map<int, u32>)
    returns (responses: seq<seq<byte>>)
    ensures |responses| == AcceptedCount(chunks)
    ensures forall n :: 0 <= n < |responses| ==> responses[n] == EncodedFrame(values(n))
  {
    responses := [];
    var i := 0;
    while i < |chunks|
      invariant 0 <= i <= |chunks|
      invariant |responses| == AcceptedCount(chunks[..i])
      invariant forall n :: 0 <= n < |responses| ==> responses[n] == EncodedFrame(values(n))
    {
      assert chunks[..i + 1][..i] == chunks[..i];
      var buf := chunks[i];
      if !AcceptsPoll(buf) {
        i := i + 1;
        continue;
      }
      var response := PrepareResponse(values(|responses|));
      responses := responses + [response];
      i := i + 1;
    }
    assert chunks[..i] == chunks;
  }

  /** The poll command, possibly followed by more bytes, is answered; anything shorter is not. */
  lemma PollAcceptance(extra: seq<byte>, short: seq<byte>)
    requires |short| < 6
    ensures AcceptsPoll(PollCommand + extra)
    ensures !AcceptsPoll(short)
  {
    assert (PollCommand + extra)[..6] == PollCommand;
  }
}
