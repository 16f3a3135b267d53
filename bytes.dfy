/**
 * Fixed-width unsigned integers and the byte orders used on the sensor link:
 * big-endian u16 length fields and little-endian 32-bit analog words.
 */
module Bytes {

  type byte = x: int | 0 <= x < 0x100
  type u16 = x: int | 0 <= x < 0x1_0000
  type u32 = x: int | 0 <= x < 0x1_0000_0000

  /** Two bytes, most significant first (binary.BigEndian.PutUint16). */
  function BigEndian16(v: u16): (r: seq<byte>)
    ensures |r| == 2
  {
    [v / 0x100, v % 0x100]
  }

  /** binary.BigEndian.Uint16 of two bytes. */
  function ReadBigEndian16(b0: byte, b1: byte): u16
  {
    b0 as int * 0x100 + b1 as int
  }

  lemma BigEndian16RoundTrip(v: u16)
    ensures ReadBigEndian16(BigEndian16(v)[0], BigEndian16(v)[1]) == v
  {
  }

  /** Encoding the decoded pair gives the pair back. */
  lemma BigEndian16Injective(b0: byte, b1: byte)
    ensures BigEndian16(ReadBigEndian16(b0, b1)) == [b0, b1]
  {
  }

  /** Four bytes, least significant first (binary.LittleEndian.PutUint32). */
  function LittleEndian32(w: u32): (r: seq<byte>)
    ensures |r| == 4
  {
    [w % 0x100, (w / 0x100) % 0x100, (w / 0x1_0000) % 0x100, w / 0x100_0000]
  }

  /** binary.LittleEndian.Uint32 of four consecutive bytes. */
  function ReadLittleEndian32(b: seq<byte>): u32
    requires |b| == 4
  {
    b[0] as int + 0x100 * b[1] as int + 0x1_0000 * b[2] as int + 0x100_0000 * b[3] as int
  }

  /** Decoding the four bytes written for a word gives the word back. */
  lemma LittleEndian32RoundTrip(w: u32)
    ensures ReadLittleEndian32(LittleEndian32(w)) == w
  {
    var q1 := w / 0x100;
    var q2 := q1 / 0x100;
    assert w == w % 0x100 + 0x100 * q1;
    assert q1 == q1 % 0x100 + 0x100 * q2;
    assert w / 0x1_0000 == q2;
    assert q2 == q2 % 0x100 + 0x100 * (w / 0x100_0000);
  }

  /** Encoding the decoded bytes gives the bytes back: the encoding is a bijection. */
  lemma LittleEndian32Injective(b: seq<byte>)
    requires |b| == 4
    ensures LittleEndian32(ReadLittleEndian32(b)) == b
  {
    var w := ReadLittleEndian32(b);
    assert w % 0x100 == b[0];
    assert w / 0x100 == b[1] as int + 0x100 * b[2] as int + 0x1_0000 * b[3] as int;
    assert w / 0x1_0000 == b[2] as int + 0x100 * b[3] as int;
    assert w / 0x100_0000 == b[3];
  }
}
