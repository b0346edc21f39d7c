/** The small wire codecs: big-endian 16-bit decoding, the "compress"
    conversion from a 10-bit to an 8-bit range, and the little-endian
    assembly of the 32-bit pattern of an IEEE 754 binary32 value. Shifts
    and bitwise or of disjoint bit ranges are written as the equivalent
    multiplications and additions. */
module Codecs {
  import opened Common

  /** An unsigned 32-bit value (Swift's UInt32). */
  type uint32 = w: int | 0 <= w < 0x1_0000_0000

  /** `UInt16(bigEndianBytes:offset:)`: the byte at the offset is the high
      byte, the next one the low byte. Out-of-range offsets trap in Swift. */
  function BigEndianUInt16(bytes: seq<byte>, i: nat := 0): (v: uint16)
    requires i + 1 < |bytes|
    ensures v / 256 == bytes[i] && v % 256 == bytes[i + 1]
  {
    bytes[i] as int * 256 + bytes[i + 1]
  }

  /** The two big-endian bytes of a 16-bit value. */
  function BigEndianBytes(v: uint16): (bs: seq<byte>)
    ensures |bs| == 2
  {
    [v / 256, v % 256]
  }

  /** Decoding the big-endian bytes of v gives v back, and encoding the
      decoded value gives the two bytes back. */
  lemma BigEndianRoundTrip(v: uint16, bytes: seq<byte>)
    requires |bytes| >= 2
    ensures BigEndianUInt16(BigEndianBytes(v)) == v
    ensures BigEndianBytes(BigEndianUInt16(bytes)) == bytes[..2]
  {
  }

  /** Only the bytes at i and i + 1 take part in the decoding. */
  lemma BigEndianReadsOnlyTwoBytes(a: seq<byte>, b: seq<byte>, i: nat)
    requires i + 1 < |a| && i + 1 < |b|
    requires a[i] == b[i] && a[i + 1] == b[i + 1]
    ensures BigEndianUInt16(a, i) == BigEndianUInt16(b, i)
  {
  }

  /** `UInt8(compressFromRange1024:)`: the range is shifted left by two bits
      within 16 bits and then truncated to its low 8 bits. */
  function CompressFromRange1024(range: uint16): (c: byte)
    ensures c % 4 == 0
    ensures c == (range % 64) * 4
  {
    (range * 4) % 0x1_0000 % 256
  }

  /** The result depends only on the range modulo 64. */
  lemma CompressDependsOnlyOnRangeMod64(r1: uint16, r2: uint16)
    requires r1 % 64 == r2 % 64
    ensures CompressFromRange1024(r1) == CompressFromRange1024(r2)
  {
  }

  /** The conversion does not divide by four as its documentation says:
      within 0..1023 it agrees with range / 4 only at 0, 273, 546 and 819,
      and 4, which should give 1, gives 16. */
  lemma CompressIsNotDivisionByFour(range: uint16)
    requires range < 1024
    ensures CompressFromRange1024(range) == range / 4 <==> range in {0, 273, 546, 819}
    ensures CompressFromRange1024(4) == 16 != 4 / 4
  {
    var q, m := range / 64, range % 64;
    var a, b := m / 4, m % 4;
    assert range == 64 * q + 4 * a + b;
    assert range / 4 == 16 * q + a;
    assert CompressFromRange1024(range) == 16 * a + 4 * b;
    if CompressFromRange1024(range) == range / 4 {
      // 15a + 4b = 16q, i.e. 4b - a = 16(q - a); as -15 <= 4b - a <= 12
      // this forces q = a = 4b, so range = 64q + 4a + b = 273b.
      assert 4 * b - a == 16 * (q - a);
      assert q == a && a == 4 * b;
      assert range == 273 * b;
    }
    if range == 273 {
      assert CompressFromRange1024(273) == 68 == 273 / 4;
    } else if range == 546 {
      assert CompressFromRange1024(546) == 136 == 546 / 4;
    } else if range == 819 {
      assert CompressFromRange1024(819) == 204 == 819 / 4;
    }
  }

  /** Splitting off the least significant byte of x + 256 * y. */
  lemma LowByte(x: byte, y: int)
    ensures (x + 256 * y) % 256 == x && (x + 256 * y) / 256 == y
  {
  }

  /** `Float(ieee754LittleEndianBytes:offset:)`, integer part: the 32-bit
      pattern with the byte at the offset as its least significant byte and
      each following byte 8 bits higher. */
  function LittleEndianBitPattern(fbs: seq<byte>, i: nat := 0): (w: uint32)
    requires i + 3 < |fbs|
    ensures w % 256 == fbs[i]
    ensures w / 256 % 256 == fbs[i + 1]
    ensures w / 256 / 256 % 256 == fbs[i + 2]
    ensures w / 256 / 256 / 256 == fbs[i + 3]
  {
    var hi2 := fbs[i + 2] as int + 256 * fbs[i + 3] as int;
    var hi1 := fbs[i + 1] as int + 256 * hi2;
    LowByte(fbs[i + 2], fbs[i + 3]);
    LowByte(fbs[i + 1], hi2);
    LowByte(fbs[i], hi1);
    fbs[i] as int + 256 * hi1
  }

  /** The four little-endian bytes of a 32-bit word. */
  function LittleEndianBytes(w: uint32): (bs: seq<byte>)
    ensures |bs| == 4
  {
    [w % 256, w / 256 % 256, w / 256 / 256 % 256, w / 256 / 256 / 256]
  }

  /** Splitting a word into its little-endian bytes and assembling them
      gives the word back, and assembling then splitting gives the bytes. */
  lemma LittleEndianRoundTrip(w: uint32, fbs: seq<byte>)
    requires |fbs| >= 4
    ensures LittleEndianBitPattern(LittleEndianBytes(w)) == w
    ensures LittleEndianBytes(LittleEndianBitPattern(fbs)) == fbs[..4]
  {
    var bs := LittleEndianBytes(w);
    assert w == bs[0] as int + 256 * (w / 256);
    assert w / 256 == bs[1] as int + 256 * (w / 256 / 256);
    assert w / 256 / 256 == bs[2] as int + 256 * bs[3] as int;
  }

  /** Only the bytes at i .. i + 3 take part in the assembly. */
  lemma LittleEndianReadsOnlyFourBytes(a: seq<byte>, b: seq<byte>, i: nat)
    requires i + 3 < |a| && i + 3 < |b|
    requires a[i..i + 4] == b[i..i + 4]
    ensures LittleEndianBitPattern(a, i) == LittleEndianBitPattern(b, i)
  {
    assert a[i] == a[i..i + 4][0] && a[i + 1] == a[i..i + 4][1];
    assert a[i + 2] == a[i..i + 4][2] && a[i + 3] == a[i..i + 4][3];
  }
}
