/** Little-endian conversions between 32-bit integers and 4 bytes, as the
    driver uses them through Rust's `to_le_bytes` and `from_le_bytes` on
    `i32` and `u32` (src/lib.rs).  Two's complement is written out. */
module LeBytes {
  import opened Ints

  /** `u32::to_le_bytes`: least significant byte first. */
  function U32ToLe(v: U32): (b: seq<U8>)
    ensures |b| == 4
    ensures b[0] == v % 0x100 && b[3] == v / 0x100_0000
  {
    [v % 0x100, v / 0x100 % 0x100, v / 0x100 / 0x100 % 0x100, v / 0x100 / 0x100 / 0x100]
  }

  /** `u32::from_le_bytes`: byte `i` of the input is byte `i` of the
      value, counting from the least significant end. */
  function U32FromLe(b: seq<U8>): (v: U32)
    requires |b| == 4
    ensures v % 0x100 == b[0] && v / 0x100 % 0x100 == b[1]
    ensures v / 0x1_0000 % 0x100 == b[2] && v / 0x100_0000 == b[3]
  {
    var q2: int := b[2] as int + 0x100 * b[3] as int;
    var q1: int := b[1] as int + 0x100 * q2;
    SplitByte(b[0], q1);
    SplitByte(b[1], q2);
    SplitByte(b[2], b[3]);
    var v := b[0] as int + 0x100 * q1;
    assert v / 0x1_0000 == v / 0x100 / 0x100;
    assert v / 0x100_0000 == v / 0x100 / 0x100 / 0x100;
    v
  }

  /** The `u32` with the same bit pattern as an `i32` (`v as u32`). */
  function I32AsU32(v: I32): (u: U32)
  {
    if v < 0 then v + TWO_32 else v
  }

  /** The `i32` with the same bit pattern as a `u32` (`u as i32`). */
  function U32AsI32(u: U32): (v: I32)
  {
    if u < TWO_31 then u else u - TWO_32
  }

  /** `i32::to_le_bytes`: the two's-complement bit pattern, least
      significant byte first. */
  function I32ToLe(v: I32): (b: seq<U8>)
    ensures |b| == 4
    ensures U32FromLe(b) == v % TWO_32
    ensures b[3] >= 0x80 <==> v < 0
  {
    U32RoundTrip(I32AsU32(v));
    U32ToLe(I32AsU32(v))
  }

  /** `i32::from_le_bytes`. */
  function I32FromLe(b: seq<U8>): (v: I32)
    requires |b| == 4
    ensures v % TWO_32 == U32FromLe(b)
    ensures v < 0 <==> b[3] >= 0x80
  {
    U32AsI32(U32FromLe(b))
  }

  /** Splitting off the low byte of `lo + 0x100 * hi`. */
  lemma SplitByte(lo: int, hi: int)
    requires 0 <= lo < 0x100
    ensures (lo + 0x100 * hi) % 0x100 == lo
    ensures (lo + 0x100 * hi) / 0x100 == hi
  {
  }

  /** Decoding the encoding of a `u32` gives it back. */
  lemma U32RoundTrip(v: U32)
    ensures U32FromLe(U32ToLe(v)) == v
  {
    var q1 := v / 0x100;
    var q2 := q1 / 0x100;
    assert q2 == q2 % 0x100 + 0x100 * (q2 / 0x100);
    assert q1 == q1 % 0x100 + 0x100 * q2;
    assert v == v % 0x100 + 0x100 * q1;
  }

  /** Encoding the decoding of 4 bytes gives them back. */
  lemma U32BytesRoundTrip(b: seq<U8>)
    requires |b| == 4
    ensures U32ToLe(U32FromLe(b)) == b
  {
    var q2: int := b[2] as int + 0x100 * b[3] as int;
    var q1: int := b[1] as int + 0x100 * q2;
    SplitByte(b[0], q1);
    SplitByte(b[1], q2);
    SplitByte(b[2], b[3]);
  }

  /** The two reinterpretations of a bit pattern are inverse. */
  lemma SignRoundTrip(v: I32, u: U32)
    ensures U32AsI32(I32AsU32(v)) == v
    ensures I32AsU32(U32AsI32(u)) == u
  {
  }

  /** Decoding the encoding of an `i32` gives it back. */
  lemma I32RoundTrip(v: I32)
    ensures I32FromLe(I32ToLe(v)) == v
  {
    U32RoundTrip(I32AsU32(v));
    SignRoundTrip(v, 0);
  }

  /** Encoding the signed decoding of 4 bytes gives them back. */
  lemma I32BytesRoundTrip(b: seq<U8>)
    requires |b| == 4
    ensures I32ToLe(I32FromLe(b)) == b
  {
    U32BytesRoundTrip(b);
    SignRoundTrip(0, U32FromLe(b));
  }

  /** Concrete conversions: -5 encodes as FB FF FF FF (0xFFFF_FFFB), the
      bytes 10 00 00 00 decode to 16 signed and unsigned, and FF FF FF FF
      decodes to -1 as an `i32`. */
  lemma Examples()
    ensures I32ToLe(-5) == [0xFB, 0xFF, 0xFF, 0xFF]
    ensures U32FromLe([0x10, 0, 0, 0]) == 16 && I32FromLe([0x10, 0, 0, 0]) == 16
    ensures I32FromLe([0xFF, 0xFF, 0xFF, 0xFF]) == -1
  {
  }
}
