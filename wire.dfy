/** Machine-level vocabulary shared by the packet framer and the packet
    validators: bytes, unsigned 32-bit words with C++ wrap-around, signed
    16-bit audio samples, and the little-endian layout of a U32 word. */
module Wire {

  type Byte = x: int | 0 <= x < 0x100
  type U32 = x: int | 0 <= x < 0x1_0000_0000
  type I16 = x: int | -0x8000 <= x < 0x8000

  const Modulus32: int := 0x1_0000_0000
  const MaxU32: int := 0xFFFF_FFFF

  /** `a + b` computed in `U32`, which wraps modulo 2^32. */
  function Add32(a: U32, b: U32): (r: U32)
    ensures a + b < Modulus32 ==> r == a + b
    ensures a + b >= Modulus32 ==> r == a + b - Modulus32
  {
    (a + b) % Modulus32
  }

  /** The four bytes a `U32` occupies in memory, least significant first. */
  function EncodeU32(v: U32): (b: seq<Byte>)
  {
    [v % 0x100, (v / 0x100) % 0x100, (v / 0x100 / 0x100) % 0x100, v / 0x100 / 0x100 / 0x100]
  }

  /** The `U32` stored in four bytes, least significant first. */
  function DecodeU32(b: seq<Byte>): (v: U32)
    requires |b| == 4
  {
    b[0] as int + 0x100 * (b[1] as int + 0x100 * (b[2] as int + 0x100 * b[3] as int))
  }

  /** Reading back a stored word gives the word. */
  lemma DecodeEncodeU32(v: U32)
    ensures |EncodeU32(v)| == 4 && DecodeU32(EncodeU32(v)) == v
  {
    var q1 := v / 0x100;
    var q2 := q1 / 0x100;
    var q3 := q2 / 0x100;
    assert v == v % 0x100 + 0x100 * q1;
    assert q1 == q1 % 0x100 + 0x100 * q2;
    assert q2 == q2 % 0x100 + 0x100 * q3;
  }

  /** Every four-byte pattern is the layout of exactly the word it decodes to. */
  lemma EncodeDecodeU32(b: seq<Byte>)
    requires |b| == 4
    ensures EncodeU32(DecodeU32(b)) == b
  {
    var v := DecodeU32(b);
    var r2: int := b[2] as int + 0x100 * b[3] as int;
    var r1: int := b[1] as int + 0x100 * r2;
    assert v == b[0] as int + 0x100 * r1;
    assert v % 0x100 == b[0] && v / 0x100 == r1;
    assert r1 % 0x100 == b[1] && r1 / 0x100 == r2;
    assert r2 % 0x100 == b[2] && r2 / 0x100 == b[3];
  }

  /** A signed 16-bit sample stored as two bytes, least significant first. */
  function DecodeI16(lo: Byte, hi: Byte): (s: I16)
  {
    var u: int := lo as int + 0x100 * hi as int;
    if u >= 0x8000 then u - 0x1_0000 else u
  }
}
