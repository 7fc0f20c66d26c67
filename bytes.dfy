/**
  Fixed-width unsigned integers and the little-endian readers (Go's
  `binary.LittleEndian.Uint16` / `Uint32`) that the script classifier uses
  on instruction operands, together with the writers that invert them.
 */
module Bytes {
  newtype byte = x: int | 0 <= x < 0x100
  newtype uint16 = x: int | 0 <= x < 0x1_0000
  newtype uint32 = x: int | 0 <= x < 0x1_0000_0000

  /** `binary.LittleEndian.Uint16(p)`: reads the first two bytes, least significant first. */
  function Uint16LE(p: seq<byte>): uint16
    requires |p| >= 2
  {
    (p[0] as int + 0x100 * (p[1] as int)) as uint16
  }

  /** `binary.LittleEndian.Uint32(p)`: reads the first four bytes, least significant first. */
  function Uint32LE(p: seq<byte>): uint32
    requires |p| >= 4
  {
    (p[0] as int + 0x100 * (p[1] as int + 0x100 * (p[2] as int + 0x100 * (p[3] as int)))) as uint32
  }

  /** The two-byte little-endian encoding of `v`; reading it back gives `v`. */
  function LE16(v: uint16): (p: seq<byte>)
    ensures |p| == 2 && Uint16LE(p) == v
  {
    [(v % 0x100) as byte, (v / 0x100) as byte]
  }

  /** The four-byte little-endian encoding of `v`; reading it back gives `v`. */
  function LE32(v: uint32): (p: seq<byte>)
    ensures |p| == 4 && Uint32LE(p) == v
  {
    var x := v as int;
    var b0, r0 := x % 0x100, x / 0x100;
    var b1, r1 := r0 % 0x100, r0 / 0x100;
    var b2, b3 := r1 % 0x100, r1 / 0x100;
    assert x == b0 + 0x100 * (b1 + 0x100 * (b2 + 0x100 * b3));
    [b0 as byte, b1 as byte, b2 as byte, b3 as byte]
  }

  lemma SplitLowByte(lo: int, hi: int)
    requires 0 <= lo < 0x100 && 0 <= hi
    ensures (lo + 0x100 * hi) % 0x100 == lo && (lo + 0x100 * hi) / 0x100 == hi
  {
  }

  /** Every two-byte operand is the encoding of the value read from it. */
  lemma LE16OfUint16LE(p: seq<byte>)
    requires |p| == 2
    ensures LE16(Uint16LE(p)) == p
  {
    SplitLowByte(p[0] as int, p[1] as int);
  }

  /** Every four-byte operand is the encoding of the value read from it. */
  lemma LE32OfUint32LE(p: seq<byte>)
    requires |p| == 4
    ensures LE32(Uint32LE(p)) == p
  {
    var hi2 := p[2] as int + 0x100 * (p[3] as int);
    var hi1 := p[1] as int + 0x100 * hi2;
    SplitLowByte(p[0] as int, hi1);
    SplitLowByte(p[1] as int, hi2);
    SplitLowByte(p[2] as int, p[3] as int);
  }
}
