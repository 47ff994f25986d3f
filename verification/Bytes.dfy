/** Bytes, and `struct.pack` of 32-bit integers. */
module Bytes {
  newtype Byte = x: int | 0 <= x < 256

  // ----- struct "i" -----

  predicate FitsInt32(v: int) {
    -0x8000_0000 <= v < 0x8000_0000
  }

  /** Little-endian two's complement, as `struct.pack("i", v)` on the platforms in use. */
  function PackInt(v: int): (r: seq<Byte>)
    requires FitsInt32(v)
    ensures |r| == 4
  {
    var u := if v < 0 then v + 0x1_0000_0000 else v;
    [(u % 256) as Byte, (u / 256 % 256) as Byte, (u / 0x1_0000 % 256) as Byte, (u / 0x100_0000) as Byte]
  }

  function UnpackInt(s: seq<Byte>): (v: int)
    requires |s| == 4
    ensures FitsInt32(v)
  {
    var u := s[0] as int + 256 * s[1] as int + 0x1_0000 * s[2] as int + 0x100_0000 * s[3] as int;
    if u >= 0x8000_0000 then u - 0x1_0000_0000 else u
  }

  lemma PackedIntRoundTrip(v: int)
    requires FitsInt32(v)
    ensures UnpackInt(PackInt(v)) == v
  {
    var u := if v < 0 then v + 0x1_0000_0000 else v;
    assert u / 0x1_0000 == (u / 256) / 256 && u / 0x100_0000 == (u / 0x1_0000) / 256;
  }

  /** The four bytes from i on, least significant first, in two's complement. */
  function IntAt(s: seq<Byte>, i: nat): int
    requires i + 4 <= |s|
  {
    s[i] as int + 256 * s[i + 1] as int + 0x1_0000 * s[i + 2] as int + 0x100_0000 * s[i + 3] as int
    - if s[i + 3] >= 128 then 0x1_0000_0000 else 0
  }

  lemma IntRead(s: seq<Byte>, i: nat)
    requires i + 4 <= |s|
    ensures UnpackInt(s[i..i + 4]) == IntAt(s, i)
  {
    var t := s[i..i + 4];
    assert t[0] == s[i] && t[1] == s[i + 1] && t[2] == s[i + 2] && t[3] == s[i + 3];
  }
}
