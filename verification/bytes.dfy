/** Fixed-width integers and their big-endian byte encodings, with the
    wrapping casts (`as u8`, `as i8`, `as u16`) written out. */
module Bytes {

  type byte = x: int | 0 <= x < 256
  type u16 = x: int | 0 <= x < 0x1_0000
  type u32 = x: int | 0 <= x < 0x1_0000_0000
  type i8 = x: int | -0x80 <= x < 0x80
  type i16 = x: int | -0x8000 <= x < 0x8000
  type i32 = x: int | -0x8000_0000 <= x < 0x8000_0000
  type u64 = x: int | 0 <= x < 0x1_0000_0000_0000_0000
  type i64 = x: int | -0x8000_0000_0000_0000 <= x < 0x8000_0000_0000_0000

  type Bytes = seq<byte>

  /** `x as u8`: keeps the low eight bits. */
  function AsU8(x: int): (r: byte)
    ensures 0 <= x < 256 ==> r == x
    ensures (x - r) % 256 == 0
  {
    x % 256
  }

  /** `x as i8`: keeps the low eight bits, read as two's complement. */
  function AsI8(x: int): (r: i8)
    ensures -128 <= x < 128 ==> r == x
    ensures (x - r) % 256 == 0
  {
    var low := x % 256;
    if low < 128 then low else low - 256
  }

  /** `x as u64` from a signed value: keeps the low 64 bits. */
  function AsU64(x: int): (r: u64)
    ensures 0 <= x < 0x1_0000_0000_0000_0000 ==> r == x
    ensures (x - r) % 0x1_0000_0000_0000_0000 == 0
  {
    x % 0x1_0000_0000_0000_0000
  }

  /** `x as u16`: keeps the low sixteen bits. */
  function AsU16(x: int): (r: u16)
    ensures 0 <= x < 0x1_0000 ==> r == x
    ensures (x - r) % 0x1_0000 == 0
  {
    x % 0x1_0000
  }

  /** `u16::to_be_bytes`. */
  function U16BE(x: u16): (r: Bytes)
    ensures |r| == 2 && (r[0] as int) * 256 + r[1] == x
  {
    [x / 256, x % 256]
  }

  /** `u32::to_be_bytes`. */
  function U32BE(x: u32): (r: Bytes)
    ensures |r| == 4
    ensures FromBE(r) == x
  {
    var r := [x / 0x100_0000, (x / 0x1_0000) % 256, (x / 256) % 256, x % 256];
    FromBE4Bound(r);
    r
  }

  /** Unsigned big-endian value of a byte string (`u32::from_be_bytes` for four bytes). */
  function FromBE(s: Bytes): (v: nat)
  {
    if s == [] then 0 else FromBE(s[..|s| - 1]) * 256 + s[|s| - 1]
  }

  /** `i32::to_be_bytes`: two's complement, most significant byte first. */
  function I32BE(x: i32): (r: Bytes)
    ensures |r| == 4
    ensures BEToI32(r) == x
  {
    U32BE(if x < 0 then x + 0x1_0000_0000 else x)
  }

  /** `i32::from_be_bytes`. */
  function BEToI32(s: Bytes): (v: i32)
    requires |s| == 4
    ensures v >= 0 <==> s[0] < 128
  {
    FromBE4Bound(s);
    var u := FromBE(s);
    if u < 0x8000_0000 then u else u - 0x1_0000_0000
  }

  lemma FromBE4Bound(s: Bytes)
    requires |s| == 4
    ensures FromBE(s) == (((s[0] as int) * 256 + s[1]) * 256 + s[2]) * 256 + s[3]
    ensures FromBE(s) < 0x1_0000_0000
    ensures FromBE(s) < 0x8000_0000 <==> s[0] < 128
  {
    assert s[..3][..2][..1] == [s[0]];
    assert FromBE([s[0]]) == s[0] by { assert [s[0]][..0] == []; }
    assert FromBE(s[..2]) == (s[0] as int) * 256 + s[1] by { assert s[..2][..1] == [s[0]]; }
    assert FromBE(s[..3]) == ((s[0] as int) * 256 + s[1]) * 256 + s[2] by { assert s[..3][..2] == s[..2]; }
    assert s[..4] == s;
  }
}
