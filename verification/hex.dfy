/** `base16ct::lower`: bytes as lowercase hexadecimal, two digits per byte,
    high nibble first, and the strict reading back of such text. */
module Hex {
  import opened Wrappers
  import opened Bytes

  predicate IsLowerHexDigit(c: char) {
    ('0' <= c <= '9') || ('a' <= c <= 'f')
  }

  function HexChar(v: int): (c: char)
    requires 0 <= v < 16
    ensures IsLowerHexDigit(c)
  {
    if v < 10 then ('0' as int + v) as char else ('a' as int + v - 10) as char
  }

  /** The value of a lowercase hexadecimal digit. */
  function HexValue(c: char): (r: Option<int>)
    ensures r.Some? <==> IsLowerHexDigit(c)
    ensures r.Some? ==> 0 <= r.value < 16 && HexChar(r.value) == c
  {
    if '0' <= c <= '9' then Some(c as int - '0' as int)
    else if 'a' <= c <= 'f' then Some(c as int - 'a' as int + 10)
    else None
  }

  lemma HexValueHexChar(v: int)
    requires 0 <= v < 16
    ensures HexValue(HexChar(v)) == Some(v)
  {
  }

  /** `encode_string`: two lowercase digits per byte. */
  function LowerHex(b: Bytes): (r: string)
    ensures |r| == 2 * |b|
    ensures forall i :: 0 <= i < |r| ==> IsLowerHexDigit(r[i])
  {
    if |b| == 0 then [] else [HexChar(b[0] / 16), HexChar(b[0] % 16)] + LowerHex(b[1..])
  }

  /** Reading lowercase hexadecimal text back into bytes. */
  function ParseHex(s: string): (r: Option<Bytes>)
    ensures r.Some? ==> 2 * |r.value| == |s|
    decreases |s|
  {
    if |s| == 0 then Some([])
    else if |s| == 1 then None
    else
      match (HexValue(s[0]), HexValue(s[1]), ParseHex(s[2..]))
      case (Some(hi), Some(lo), Some(rest)) => Some([hi * 16 + lo] + rest)
      case _ => None
  }

  /** The hexadecimal text determines the bytes it was written from. */
  lemma {:induction false} ParseLowerHex(b: Bytes)
    ensures ParseHex(LowerHex(b)) == Some(b)
  {
    if |b| > 0 {
      var s := LowerHex(b);
      HexValueHexChar(b[0] / 16);
      HexValueHexChar(b[0] % 16);
      assert s[2..] == LowerHex(b[1..]);
      ParseLowerHex(b[1..]);
      assert b == [b[0]] + b[1..];
    }
  }

  /** Lowercase hexadecimal text is exactly what `LowerHex` writes. */
  lemma {:induction false} LowerHexParse(s: string)
    requires ParseHex(s).Some?
    ensures LowerHex(ParseHex(s).value) == s
    decreases |s|
  {
    if |s| > 0 {
      var hi, lo := HexValue(s[0]).value, HexValue(s[1]).value;
      var b := ParseHex(s).value;
      assert b[0] / 16 == hi && b[0] % 16 == lo;
      assert b[1..] == ParseHex(s[2..]).value;
      LowerHexParse(s[2..]);
      assert s == [s[0], s[1]] + s[2..];
    }
  }
}
