/** UTF-8 (RFC 3629) as Rust's `str::as_bytes` and `str::from_utf8` use it:
    encoding of Unicode scalar values, and strict decoding that rejects
    overlong forms, surrogates and values beyond U+10FFFF. */
module Utf8 {
  import opened Wrappers
  import opened Bytes

  predicate IsContinuation(b: byte) {
    0x80 <= b < 0xC0
  }

  /** The one to four bytes of one scalar value. */
  function EncodeChar(c: char): (r: Bytes)
    ensures 1 <= |r| <= 4
  {
    var v := c as int;
    if v < 0x80 then [v]
    else if v < 0x800 then [0xC0 + v / 64, 0x80 + v % 64]
    else if v < 0x1_0000 then [0xE0 + v / 4096, 0x80 + (v / 64) % 64, 0x80 + v % 64]
    else [0xF0 + v / 0x4_0000, 0x80 + (v / 4096) % 64, 0x80 + (v / 64) % 64, 0x80 + v % 64]
  }

  /** The bytes of a string. */
  function Encode(s: string): (r: Bytes)
    ensures |s| <= |r| <= 4 * |s|
  {
    if |s| == 0 then [] else EncodeChar(s[0]) + Encode(s[1..])
  }

  predicate IsScalar(v: int) {
    (0 <= v < 0xD800) || (0xE000 <= v < 0x11_0000)
  }

  /** The scalar value at the front of `b`, and the number of bytes it
      takes; `None` when the front is not a well-formed sequence. */
  function DecodeChar(b: Bytes): (r: Option<(char, nat)>)
    requires |b| > 0
    ensures r.Some? ==> 1 <= r.value.1 <= |b| && r.value.1 <= 4
  {
    var b0 := b[0] as int;
    if b0 < 0x80 then Some((b0 as char, 1))
    else if 0xC2 <= b0 < 0xE0 then
      if |b| >= 2 && IsContinuation(b[1]) then
        Some((((b0 - 0xC0) * 64 + (b[1] as int - 0x80)) as char, 2))
      else None
    else if 0xE0 <= b0 < 0xF0 then
      if |b| >= 3 && IsContinuation(b[1]) && IsContinuation(b[2]) then
        var v := ((b0 - 0xE0) * 64 + (b[1] as int - 0x80)) * 64 + (b[2] as int - 0x80);
        if 0x800 <= v && IsScalar(v) then Some((v as char, 3)) else None
      else None
    else if 0xF0 <= b0 < 0xF5 then
      if |b| >= 4 && IsContinuation(b[1]) && IsContinuation(b[2]) && IsContinuation(b[3]) then
        var v := (((b0 - 0xF0) * 64 + (b[1] as int - 0x80)) * 64 + (b[2] as int - 0x80)) * 64 + (b[3] as int - 0x80);
        if 0x1_0000 <= v < 0x11_0000 then Some((v as char, 4)) else None
      else None
    else None
  }

  /** `str::from_utf8`: the string the bytes spell, or `None` when they are
      not well-formed UTF-8. */
  function Decode(b: Bytes): (r: Option<string>)
    decreases |b|
  {
    if |b| == 0 then Some([])
    else
      match DecodeChar(b)
      case None => None
      case Some((c, n)) =>
        match Decode(b[n..])
        case None => None
        case Some(rest) => Some([c] + rest)
  }

  lemma DecodeEncodeTwo(v: int, t: Bytes)
    requires 0x80 <= v < 0x800
    ensures DecodeChar([0xC0 + v / 64, 0x80 + v % 64] + t) == Some((v as char, 2))
  {
  }

  lemma DecodeEncodeThree(v: int, t: Bytes)
    requires 0x800 <= v < 0x1_0000 && IsScalar(v)
    ensures DecodeChar([0xE0 + v / 4096, 0x80 + (v / 64) % 64, 0x80 + v % 64] + t) == Some((v as char, 3))
  {
    assert ((v / 4096) * 64 + (v / 64) % 64) * 64 + v % 64 == v;
  }

  lemma DecodeEncodeFour(v: int, t: Bytes)
    requires 0x1_0000 <= v < 0x11_0000
    ensures DecodeChar([0xF0 + v / 0x4_0000, 0x80 + (v / 4096) % 64, 0x80 + (v / 64) % 64, 0x80 + v % 64] + t)
         == Some((v as char, 4))
  {
    assert (((v / 0x4_0000) * 64 + (v / 4096) % 64) * 64 + (v / 64) % 64) * 64 + v % 64 == v;
  }

  lemma DecodeEncodeChar(c: char, t: Bytes)
    ensures DecodeChar(EncodeChar(c) + t) == Some((c, |EncodeChar(c)|))
  {
    var v := c as int;
    if v < 0x80 {
    } else if v < 0x800 {
      DecodeEncodeTwo(v, t);
    } else if v < 0x1_0000 {
      DecodeEncodeThree(v, t);
    } else {
      DecodeEncodeFour(v, t);
    }
  }

  lemma DecodeEncodeStep(s: string, rest: Bytes)
    requires |s| > 0
    requires Decode(rest) == Some(s[1..])
    ensures Decode(EncodeChar(s[0]) + rest) == Some(s)
  {
    var e := EncodeChar(s[0]);
    DecodeEncodeChar(s[0], rest);
    assert (e + rest)[|e|..] == rest;
    assert [s[0]] + s[1..] == s;
  }

  /** Decoding undoes encoding, for every string. */
  lemma {:induction false} DecodeEncode(s: string)
    ensures Decode(Encode(s)) == Some(s)
    decreases |s|
  {
    if |s| > 0 {
      DecodeEncode(s[1..]);
      DecodeEncodeStep(s, Encode(s[1..]));
    }
  }

  lemma EncodeDecodeChar(b: Bytes)
    requires |b| > 0 && DecodeChar(b).Some?
    ensures EncodeChar(DecodeChar(b).value.0) == b[..DecodeChar(b).value.1]
  {
    var b0 := b[0] as int;
    if 0xC2 <= b0 < 0xE0 {
      EncodeDecodeTwoBytes(b0, b[1] as int);
    } else if 0xE0 <= b0 < 0xF0 {
      EncodeDecodeThreeBytes(b0, b[1] as int, b[2] as int);
    } else if 0xF0 <= b0 {
      EncodeDecodeFourBytes(b0, b[1] as int, b[2] as int, b[3] as int);
    }
  }

  lemma EncodeDecodeTwoBytes(b0: int, b1: int)
    requires 0xC2 <= b0 < 0xE0 && 0x80 <= b1 < 0xC0
    ensures var v := (b0 - 0xC0) * 64 + (b1 - 0x80); 0xC0 + v / 64 == b0 && 0x80 + v % 64 == b1
  {
  }

  lemma EncodeDecodeThreeBytes(b0: int, b1: int, b2: int)
    requires 0xE0 <= b0 < 0xF0 && 0x80 <= b1 < 0xC0 && 0x80 <= b2 < 0xC0
    ensures var v := ((b0 - 0xE0) * 64 + (b1 - 0x80)) * 64 + (b2 - 0x80);
      0xE0 + v / 4096 == b0 && 0x80 + (v / 64) % 64 == b1 && 0x80 + v % 64 == b2
  {
  }

  lemma EncodeDecodeFourBytes(b0: int, b1: int, b2: int, b3: int)
    requires 0xF0 <= b0 < 0xF5 && 0x80 <= b1 < 0xC0 && 0x80 <= b2 < 0xC0 && 0x80 <= b3 < 0xC0
    ensures var v := (((b0 - 0xF0) * 64 + (b1 - 0x80)) * 64 + (b2 - 0x80)) * 64 + (b3 - 0x80);
      0xF0 + v / 0x4_0000 == b0 && 0x80 + (v / 4096) % 64 == b1 && 0x80 + (v / 64) % 64 == b2 && 0x80 + v % 64 == b3
  {
  }

  lemma EncodeDecodeStep(b: Bytes, c: char, n: nat, rest: string)
    requires |b| > 0 && DecodeChar(b) == Some((c, n))
    requires n <= |b| && Encode(rest) == b[n..]
    ensures Encode([c] + rest) == b
  {
    EncodeDecodeChar(b);
    assert ([c] + rest)[1..] == rest;
    assert b[..n] + b[n..] == b;
  }

  /** Well-formed UTF-8 has one decoding, and it encodes back to the same
      bytes. */
  lemma {:induction false} EncodeDecode(b: Bytes)
    requires Decode(b).Some?
    ensures Encode(Decode(b).value) == b
    decreases |b|
  {
    if |b| > 0 {
      var (c, n) := DecodeChar(b).value;
      EncodeDecode(b[n..]);
      EncodeDecodeStep(b, c, n, Decode(b[n..]).value);
    }
  }

  /** `Decode` and `Encode` are inverse bijections between strings and
      well-formed UTF-8. */
  lemma DecodeIsEncodeInverse(b: Bytes, s: string)
    ensures Decode(b) == Some(s) <==> b == Encode(s)
  {
    if Decode(b) == Some(s) {
      EncodeDecode(b);
    }
    if b == Encode(s) {
      DecodeEncode(s);
    }
  }
}
