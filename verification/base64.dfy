/** Standard base64 with canonical padding (section 4 of RFC 4648), the
    engine `general_purpose::STANDARD` uses for both directions. */
module Base64 {
  import opened Wrappers
  import opened Bytes

  type sextet = x: int | 0 <= x < 64

  predicate IsBase64Char(c: char) {
    ('A' <= c <= 'Z') || ('a' <= c <= 'z') || ('0' <= c <= '9') || c == '+' || c == '/'
  }

  /** The alphabet of section 4 of RFC 4648. */
  function CharOf(v: sextet): (c: char)
    ensures IsBase64Char(c)
  {
    if v < 26 then ('A' as int + v) as char
    else if v < 52 then ('a' as int + (v - 26)) as char
    else if v < 62 then ('0' as int + (v - 52)) as char
    else if v == 62 then '+'
    else '/'
  }

  function ValueOf(c: char): (v: sextet)
    requires IsBase64Char(c)
    ensures CharOf(v) == c
  {
    if 'A' <= c <= 'Z' then c as int - 'A' as int
    else if 'a' <= c <= 'z' then c as int - 'a' as int + 26
    else if '0' <= c <= '9' then c as int - '0' as int + 52
    else if c == '+' then 62
    else 63
  }

  lemma ValueOfCharOf(v: sextet)
    ensures ValueOf(CharOf(v)) == v
  {
  }

  /** Three bytes as four characters. */
  function EncodeBlock(b0: byte, b1: byte, b2: byte): (s: string)
    ensures |s| == 4
  {
    [CharOf(b0 / 4), CharOf((b0 % 4) * 16 + b1 / 16), CharOf((b1 % 16) * 4 + b2 / 64), CharOf(b2 % 64)]
  }

  /** The final one or two bytes, padded with `=`. */
  function EncodeTail(b: Bytes): (s: string)
    requires |b| < 3
    ensures |s| == if |b| == 0 then 0 else 4
  {
    if |b| == 0 then ""
    else if |b| == 1 then [CharOf(b[0] / 4), CharOf((b[0] % 4) * 16), '=', '=']
    else [CharOf(b[0] / 4), CharOf((b[0] % 4) * 16 + b[1] / 16), CharOf((b[1] % 16) * 4), '=']
  }

  /** `STANDARD.encode`: every full group of three bytes gives four
      characters; a final group of one or two bytes is padded with `=`. */
  function Encode(b: Bytes): (s: string)
    ensures |s| % 4 == 0
    ensures |s| == 0 <==> |b| == 0
    decreases |b|
  {
    if |b| < 3 then EncodeTail(b)
    else
      var rest := Encode(b[3..]);
      assert |EncodeBlock(b[0], b[1], b[2]) + rest| == 4 + |rest|;
      EncodeBlock(b[0], b[1], b[2]) + rest
  }

  /** Four alphabet characters as three bytes. */
  function DecodeBlock(q: string): (r: Option<Bytes>)
    requires |q| == 4
    ensures r.Some? ==> |r.value| == 3
  {
    if !(IsBase64Char(q[0]) && IsBase64Char(q[1]) && IsBase64Char(q[2]) && IsBase64Char(q[3])) then None
    else
      var v0: int, v1: int, v2: int, v3: int := ValueOf(q[0]), ValueOf(q[1]), ValueOf(q[2]), ValueOf(q[3]);
      Some([v0 * 4 + v1 / 16, (v1 % 16) * 16 + v2 / 4, (v2 % 4) * 64 + v3])
  }

  /** The last group: a full block, or two characters and `==`, or three
      characters and `=`. The bits the padding leaves unused must be zero. */
  function DecodeLast(q: string): (r: Option<Bytes>)
    requires |q| == 4
    ensures r.Some? ==> 1 <= |r.value| <= 3
  {
    if q[2] == '=' && q[3] == '=' then
      if IsBase64Char(q[0]) && IsBase64Char(q[1]) && ValueOf(q[1]) % 16 == 0 then
        Some([ValueOf(q[0]) * 4 + ValueOf(q[1]) / 16])
      else None
    else if q[3] == '=' then
      if IsBase64Char(q[0]) && IsBase64Char(q[1]) && IsBase64Char(q[2]) && ValueOf(q[2]) % 4 == 0 then
        var v0, v1, v2 := ValueOf(q[0]), ValueOf(q[1]), ValueOf(q[2]);
        Some([v0 * 4 + v1 / 16, (v1 % 16) * 16 + v2 / 4])
      else None
    else DecodeBlock(q)
  }

  /** `STANDARD.decode`: `None` for a length that is not a multiple of four,
      a character outside the alphabet, misplaced padding, or non-zero
      trailing bits. */
  function Decode(s: string): (r: Option<Bytes>)
    decreases |s|
  {
    if |s| == 0 then Some([])
    else if |s| % 4 != 0 then None
    else if |s| == 4 then DecodeLast(s)
    else
      var head :- DecodeBlock(s[..4]);
      var tail :- Decode(s[4..]);
      Some(head + tail)
  }

  lemma DecodeLastEncodeBlock(b0: byte, b1: byte, b2: byte)
    ensures DecodeLast(EncodeBlock(b0, b1, b2)) == Some([b0, b1, b2])
  {
    var q := EncodeBlock(b0, b1, b2);
    DecodeEncodeBlock(b0, b1, b2);
    assert IsBase64Char(q[2]) && IsBase64Char(q[3]);
    assert DecodeLast(q) == DecodeBlock(q);
  }

  lemma DecodeEncodeBlock(b0: byte, b1: byte, b2: byte)
    ensures DecodeBlock(EncodeBlock(b0, b1, b2)) == Some([b0, b1, b2])
  {
    var v0, v1, v2, v3 := b0 / 4, (b0 % 4) * 16 + b1 / 16, (b1 % 16) * 4 + b2 / 64, b2 % 64;
    ValueOfCharOf(v0);
    ValueOfCharOf(v1);
    ValueOfCharOf(v2);
    ValueOfCharOf(v3);
    SplitBlock(b0, b1, b2);
    var q := EncodeBlock(b0, b1, b2);
    assert q == [CharOf(v0), CharOf(v1), CharOf(v2), CharOf(v3)];
    assert ValueOf(q[0]) == v0 && ValueOf(q[1]) == v1 && ValueOf(q[2]) == v2 && ValueOf(q[3]) == v3;
  }

  /** The value arithmetic of one block in the encoding direction. */
  lemma SplitBlock(b0: byte, b1: byte, b2: byte)
    ensures var v0, v1, v2, v3 := b0 / 4, (b0 % 4) * 16 + b1 / 16, (b1 % 16) * 4 + b2 / 64, b2 % 64;
      v0 * 4 + v1 / 16 == b0 && (v1 % 16) * 16 + v2 / 4 == b1 && (v2 % 4) * 64 + v3 == b2
  {
    Pack16(b0 % 4, b1 / 16);
    Pack4(b1 % 16, b2 / 64);
  }

  lemma Pack16(hi: int, lo: int)
    requires 0 <= lo < 16
    ensures (hi * 16 + lo) / 16 == hi && (hi * 16 + lo) % 16 == lo
  {
  }

  lemma Pack4(hi: int, lo: int)
    requires 0 <= lo < 4
    ensures (hi * 4 + lo) / 4 == hi && (hi * 4 + lo) % 4 == lo
  {
  }

  lemma DecodeEncodeEmpty(b: Bytes)
    requires |b| == 0
    ensures Decode(Encode(b)) == Some(b)
  {
    assert Encode(b) == "";
  }

  lemma DecodeEncodeOne(b: Bytes)
    requires |b| == 1
    ensures Decode(Encode(b)) == Some(b)
  {
    var b0 := b[0];
    var v0, v1 := b0 / 4, (b0 % 4) * 16;
    EncodeOneChars(b);
    var q := [CharOf(v0), CharOf(v1), '=', '='];
    assert Encode(b) == q;
    SplitOne(b0);
    DecodeCharsOne(v0, v1);
    assert Decode(q) == Some([v0 * 4 + v1 / 16]);
    assert [v0 * 4 + v1 / 16] == b;
    assert Decode(q) == Some(b);
  }

  lemma EncodeOneChars(b: Bytes)
    requires |b| == 1
    ensures Encode(b) == [CharOf(b[0] / 4), CharOf((b[0] % 4) * 16), '=', '=']
  {
    assert Encode(b) == EncodeTail(b);
  }

  lemma DecodeCharsOne(v0: sextet, v1: sextet)
    requires v1 % 16 == 0
    ensures Decode([CharOf(v0), CharOf(v1), '=', '=']) == Some([v0 * 4 + v1 / 16])
  {
    ValueOfCharOf(v0);
    ValueOfCharOf(v1);
    DecodeLastOne(CharOf(v0), CharOf(v1));
  }

  /** Two characters and `==` decode to one byte when the second
      character's low four bits are zero. */
  lemma DecodeLastOne(c0: char, c1: char)
    requires IsBase64Char(c0) && IsBase64Char(c1) && ValueOf(c1) % 16 == 0
    ensures Decode([c0, c1, '=', '=']) == Some([ValueOf(c0) * 4 + ValueOf(c1) / 16])
  {
    var q := [c0, c1, '=', '='];
    assert q[2] == '=' && q[3] == '=';
    assert DecodeLast(q) == Some([ValueOf(c0) * 4 + ValueOf(c1) / 16]);
  }

  /** Three characters and `=` decode to two bytes when the third
      character's low two bits are zero. */
  lemma DecodeLastTwo(c0: char, c1: char, c2: char)
    requires IsBase64Char(c0) && IsBase64Char(c1) && IsBase64Char(c2) && ValueOf(c2) % 4 == 0
    ensures Decode([c0, c1, c2, '=']) ==
      Some([ValueOf(c0) * 4 + ValueOf(c1) / 16, (ValueOf(c1) % 16) * 16 + ValueOf(c2) / 4])
  {
    var q := [c0, c1, c2, '='];
    assert q[2] != '=' && q[3] == '=';
    assert DecodeLast(q) == Some([ValueOf(c0) * 4 + ValueOf(c1) / 16, (ValueOf(c1) % 16) * 16 + ValueOf(c2) / 4]);
  }

  lemma SplitOne(b0: byte)
    ensures var v1 := (b0 % 4) * 16; v1 % 16 == 0 && (b0 / 4) * 4 + v1 / 16 == b0
  {
    Pack16(b0 % 4, 0);
  }

  lemma DecodeEncodeTwo(b: Bytes)
    requires |b| == 2
    ensures Decode(Encode(b)) == Some(b)
  {
    var b0, b1 := b[0], b[1];
    var v0, v1, v2 := b0 / 4, (b0 % 4) * 16 + b1 / 16, (b1 % 16) * 4;
    EncodeTwoChars(b);
    var q := [CharOf(v0), CharOf(v1), CharOf(v2), '='];
    assert Encode(b) == q;
    SplitTwo(b0, b1);
    DecodeCharsTwo(v0, v1, v2);
    assert Decode(q) == Some([v0 * 4 + v1 / 16, (v1 % 16) * 16 + v2 / 4]);
    PairIs(b, v0 * 4 + v1 / 16, (v1 % 16) * 16 + v2 / 4);
    assert Decode(q) == Some(b);
  }

  lemma EncodeTwoChars(b: Bytes)
    requires |b| == 2
    ensures Encode(b) == [CharOf(b[0] / 4), CharOf((b[0] % 4) * 16 + b[1] / 16), CharOf((b[1] % 16) * 4), '=']
  {
    assert Encode(b) == EncodeTail(b);
  }

  lemma DecodeCharsTwo(v0: sextet, v1: sextet, v2: sextet)
    requires v2 % 4 == 0
    ensures Decode([CharOf(v0), CharOf(v1), CharOf(v2), '=']) == Some([v0 * 4 + v1 / 16, (v1 % 16) * 16 + v2 / 4])
  {
    ValueOfCharOf(v0);
    ValueOfCharOf(v1);
    ValueOfCharOf(v2);
    DecodeLastTwo(CharOf(v0), CharOf(v1), CharOf(v2));
  }

  lemma PairIs(b: Bytes, x: int, y: int)
    requires |b| == 2 && x == b[0] && y == b[1]
    ensures [x, y] == b
  {
  }

  lemma SplitTwo(b0: byte, b1: byte)
    ensures var v0, v1, v2 := b0 / 4, (b0 % 4) * 16 + b1 / 16, (b1 % 16) * 4;
      v2 % 4 == 0 && v0 * 4 + v1 / 16 == b0 && (v1 % 16) * 16 + v2 / 4 == b1
  {
    Pack16(b0 % 4, b1 / 16);
    Pack4(b1 % 16, 0);
  }

  /** A leading full group decodes on its own. */
  lemma DecodeAppend(q: string, t: string, head: Bytes)
    requires |q| == 4 && |t| > 0 && |t| % 4 == 0
    requires DecodeBlock(q) == Some(head)
    ensures Decode(q + t) == (if Decode(t).Some? then Some(head + Decode(t).value) else None)
  {
    var s := q + t;
    assert s[..4] == q;
    assert s[4..] == t;
    assert |s| != 4 && |s| % 4 == 0;
    if Decode(t).Some? {
      assert Decode(s) == Some(head + Decode(t).value);
    } else {
      assert Decode(s) == None;
    }
  }

  lemma DecodeEncodeThree(b: Bytes)
    requires |b| == 3
    ensures Decode(Encode(b)) == Some(b)
  {
    var q := EncodeBlock(b[0], b[1], b[2]);
    EncodeThreeIsBlock(b);
    DecodeLastEncodeBlock(b[0], b[1], b[2]);
    assert Decode(q) == DecodeLast(q);
    TripleIs(b);
    assert Decode(q) == Some(b);
  }

  lemma TripleIs(b: Bytes)
    requires |b| == 3
    ensures [b[0], b[1], b[2]] == b
  {
  }

  lemma EncodeThreeIsBlock(b: Bytes)
    requires |b| == 3
    ensures Encode(b) == EncodeBlock(b[0], b[1], b[2])
  {
    assert b[3..] == [];
    assert Encode(b[3..]) == "";
    assert Encode(b) == EncodeBlock(b[0], b[1], b[2]) + Encode(b[3..]);
  }

  lemma EncodeStep(b: Bytes)
    requires |b| > 3
    ensures Encode(b) == EncodeBlock(b[0], b[1], b[2]) + Encode(b[3..])
  {
  }

  lemma DecodeEncodeStep(b: Bytes, te: string)
    requires |b| > 3 && |te| > 0 && |te| % 4 == 0
    requires Decode(te) == Some(b[3..])
    ensures Decode(EncodeBlock(b[0], b[1], b[2]) + te) == Some(b)
  {
    DecodeEncodeBlock(b[0], b[1], b[2]);
    DecodeAppend(EncodeBlock(b[0], b[1], b[2]), te, [b[0], b[1], b[2]]);
    assert [b[0], b[1], b[2]] + b[3..] == b;
  }

  /** Four characters for every three bytes or part of three. */
  lemma {:induction false} EncodeLength(b: Bytes)
    ensures |Encode(b)| == 4 * ((|b| + 2) / 3)
    decreases |b|
  {
    if |b| > 3 {
      EncodeLength(b[3..]);
      assert |Encode(b)| == 4 + |Encode(b[3..])|;
      assert (|b| + 2) / 3 == 1 + (|b[3..]| + 2) / 3;
    }
  }

  lemma DecodeEncodeShort(b: Bytes)
    requires |b| <= 3
    ensures Decode(Encode(b)) == Some(b)
  {
    if |b| == 0 {
      DecodeEncodeEmpty(b);
    } else if |b| == 1 {
      DecodeEncodeOne(b);
    } else if |b| == 2 {
      DecodeEncodeTwo(b);
    } else {
      DecodeEncodeThree(b);
    }
  }

  lemma DecodeEncodeLong(b: Bytes)
    requires |b| > 3
    requires Decode(Encode(b[3..])) == Some(b[3..])
    ensures Decode(Encode(b)) == Some(b)
  {
    EncodeStep(b);
    DecodeEncodeStep(b, Encode(b[3..]));
  }

  /** Decoding undoes encoding, for every byte string. */
  lemma {:induction false} DecodeEncode(b: Bytes)
    ensures Decode(Encode(b)) == Some(b)
    decreases |b|
  {
    if |b| <= 3 {
      DecodeEncodeShort(b);
    } else {
      DecodeEncode(b[3..]);
      DecodeEncodeLong(b);
    }
  }

  /** An encoding is always a canonical, decodable string of alphabet
      characters and trailing padding. */
  lemma EncodeIsDecodable(b: Bytes)
    ensures Decode(Encode(b)).Some?
    ensures |Encode(b)| % 4 == 0
  {
    DecodeEncode(b);
  }

  lemma DecodeNonEmpty(s: string)
    requires |s| > 0 && Decode(s).Some?
    ensures |Decode(s).value| > 0
  {
  }

  /** The value arithmetic of one block: regrouping three bytes into
      sextets undoes regrouping four sextets into bytes. */
  lemma RegroupBlock(v0: sextet, v1: sextet, v2: sextet, v3: sextet, x: int, y: int, z: int)
    requires x == v0 * 4 + v1 / 16 && y == (v1 % 16) * 16 + v2 / 4 && z == (v2 % 4) * 64 + v3
    ensures x / 4 == v0 && (x % 4) * 16 + y / 16 == v1 && (y % 16) * 4 + z / 64 == v2 && z % 64 == v3
  {
  }

  lemma EncodeDecodeBlock(q: string)
    requires |q| == 4 && DecodeBlock(q).Some?
    ensures var b := DecodeBlock(q).value; EncodeBlock(b[0], b[1], b[2]) == q
  {
    var v0: int, v1: int, v2: int, v3: int := ValueOf(q[0]), ValueOf(q[1]), ValueOf(q[2]), ValueOf(q[3]);
    var x, y, z := v0 * 4 + v1 / 16, (v1 % 16) * 16 + v2 / 4, (v2 % 4) * 64 + v3;
    RegroupBlock(v0, v1, v2, v3, x, y, z);
    var b := DecodeBlock(q).value;
    assert b == [x, y, z];
    assert EncodeBlock(b[0], b[1], b[2]) == [CharOf(v0), CharOf(v1), CharOf(v2), CharOf(v3)];
  }

  lemma EncodeDecodeOne(q: string)
    requires |q| == 4 && q[2] == '=' && q[3] == '=' && DecodeLast(q).Some?
    ensures Encode(DecodeLast(q).value) == q
  {
    var v0: int, v1: int := ValueOf(q[0]), ValueOf(q[1]);
    var x := v0 * 4 + v1 / 16;
    assert x / 4 == v0 && (x % 4) * 16 == v1;
    assert DecodeLast(q).value == [x];
  }

  lemma EncodeDecodeTwo(q: string)
    requires |q| == 4 && q[2] != '=' && q[3] == '=' && DecodeLast(q).Some?
    ensures Encode(DecodeLast(q).value) == q
  {
    var v0: int, v1: int, v2: int := ValueOf(q[0]), ValueOf(q[1]), ValueOf(q[2]);
    RegroupBlock(v0, v1, v2, 0, v0 * 4 + v1 / 16, (v1 % 16) * 16 + v2 / 4, (v2 % 4) * 64);
  }

  lemma EncodeDecodeThree(q: string)
    requires |q| == 4 && q[3] != '=' && DecodeLast(q).Some?
    ensures Encode(DecodeLast(q).value) == q
  {
    var b := DecodeLast(q).value;
    EncodeDecodeBlock(q);
    assert b[3..] == [];
    assert Encode(b) == EncodeBlock(b[0], b[1], b[2]) + Encode(b[3..]);
  }

  lemma EncodeDecodeLast(q: string)
    requires |q| == 4 && DecodeLast(q).Some?
    ensures Encode(DecodeLast(q).value) == q
  {
    if q[2] == '=' && q[3] == '=' {
      EncodeDecodeOne(q);
    } else if q[3] == '=' {
      EncodeDecodeTwo(q);
    } else {
      EncodeDecodeThree(q);
    }
  }

  /** How a decodable string longer than one block splits. */
  lemma DecodeSplit(s: string)
    requires |s| > 4 && Decode(s).Some?
    ensures DecodeBlock(s[..4]).Some? && Decode(s[4..]).Some?
    ensures Decode(s).value == DecodeBlock(s[..4]).value + Decode(s[4..]).value
    ensures |Decode(s[4..]).value| > 0
  {
    DecodeNonEmpty(s[4..]);
  }

  lemma EncodeDecodeStep(q: string, t: string, head: Bytes, tail: Bytes)
    requires |q| == 4 && DecodeBlock(q) == Some(head) && |tail| > 0
    requires Encode(tail) == t
    ensures Encode(head + tail) == q + t
  {
    EncodeDecodeBlock(q);
    var b := head + tail;
    assert b[3..] == tail;
    assert Encode(b) == EncodeBlock(b[0], b[1], b[2]) + Encode(b[3..]);
  }

  /** Decoding is injective: a decodable string is the encoding of what it
      decodes to, so canonical padding leaves one spelling per byte string. */
  lemma {:induction false} EncodeDecode(s: string)
    requires Decode(s).Some?
    ensures Encode(Decode(s).value) == s
    decreases |s|
  {
    if |s| == 0 {
      assert Decode(s).value == [];
    } else if |s| == 4 {
      EncodeDecodeLast(s);
    } else {
      assert |s| % 4 == 0 && |s| > 4;
      DecodeSplit(s);
      EncodeDecode(s[4..]);
      EncodeDecodeLong(s);
    }
  }

  lemma EncodeDecodeLong(s: string)
    requires |s| > 4 && Decode(s).Some?
    requires DecodeBlock(s[..4]).Some? && Decode(s[4..]).Some?
    requires Decode(s).value == DecodeBlock(s[..4]).value + Decode(s[4..]).value
    requires |Decode(s[4..]).value| > 0
    requires Encode(Decode(s[4..]).value) == s[4..]
    ensures Encode(Decode(s).value) == s
  {
    EncodeDecodeStep(s[..4], s[4..], DecodeBlock(s[..4]).value, Decode(s[4..]).value);
    assert s[..4] + s[4..] == s;
  }

  /** `Decode` and `Encode` are inverse bijections between byte strings
      and canonical base64 strings. */
  lemma DecodeIsEncodeInverse(s: string, b: Bytes)
    ensures Decode(s) == Some(b) <==> s == Encode(b)
  {
    if Decode(s) == Some(b) {
      EncodeDecode(s);
    }
    if s == Encode(b) {
      DecodeEncode(b);
    }
  }
}
