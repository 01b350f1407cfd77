/** The JSON values the client exchanges with devices, and their compact
    serialisation as serde_json writes it (RFC 8259). */
module Json {
  import opened Wrappers
  import Decimal

  /** A JSON value. Numbers are split as serde_json holds them: an integer
      (`i64` or `u64`) or a float, kept as its text. Object members keep
      their order. */
  datatype Json =
    | JNull
    | JBool(b: bool)
    | JInt(i: int)
    | JFloat(text: string)
    | JStr(s: string)
    | JArr(items: seq<Json>)
    | JObj(members: seq<(string, Json)>)

  const HexDigits := "0123456789abcdef"
  const Backspace: char := 8 as char
  const FormFeed: char := 12 as char

  /** serde_json's escape of one character inside a string literal: quote
      and backslash, the five short control escapes, `\u00xx` with
      lower-case hex for the other control characters, anything else
      verbatim. */
  function EscapeChar(c: char): (r: string)
    ensures 1 <= |r| <= 6
    ensures |r| == 1 <==> (c != '"' && c != '\\' && c as int >= 0x20)
  {
    if c == '"' then "\\\""
    else if c == '\\' then "\\\\"
    else if c == Backspace then "\\b"
    else if c == '\t' then "\\t"
    else if c == '\n' then "\\n"
    else if c == FormFeed then "\\f"
    else if c == '\r' then "\\r"
    else if c as int < 0x20 then "\\u00" + [HexDigits[c as int / 16], HexDigits[c as int % 16]]
    else [c]
  }

  function Escape(s: string): (r: string)
    ensures |r| >= |s|
  {
    if |s| == 0 then "" else EscapeChar(s[0]) + Escape(s[1..])
  }

  function HexValue(c: char): (r: Option<int>)
    ensures r.Some? ==> 0 <= r.value < 16
  {
    if '0' <= c <= '9' then Some(c as int - '0' as int)
    else if 'a' <= c <= 'f' then Some(c as int - 'a' as int + 10)
    else if 'A' <= c <= 'F' then Some(c as int - 'A' as int + 10)
    else None
  }

  /** The character at the front of the body of a string literal and the
      number of characters it takes, as a JSON reader sees it. Surrogate
      `\u` escapes are not handled. */
  function UnescapeChar(e: string): (r: Option<(char, nat)>)
    requires |e| > 0
    ensures r.Some? ==> 1 <= r.value.1 <= |e|
  {
    if e[0] == '"' || e[0] as int < 0x20 then None
    else if e[0] != '\\' then Some((e[0], 1))
    else if |e| < 2 then None
    else if e[1] == '"' then Some(('"', 2))
    else if e[1] == '\\' then Some(('\\', 2))
    else if e[1] == '/' then Some(('/', 2))
    else if e[1] == 'b' then Some((Backspace, 2))
    else if e[1] == 't' then Some(('\t', 2))
    else if e[1] == 'n' then Some(('\n', 2))
    else if e[1] == 'f' then Some((FormFeed, 2))
    else if e[1] == 'r' then Some(('\r', 2))
    else if e[1] == 'u' && |e| >= 6 then UnescapeUnicode(e[2], e[3], e[4], e[5])
    else None
  }

  /** The character of a `\u` escape with the four given hex digits. */
  function UnescapeUnicode(c0: char, c1: char, c2: char, c3: char): (r: Option<(char, nat)>)
    ensures r.Some? ==> r.value.1 == 6
  {
    var h0, h1, h2, h3 := HexValue(c0), HexValue(c1), HexValue(c2), HexValue(c3);
    if h0.None? || h1.None? || h2.None? || h3.None? then None
    else
      var v := ((h0.value * 16 + h1.value) * 16 + h2.value) * 16 + h3.value;
      if 0xD800 <= v < 0xE000 then None else Some((v as char, 6))
  }

  /** Reads back the body of a string literal. */
  function Unescape(e: string): (r: Option<string>)
    decreases |e|
  {
    if |e| == 0 then Some("")
    else
      match UnescapeChar(e)
      case None => None
      case Some((c, n)) =>
        match Unescape(e[n..])
        case None => None
        case Some(rest) => Some([c] + rest)
  }

  lemma UnescapeEscapeControl(c: char, t: string)
    requires c as int < 0x20
    ensures UnescapeChar("\\u00" + [HexDigits[c as int / 16], HexDigits[c as int % 16]] + t) == Some((c, 6))
  {
    var v := c as int;
    assert HexValue(HexDigits[v / 16]) == Some(v / 16);
    assert HexValue(HexDigits[v % 16]) == Some(v % 16);
  }

  lemma UnescapeEscapeChar(c: char, t: string)
    ensures UnescapeChar(EscapeChar(c) + t) == Some((c, |EscapeChar(c)|))
  {
    if c != '"' && c != '\\' && c != Backspace && c != '\t' && c != '\n' && c != FormFeed && c != '\r' && c as int < 0x20 {
      UnescapeEscapeControl(c, t);
    }
  }

  lemma UnescapeEscapeStep(s: string, rest: string)
    requires |s| > 0
    requires Unescape(rest) == Some(s[1..])
    ensures Unescape(EscapeChar(s[0]) + rest) == Some(s)
  {
    var e := EscapeChar(s[0]);
    UnescapeEscapeChar(s[0], rest);
    assert (e + rest)[|e|..] == rest;
    assert [s[0]] + s[1..] == s;
  }

  /** Reading an escaped string literal gives back the original string. */
  lemma {:induction false} UnescapeEscape(s: string)
    ensures Unescape(Escape(s)) == Some(s)
    decreases |s|
  {
    if |s| > 0 {
      UnescapeEscape(s[1..]);
      UnescapeEscapeStep(s, Escape(s[1..]));
    }
  }

  function Quote(s: string): string {
    "\"" + Escape(s) + "\""
  }

  /** Compact serialisation: no whitespace, members in order. */
  function Serialize(v: Json): string
    decreases v, 2
  {
    match v
    case JNull => "null"
    case JBool(b) => if b then "true" else "false"
    case JInt(i) => Decimal.IntToString(i)
    case JFloat(text) => text
    case JStr(s) => Quote(s)
    case JArr(items) => "[" + SerializeItems(v, items) + "]"
    case JObj(members) => "{" + SerializeMembers(v, members) + "}"
  }

  function SerializeItems(parent: Json, items: seq<Json>): string
    requires forall i :: 0 <= i < |items| ==> items[i] < parent
    decreases parent, 1, |items|
  {
    if |items| == 0 then ""
    else if |items| == 1 then Serialize(items[0])
    else Serialize(items[0]) + "," + SerializeItems(parent, items[1..])
  }

  function SerializeMembers(parent: Json, members: seq<(string, Json)>): string
    requires forall i :: 0 <= i < |members| ==> members[i].1 < parent
    decreases parent, 1, |members|
  {
    if |members| == 0 then ""
    else
      var m := Quote(members[0].0) + ":" + Serialize(members[0].1);
      if |members| == 1 then m else m + "," + SerializeMembers(parent, members[1..])
  }

  /** The value of the member named `key`, as `Value::get` reads it from
      an object; `None` for a missing key or a value that is not an
      object. Parsing an object inserts its members in order into the map,
      so of two members with the same key the last one is kept. */
  function Get(v: Json, key: string): (r: Option<Json>)
    ensures r.Some? ==> v.JObj? && exists i :: 0 <= i < |v.members| && v.members[i] == (key, r.value)
    ensures v.JObj? && (exists i :: 0 <= i < |v.members| && v.members[i].0 == key) ==> r.Some?
  {
    if !v.JObj? then None else Lookup(v.members, key)
  }

  function Lookup(members: seq<(string, Json)>, key: string): (r: Option<Json>)
    ensures r.Some? ==> exists i :: 0 <= i < |members| && members[i] == (key, r.value)
    ensures (exists i :: 0 <= i < |members| && members[i].0 == key) ==> r.Some?
  {
    if |members| == 0 then None
    else if members[|members| - 1].0 == key then Some(members[|members| - 1].1)
    else
      var init := members[..|members| - 1];
      var r := Lookup(init, key);
      assert forall i :: 0 <= i < |members| - 1 ==> members[i] == init[i];
      r
  }

  /** `Lookup` returns the last member carrying the key, as the map a
      parsed object becomes keeps it. */
  lemma {:induction false} LookupLast(members: seq<(string, Json)>, key: string, i: int)
    requires 0 <= i < |members| && members[i].0 == key
    requires forall j :: i < j < |members| ==> members[j].0 != key
    ensures Lookup(members, key) == Some(members[i].1)
  {
    if i < |members| - 1 {
      var init := members[..|members| - 1];
      assert init[i] == members[i];
      LookupLast(init, key, i);
    }
  }

  /** A duplicate key: the later value replaces the earlier one. */
  lemma DuplicateKeyLastWins(key: string, first: Json, second: Json)
    ensures Get(JObj([(key, first), (key, second)]), key) == Some(second)
  {
    LookupLast([(key, first), (key, second)], key, 1);
  }

  /** `Lookup` misses a key no member carries. */
  lemma {:induction false} LookupAbsent(members: seq<(string, Json)>, key: string)
    requires forall j :: 0 <= j < |members| ==> members[j].0 != key
    ensures Lookup(members, key).None?
  {
    if |members| > 0 {
      LookupAbsent(members[..|members| - 1], key);
    }
  }

  /** `Value::as_str`. */
  function AsStr(v: Json): Option<string> {
    if v.JStr? then Some(v.s) else None
  }

  /** A struct field with `skip_serializing_if = "Option::is_none"`: no
      member when absent. */
  function OptMember(name: string, v: Option<Json>): (r: seq<(string, Json)>)
    ensures |r| == if v.Some? then 1 else 0
    ensures v.Some? ==> r[0] == (name, v.value)
  {
    if v.Some? then [(name, v.value)] else []
  }

  function OptBool(b: Option<bool>): Option<Json> {
    if b.Some? then Some(JBool(b.value)) else None
  }

  function OptInt(i: Option<int>): Option<Json> {
    if i.Some? then Some(JInt(i.value)) else None
  }
}
