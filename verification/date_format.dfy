/** The `tapo_date_format` serde helpers of the first crate: a local date
    and time written as `YYYY-MM-DD HH:MM:SS`, zero-padded, a negative year
    preceded by `-`, and read back with the UTC offset attached. */
module TapoDateFormat {
  import opened Wrappers
  import opened Errors
  import opened Calendar
  import opened Decimal

  /** `time::OffsetDateTime`: a local date and time and its offset from UTC. */
  datatype OffsetDateTime = OffsetDateTime(local: NaiveDateTime, offsetSeconds: int)

  /** The separators of the pattern and the positions of its digits. */
  predicate Shaped(s: string) {
    |s| == 19 && s[4] == '-' && s[7] == '-' && s[10] == ' ' && s[13] == ':' && s[16] == ':' &&
    IsDigit(s[0]) && IsDigit(s[1]) && IsDigit(s[2]) && IsDigit(s[3]) &&
    IsDigit(s[5]) && IsDigit(s[6]) && IsDigit(s[8]) && IsDigit(s[9]) &&
    IsDigit(s[11]) && IsDigit(s[12]) && IsDigit(s[14]) && IsDigit(s[15]) &&
    IsDigit(s[17]) && IsDigit(s[18])
  }

  /** The two-digit number at `i`. */
  function Two(s: string, i: nat): (v: int)
    requires i + 2 <= |s| && IsDigit(s[i]) && IsDigit(s[i + 1])
    ensures 0 <= v < 100
  {
    DigitValue(s[i]) * 10 + DigitValue(s[i + 1])
  }

  function Year(s: string): (v: int)
    requires Shaped(s)
    ensures 0 <= v < 10000
  {
    Two(s, 0) * 100 + Two(s, 2)
  }

  /** The length of the optional sign before the year: `[year]` signs
      automatically, and the parser accepts a `+` or a `-` there. */
  function SignLength(s: string): (n: nat)
    ensures n <= 1 && n <= |s|
    ensures n == 1 <==> |s| > 0 && (s[0] == '+' || s[0] == '-')
  {
    if |s| > 0 && (s[0] == '+' || s[0] == '-') then 1 else 0
  }

  /** The text after the sign: the four year digits onwards. */
  function Body(s: string): string {
    s[SignLength(s)..]
  }

  /** The year as read: a leading `-` negates the four digits. */
  function SignedYear(s: string): (v: int)
    requires Shaped(Body(s))
    ensures -10000 < v < 10000
    ensures v < 0 ==> s[0] == '-'
  {
    if SignLength(s) == 1 && s[0] == '-' then -Year(Body(s)) else Year(Body(s))
  }

  /** The date is a real calendar day of `year` and the clock a real time of day. */
  predicate InRange(s: string, year: int)
    requires Shaped(s)
  {
    1 <= Two(s, 5) <= 12 && 1 <= Two(s, 8) <= DaysInMonth(year, Two(s, 5)) &&
    Two(s, 11) < 24 && Two(s, 14) < 60 && Two(s, 17) < 60
  }

  /** `deserialize`: the whole string must match the pattern, with an
      optional sign before the year, and denote a real date and time; the
      offset attached is that of `OffsetDateTime::now_utc()`, which is
      always UTC. */
  function Deserialize(s: string): (r: Result<OffsetDateTime, Error>)
    ensures r.Ok? <==> Shaped(Body(s)) && InRange(Body(s), SignedYear(s))
    ensures r.Err? ==> r.error.Serde?
    ensures r.Ok? ==> r.value.offsetSeconds == 0 && ValidClock(r.value.local)
    ensures r.Ok? ==> -10000 < r.value.local.date.year < 10000
    ensures r.Ok? && r.value.local.date.year < 0 ==> s[0] == '-'
  {
    var b := Body(s);
    if Shaped(b) && InRange(b, SignedYear(s)) then
      var date: NaiveDate := Date(SignedYear(s), Two(b, 5), Two(b, 8));
      Ok(OffsetDateTime(NaiveDateTime(date, Two(b, 11), Two(b, 14), Two(b, 17)), 0))
    else
      Err(Serde("invalid date-time for the format [year]-[month]-[day] [hour]:[minute]:[second]"))
  }

  /** Two zero-padded digits. */
  function Pad2(n: int): (r: string)
    requires 0 <= n < 100
    ensures |r| == 2 && IsDigit(r[0]) && IsDigit(r[1])
    ensures Two(r, 0) == n
  {
    [DigitChar(n / 10), DigitChar(n % 10)]
  }

  /** A `time::Date` holds a year of at most four digits either side of zero. */
  predicate Representable(d: OffsetDateTime) {
    -10000 < d.local.date.year < 10000 && ValidClock(d.local)
  }

  /** The pattern without its sign: the absolute year in four digits and
      every other field zero-padded. */
  function Unsigned(t: NaiveDateTime): (r: string)
    requires -10000 < t.date.year < 10000 && ValidClock(t)
    ensures Shaped(r)
  {
    var y := if t.date.year < 0 then -t.date.year else t.date.year;
    var y1, y2, mo, da := Pad2(y / 100), Pad2(y % 100), Pad2(t.date.month), Pad2(t.date.day);
    var h, mi, se := Pad2(t.hour), Pad2(t.minute), Pad2(t.second);
    [y1[0], y1[1], y2[0], y2[1], '-', mo[0], mo[1], '-', da[0], da[1], ' ', h[0], h[1], ':', mi[0], mi[1], ':', se[0], se[1]]
  }

  /** `serialize`: the same pattern, every field zero-padded; a negative
      year is written with a `-` before its four digits, any other year
      without a sign. */
  function Serialize(d: OffsetDateTime): (r: string)
    requires Representable(d)
    ensures Shaped(Body(r))
    ensures |r| == if d.local.date.year < 0 then 20 else 19
    ensures SignLength(r) == 1 <==> d.local.date.year < 0
    ensures SignLength(r) == 1 ==> r[0] == '-'
  {
    var body := Unsigned(d.local);
    if d.local.date.year < 0 then ['-'] + body else body
  }

  /** The unsigned pattern reads back as the absolute year and the other fields. */
  lemma ReadUnsigned(t: NaiveDateTime)
    requires -10000 < t.date.year < 10000 && ValidClock(t)
    ensures Year(Unsigned(t)) == (if t.date.year < 0 then -t.date.year else t.date.year)
    ensures Two(Unsigned(t), 5) == t.date.month && Two(Unsigned(t), 8) == t.date.day
    ensures Two(Unsigned(t), 11) == t.hour && Two(Unsigned(t), 14) == t.minute && Two(Unsigned(t), 17) == t.second
  {
    var b := Unsigned(t);
    var y := if t.date.year < 0 then -t.date.year else t.date.year;
    TwoOfPad(b, 0, y / 100);
    TwoOfPad(b, 2, y % 100);
    TwoOfPad(b, 5, t.date.month);
    TwoOfPad(b, 8, t.date.day);
    TwoOfPad(b, 11, t.hour);
    TwoOfPad(b, 14, t.minute);
    TwoOfPad(b, 17, t.second);
  }

  /** Reading what was written gives back the same date and time, in UTC,
      for every year a `time::Date` can hold. */
  lemma DeserializeSerialize(d: OffsetDateTime)
    requires Representable(d)
    ensures Deserialize(Serialize(d)) == Ok(d.(offsetSeconds := 0))
  {
    var s := Serialize(d);
    var t := d.local;
    assert Body(s) == Unsigned(t);
    ReadUnsigned(t);
    assert SignedYear(s) == t.date.year;
  }

  /** Two characters copied from `Pad2(n)` read back as `n`. */
  lemma TwoOfPad(s: string, i: nat, n: int)
    requires 0 <= n < 100 && i + 2 <= |s| && s[i] == Pad2(n)[0] && s[i + 1] == Pad2(n)[1]
    ensures IsDigit(s[i]) && IsDigit(s[i + 1]) && Two(s, i) == n
  {
    assert Two(s, i) == Two(Pad2(n), 0);
  }

  /** The digits at `i` are written back as they were read. */
  lemma PadTwo(s: string, i: nat)
    requires i + 2 <= |s| && IsDigit(s[i]) && IsDigit(s[i + 1])
    ensures Pad2(Two(s, i))[0] == s[i] && Pad2(Two(s, i))[1] == s[i + 1]
  {
  }

  /** The text `serialize` itself writes: no `+`, and no `-` before a zero year. */
  predicate Canonical(s: string)
    requires Shaped(Body(s))
  {
    SignLength(s) == 0 || (s[0] == '-' && Year(Body(s)) != 0)
  }

  /** Writing what was read gives back the string, character by character,
      when it was written as `serialize` writes; otherwise the sign is
      dropped: `+` and `-0000` read as unsigned years. */
  lemma SerializeDeserialize(s: string)
    requires Deserialize(s).Ok?
    ensures Canonical(s) ==> Serialize(Deserialize(s).value) == s
    ensures !Canonical(s) ==> Serialize(Deserialize(s).value) == Body(s)
  {
    var b := Body(s);
    var t := Deserialize(s).value.local;
    var r := Unsigned(t);
    PadTwo(b, 0);
    PadTwo(b, 2);
    PadTwo(b, 5);
    PadTwo(b, 8);
    PadTwo(b, 11);
    PadTwo(b, 14);
    PadTwo(b, 17);
    var y := if t.date.year < 0 then -t.date.year else t.date.year;
    assert y == Year(b);
    assert Year(b) / 100 == Two(b, 0) && Year(b) % 100 == Two(b, 2);
    SameChars(r, b);
    if SignLength(s) == 1 {
      assert s == [s[0]] + b;
    }
  }

  /** Two pattern-length strings that agree at every position are equal. */
  lemma SameChars(r: string, s: string)
    requires |r| == 19 && |s| == 19
    requires r[0] == s[0] && r[1] == s[1] && r[2] == s[2] && r[3] == s[3] && r[4] == s[4] && r[5] == s[5]
    requires r[6] == s[6] && r[7] == s[7] && r[8] == s[8] && r[9] == s[9] && r[10] == s[10] && r[11] == s[11]
    requires r[12] == s[12] && r[13] == s[13] && r[14] == s[14] && r[15] == s[15] && r[16] == s[16]
    requires r[17] == s[17] && r[18] == s[18]
    ensures r == s
  {
    assert forall i | 0 <= i < 19 :: r[i] == s[i];
  }

  /** The date of the power-strip tests is accepted; 29 February of a
      common year and an ISO `T` separator are not. */
  lemma Example()
    ensures Deserialize("2023-05-29 14:52:24").Ok?
  {
    var s := "2023-05-29 14:52:24";
    assert Shaped(s);
    assert Two(s, 0) == 20 && Two(s, 2) == 23 && Year(s) == 2023;
    assert Two(s, 5) == 5 && Two(s, 8) == 29;
    assert Two(s, 11) == 14 && Two(s, 14) == 52 && Two(s, 17) == 24;
  }

  lemma ExampleLeapDay()
    ensures Deserialize("2023-02-29 14:52:24").Err?
  {
    var s := "2023-02-29 14:52:24";
    assert Shaped(s);
    assert Two(s, 0) == 20 && Two(s, 2) == 23 && Year(s) == 2023;
    assert Two(s, 5) == 2 && Two(s, 8) == 29;
    assert !IsLeapYear(2023);
  }

  lemma ExampleSeparator()
    ensures Deserialize("2023-05-29T14:52:24").Err?
  {
    var s := "2023-05-29T14:52:24";
    assert s[10] == 'T';
  }

  /** A `+` before the year is read and ignored. */
  lemma ExamplePlus()
    ensures Deserialize("+2023-05-29 14:52:24") == Deserialize("2023-05-29 14:52:24")
  {
    var p := "+2023-05-29 14:52:24";
    assert SignLength(p) == 1 && p[0] == '+';
    assert Body(p) == "2023-05-29 14:52:24";
  }

  /** A `-` before the year makes it negative. */
  lemma ExampleMinus()
    ensures Deserialize("-0001-03-01 00:00:00").Ok?
    ensures Deserialize("-0001-03-01 00:00:00").value.local.date.year == -1
  {
    var n := "-0001-03-01 00:00:00";
    assert SignLength(n) == 1;
    var b := Body(n);
    assert b == "0001-03-01 00:00:00";
    assert Shaped(b);
    assert Two(b, 0) == 0 && Two(b, 2) == 1 && Year(b) == 1;
    assert SignedYear(n) == -1;
    assert Two(b, 5) == 3 && Two(b, 8) == 1;
    assert Two(b, 11) == 0 && Two(b, 14) == 0 && Two(b, 17) == 0;
  }
}
