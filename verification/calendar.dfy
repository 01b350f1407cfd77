/** Civil-calendar arithmetic on Unix time: the proleptic Gregorian
    calendar as chrono uses it, with times as whole seconds since
    1970-01-01 00:00:00 UTC. The local time zone is taken to be UTC. */
module Calendar {

  const SecondsPerMinute := 60
  const SecondsPerHour := 3600
  const SecondsPerDay := 86400

  /** The clock fields of a Unix time. `%` and `/` by a positive constant
      are floor operations, so these hold for times before 1970 too. */
  function Hour(t: int): (r: int)
    ensures 0 <= r < 24
  {
    (t % SecondsPerDay) / SecondsPerHour
  }

  function Minute(t: int): (r: int)
    ensures 0 <= r < 60
  {
    (t % SecondsPerHour) / SecondsPerMinute
  }

  function Second(t: int): (r: int)
    ensures 0 <= r < 60
  {
    t % SecondsPerMinute
  }

  /** Minute and second together are the offset into the hour. */
  lemma MinuteSecond(t: int)
    ensures Minute(t) * 60 + Second(t) == t % SecondsPerHour
  {
  }

  predicate IsLeapYear(y: int) {
    (y % 4 == 0 && y % 100 != 0) || y % 400 == 0
  }

  function DaysInMonth(y: int, m: int): (r: int)
    requires 1 <= m <= 12
    ensures 28 <= r <= 31
  {
    if m == 2 then (if IsLeapYear(y) then 29 else 28)
    else if m == 4 || m == 6 || m == 9 || m == 11 then 30
    else 31
  }

  datatype Date = Date(year: int, month: int, day: int)

  predicate ValidDate(d: Date) {
    1 <= d.month <= 12 && 1 <= d.day <= DaysInMonth(d.year, d.month)
  }

  /** chrono's `NaiveDate`: always a real calendar day. */
  type NaiveDate = d: Date | ValidDate(d) witness Date(1970, 1, 1)

  /* H. Hinnant's day-number algorithms count years from 1 March, so that
     the leap day is the last day of the year, and 400-year eras of 146097
     days. The helpers below are the pieces both directions share. */

  /** Months counted from March: March is 0, February is 11. */
  function MarchMonth(m: int): int {
    if m > 2 then m - 3 else m + 9
  }

  /** Day of the March-based year: the month's first day plus `day - 1`. */
  function DayOfYear(mp: int, day: int): int {
    (153 * mp + 2) / 5 + day - 1
  }

  /** Day of the era: the first day of year `yoe` of the era plus `doy`. */
  function DayOfEra(yoe: int, doy: int): int {
    yoe * 365 + yoe / 4 - yoe / 100 + doy
  }

  /** The year of the era a day of the era falls in. */
  function YearOfEra(doe: int): int {
    (doe - doe / 1460 + doe / 36524 - doe / 146096) / 365
  }

  /** The March-based month a day of the year falls in. */
  function MonthOfDay(doy: int): int {
    (5 * doy + 2) / 153
  }

  /** Days from 1970-01-01 to the given civil date (`days_from_civil`). */
  function DaysFromCivil(d: Date): int
    requires 1 <= d.month <= 12
  {
    var y := if d.month <= 2 then d.year - 1 else d.year;
    var era := y / 400;
    era * 146097 + DayOfEra(y - era * 400, DayOfYear(MarchMonth(d.month), d.day)) - 719468
  }

  /** The civil date of a day number (`civil_from_days`). */
  function CivilFromDays(z: int): (r: Date)
    ensures 1 <= r.month <= 12
  {
    var z := z + 719468;
    var era := z / 146097;
    DateOfEraDay(era, z - era * 146097)
  }

  /** The civil date of day `doe` of era `era`. */
  function DateOfEraDay(era: int, doe: int): (r: Date)
    ensures 1 <= r.month <= 12
  {
    var yoe := YearOfEra(doe);
    var y := yoe + era * 400;
    var doy := doe - DayOfEra(yoe, 0);
    var mp := MonthOfDay(doy);
    var day := doy - DayOfYear(mp, 1) + 1;
    var month := if mp < 10 then mp + 3 else mp - 9;
    Date(if month <= 2 then y + 1 else y, if 1 <= month <= 12 then month else 1, day)
  }

  /** The two directions are inverse: every real calendar day survives the
      trip through its day number. */
  lemma CivilFromDaysFromCivil(d: NaiveDate)
    ensures CivilFromDays(DaysFromCivil(d)) == d
  {
    var y := if d.month <= 2 then d.year - 1 else d.year;
    var era := y / 400;
    var doe := DayOfEra(y - era * 400, DayOfYear(MarchMonth(d.month), d.day));
    var z := era * 146097 + doe - 719468;
    assert DaysFromCivil(d) == z;
    DateOfEraDayInverse(d);
    CivilOfEraDay(era, doe);
    assert CivilFromDays(z) == d;
  }

  lemma CivilOfEraDay(era: int, doe: int)
    requires 0 <= doe < 146097
    ensures CivilFromDays(era * 146097 + doe - 719468) == DateOfEraDay(era, doe)
  {
    assert (era * 146097 + doe) / 146097 == era;
  }

  /** The date part of the trip: the day of the era of a date gives the date back. */
  lemma DateOfEraDayInverse(d: NaiveDate)
    ensures var y := if d.month <= 2 then d.year - 1 else d.year;
      var era := y / 400;
      var doe := DayOfEra(y - era * 400, DayOfYear(MarchMonth(d.month), d.day));
      0 <= doe < 146097 && DateOfEraDay(era, doe) == d
  {
    var y := if d.month <= 2 then d.year - 1 else d.year;
    var era := y / 400;
    var yoe := y - era * 400;
    var doy := DayOfYear(MarchMonth(d.month), d.day);
    MonthOfDayInverse(d.month, d.day, IsLeapYear(d.year));
    LeapShift(y);
    YearOfEraInverse(yoe, doy);
    var doe := DayOfEra(yoe, doy);
    var mp := MarchMonth(d.month);
    assert YearOfEra(doe) == yoe && doe - DayOfEra(yoe, 0) == doy;
    assert MonthOfDay(doy) == mp && doy - DayOfYear(mp, 1) + 1 == d.day;
    assert (if mp < 10 then mp + 3 else mp - 9) == d.month;
  }

  /** A leap year of the March-based count: the year that holds its February. */
  predicate MarchLeap(yoe: int) {
    ((yoe + 1) % 4 == 0 && (yoe + 1) % 100 != 0) || (yoe + 1) % 400 == 0
  }

  lemma MonthOfDayInverse(m: int, day: int, leap: bool)
    requires 1 <= m <= 12 && 1 <= day
    requires day <= (if m == 2 then (if leap then 29 else 28) else DaysInMonth(2001, m))
    ensures var doy := DayOfYear(MarchMonth(m), day);
      0 <= doy <= 365 && (doy == 365 ==> m == 2 && day == 29) &&
      MonthOfDay(doy) == MarchMonth(m) && doy - DayOfYear(MarchMonth(m), 1) + 1 == day
  {
  }

  lemma LeapShift(y: int)
    ensures IsLeapYear(y + 1) <==> MarchLeap(y - (y / 400) * 400)
  {
    var era := y / 400;
    var yoe := y - era * 400;
    assert y + 1 == yoe + 1 + 400 * era;
    ShiftMod4(yoe + 1, 100 * era);
    ShiftMod100(yoe + 1, 4 * era);
    ShiftMod400(yoe + 1, era);
  }

  lemma ShiftMod4(b: int, k: int)
    ensures (b + k * 4) % 4 == b % 4
  {
  }

  lemma ShiftMod100(b: int, k: int)
    ensures (b + k * 100) % 100 == b % 100
  {
  }

  lemma ShiftMod400(b: int, k: int)
    ensures (b + k * 400) % 400 == b % 400
  {
  }

  /** `YearOfEra` inverts `DayOfEra` on every day of a year of the era. */
  lemma YearOfEraInverse(yoe: int, doy: int)
    requires 0 <= yoe < 400
    requires 0 <= doy <= 364 || (doy == 365 && MarchLeap(yoe))
    ensures 0 <= DayOfEra(yoe, doy) < 146097
    ensures YearOfEra(DayOfEra(yoe, doy)) == yoe
    ensures DayOfEra(yoe, doy) - DayOfEra(yoe, 0) == doy
  {
    var c := yoe / 100;
    var q := (yoe % 100) / 4;
    var r := yoe % 4;
    assert yoe == 100 * c + 4 * q + r;
    assert yoe / 4 == 25 * c + q;
    YearOfEraParts(c, q, r, doy);
  }

  /** The same with the year of the era split into centuries, four-year
      cycles and years, which makes every division exact. */
  lemma YearOfEraParts(c: int, q: int, r: int, doy: int)
    requires 0 <= c < 4 && 0 <= q < 25 && 0 <= r < 4
    requires 0 <= doy <= 364 || (doy == 365 && r == 3 && (q != 24 || c == 3))
    ensures var doe := 36524 * c + 1461 * q + 365 * r + doy;
      0 <= doe < 146097 &&
      (doe - doe / 1460 + doe / 36524 - doe / 146096) / 365 == 100 * c + 4 * q + r
  {
    var doe := 36524 * c + 1461 * q + 365 * r + doy;
    var rest := 24 * c + q + 365 * r + doy;
    var e1 := if rest >= 1460 then 1 else 0;
    assert 1460 * (25 * c + q + e1) <= doe < 1460 * (25 * c + q + e1 + 1);
    var e3 := if c == 3 && q == 24 && r == 3 && doy == 365 then 1 else 0;
    assert doe / 146096 == e3;
    assert doe / 36524 == c + e3;
    assert doe - doe / 1460 + doe / 36524 - doe / 146096 == 365 * (100 * c + 4 * q + r) + doy - e1;
  }

  /** Unix time of a civil date at a time of day. */
  function Timestamp(d: Date, hour: int, minute: int, second: int): int
    requires 1 <= d.month <= 12
  {
    DaysFromCivil(d) * SecondsPerDay + hour * SecondsPerHour + minute * SecondsPerMinute + second
  }

  /** `+ Months::new(1)` on a date-time: the same day and time of day in the
      following month, the day clamped to that month's last day. */
  function AddOneMonth(t: int): (r: int)
    ensures r % SecondsPerDay == t % SecondsPerDay
  {
    var days := NextMonthDay(t / SecondsPerDay);
    DaySplit(days, t % SecondsPerDay);
    days * SecondsPerDay + t % SecondsPerDay
  }

  /** The day number one calendar month after day `z`, the day of the month
      clamped to the length of the following month. */
  function NextMonthDay(z: int): int
  {
    DaysFromCivil(NextMonthDate(CivilFromDays(z)))
  }

  /** The same day of the following month, clamped to that month's length. */
  function NextMonthDate(date: Date): (r: Date)
    requires 1 <= date.month <= 12
    ensures r.month == (if date.month == 12 then 1 else date.month + 1)
    ensures r.year == (if date.month == 12 then date.year + 1 else date.year)
    ensures r.day == if date.day <= DaysInMonth(r.year, r.month) then date.day else DaysInMonth(r.year, r.month)
    ensures date.day >= 1 ==> ValidDate(r)
  {
    var next := if date.month == 12 then Date(date.year + 1, 1, 1) else Date(date.year, date.month + 1, 1);
    var day := if date.day <= DaysInMonth(next.year, next.month) then date.day
               else DaysInMonth(next.year, next.month);
    next.(day := day)
  }

  /** One month after a time on day `z` is the same time of day on day
      `NextMonthDay(z)`; with `NextMonthDayOfDate`, that day is the date
      `NextMonthDate` gives. */
  lemma AddOneMonthOfDay(z: int, s: int)
    requires 0 <= s < SecondsPerDay
    ensures AddOneMonth(z * SecondsPerDay + s) % SecondsPerDay == s
    ensures AddOneMonth(z * SecondsPerDay + s) / SecondsPerDay == NextMonthDay(z)
  {
    DaySplit(z, s);
    DaySplit(NextMonthDay(z), s);
  }

  /** The day number of the month step is that of `NextMonthDate`. */
  lemma NextMonthDayOfDate(d: NaiveDate)
    ensures CivilFromDays(NextMonthDay(DaysFromCivil(d))) == NextMonthDate(d)
  {
    CivilFromDaysFromCivil(d);
    var n: NaiveDate := NextMonthDate(d);
    CivilFromDaysFromCivil(n);
  }

  lemma DaySplit(k: int, s: int)
    requires 0 <= s < SecondsPerDay
    ensures (k * SecondsPerDay + s) / SecondsPerDay == k
    ensures (k * SecondsPerDay + s) % SecondsPerDay == s
  {
  }

  /** Two reference points of the day numbering. */
  lemma CivilExampleLeap()
    ensures CivilFromDays(19753) == Date(2024, 1, 31)
  {
    assert (19753 + 719468) / 146097 == 5;
    assert YearOfEra(8736) == 23;
    assert DayOfEra(23, 0) == 8400;
    assert MonthOfDay(336) == 10;
    assert DayOfYear(10, 1) == 306;
  }

  lemma CivilExampleDecember()
    ensures CivilFromDays(19706) == Date(2023, 12, 15)
  {
    assert (19706 + 719468) / 146097 == 5;
    assert YearOfEra(8689) == 23;
    assert DayOfEra(23, 0) == 8400;
    assert MonthOfDay(289) == 9;
    assert DayOfYear(9, 1) == 275;
  }

  lemma DaysExampleLeapDay()
    ensures DaysFromCivil(Date(2024, 2, 29)) == 19782
  {
  }

  lemma DaysExampleJanuary()
    ensures DaysFromCivil(Date(2024, 1, 15)) == 19737
  {
  }

  /** The month step clamps: 31 January 2024 is followed by 29 February. */
  lemma AddOneMonthExampleClamp()
    ensures NextMonthDay(19753) == 19782
  {
    CivilExampleLeap();
    DaysExampleLeapDay();
  }

  /** December rolls over into January of the next year. */
  lemma AddOneMonthExampleDecember()
    ensures NextMonthDay(19706) == 19737
  {
    CivilExampleDecember();
    DaysExampleJanuary();
  }

  const NanosPerSecond := 1_000_000_000

  type Nanos = n: int | 0 <= n < NanosPerSecond

  /** chrono's `DateTime<Utc>`: whole seconds since the epoch plus a
      sub-second part. */
  datatype DateTime = DateTime(secs: int, nanos: Nanos)

  /** The instant as nanoseconds since the epoch, for ordering. */
  function Instant(d: DateTime): int {
    d.secs * NanosPerSecond + d.nanos
  }

  lemma InstantOrder(a: DateTime, b: DateTime)
    ensures Instant(a) <= Instant(b) <==> a.secs < b.secs || (a.secs == b.secs && a.nanos <= b.nanos)
  {
  }

  /** `with_minute`, `with_second`, `with_nanosecond`: replace one clock field. */
  function WithMinute(d: DateTime, m: int): (r: DateTime)
    requires 0 <= m < 60
    ensures Minute(r.secs) == m && Second(r.secs) == Second(d.secs) && r.nanos == d.nanos
    ensures r.secs / SecondsPerHour == d.secs / SecondsPerHour
  {
    var hour := d.secs / SecondsPerHour;
    MinuteSecond(d.secs);
    HourSplit(hour, Minute(d.secs) * 60 + Second(d.secs));
    HourSplit(hour, m * 60 + Second(d.secs));
    MinuteSplit(m, Second(d.secs));
    MinuteSplit(hour * 60 + m, Second(d.secs));
    DateTime(d.secs - Minute(d.secs) * SecondsPerMinute + m * SecondsPerMinute, d.nanos)
  }

  lemma HourSplit(k: int, s: int)
    requires 0 <= s < SecondsPerHour
    ensures (k * SecondsPerHour + s) / SecondsPerHour == k
    ensures (k * SecondsPerHour + s) % SecondsPerHour == s
  {
  }

  lemma MinuteSplit(k: int, s: int)
    requires 0 <= s < SecondsPerMinute
    ensures (k * SecondsPerMinute + s) / SecondsPerMinute == k
    ensures (k * SecondsPerMinute + s) % SecondsPerMinute == s
  {
  }

  function WithSecond(d: DateTime, s: int): (r: DateTime)
    requires 0 <= s < 60
    ensures Second(r.secs) == s && r.nanos == d.nanos
    ensures r.secs / SecondsPerMinute == d.secs / SecondsPerMinute
  {
    DateTime(d.secs - Second(d.secs) + s, d.nanos)
  }

  function WithNanosecond(d: DateTime, n: Nanos): (r: DateTime)
    ensures r.secs == d.secs && r.nanos == n
  {
    d.(nanos := n)
  }

  /** `+ Duration::seconds(k)` for a whole number of seconds. */
  function AddSeconds(d: DateTime, k: int): (r: DateTime)
    ensures Instant(r) == Instant(d) + k * NanosPerSecond
  {
    DateTime(d.secs + k, d.nanos)
  }

  /** chrono's `NaiveDateTime`: a calendar day and a clock time, with no
      time zone. */
  datatype NaiveDateTime = NaiveDateTime(date: NaiveDate, hour: int, minute: int, second: int)

  predicate ValidClock(t: NaiveDateTime) {
    0 <= t.hour < 24 && 0 <= t.minute < 60 && 0 <= t.second < 60
  }

  /** The day numbers of chrono's `NaiveDate::MIN`, 1 January of the year
      -262143, and `NaiveDate::MAX`, 31 December 262142. */
  const MinDay := -96465292
  const MaxDay := 95026236

  /** A Unix time chrono can represent as a date-time: its day lies between
      `NaiveDate::MIN` and `NaiveDate::MAX`. Outside this range
      `timestamp_opt(t, 0)` has no single result. */
  predicate InChronoRange(t: int) {
    MinDay <= t / SecondsPerDay <= MaxDay
  }

  /** The range ends are the dates chrono names, and a time past the year
      262142 (10^13 seconds) is outside it. */
  lemma ChronoRangeEnds()
    ensures DaysFromCivil(Date(-262143, 1, 1)) == MinDay
    ensures DaysFromCivil(Date(262142, 12, 31)) == MaxDay
    ensures InChronoRange(0) && InChronoRange(MaxDay * SecondsPerDay + SecondsPerDay - 1)
    ensures !InChronoRange(MinDay * SecondsPerDay - 1) && !InChronoRange(10_000_000_000_000)
  {
    assert -262144 / 400 == -656;
    assert DayOfYear(MarchMonth(1), 1) == 306;
    assert DayOfEra(256, 306) == 93808;
    assert 262142 / 400 == 655;
    assert DayOfYear(MarchMonth(12), 31) == 305;
    assert DayOfEra(142, 305) == 52169;
    assert (MaxDay * SecondsPerDay + SecondsPerDay - 1) / SecondsPerDay == MaxDay;
    assert (MinDay * SecondsPerDay - 1) / SecondsPerDay == MinDay - 1;
  }
}
