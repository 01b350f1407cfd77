/** Request parameters for the power-data query: both endpoints of the
    window are rounded up to the interval's grid before they are sent. */
module GetPowerData {
  import opened Bytes
  import opened Calendar

  datatype PowerDataInterval =
    | Every5Minutes(startDateTime: DateTime, endDateTime: DateTime)
    | Hourly(startDateTime: DateTime, endDateTime: DateTime)

  datatype Params = Params(startTimestamp: u64, endTimestamp: u64, interval: u64)

  const FiveMinutes := 300

  /** `get_5_minute_interval_start`: a time whose offset into the hour is a
      multiple of five minutes keeps its seconds (only the sub-second part is
      dropped); any other time moves forward to the next five-minute mark. */
  function FiveMinuteIntervalStart(date: DateTime): (r: DateTime)
    ensures r.nanos == 0 && r.secs % FiveMinutes == 0
    ensures date.secs <= r.secs < date.secs + FiveMinutes
    ensures r.secs == date.secs <==> date.secs % FiveMinutes == 0
  {
    var secsIntoHour := Minute(date.secs) * 60 + Second(date.secs);
    var rem := secsIntoHour % FiveMinutes;
    FiveMinuteMark(date.secs);
    if rem == 0 && Second(date.secs) == 0 then
      WithNanosecond(WithSecond(date, 0), 0)
    else
      var adjusted := AddSeconds(date, FiveMinutes - rem);
      assert adjusted.secs == date.secs + FiveMinutes - rem;
      WithNanosecond(WithSecond(adjusted, 0), 0)
  }

  /** The arithmetic behind the rounding: the offset into the hour modulo
      five minutes is the time's own remainder, a time on a mark has second
      0, and the next mark after a time off the grid is on the grid with
      second 0. */
  lemma FiveMinuteMark(t: int)
    ensures var rem := (Minute(t) * 60 + Second(t)) % FiveMinutes;
      rem == t % FiveMinutes && (rem == 0 ==> Second(t) == 0) &&
      (rem != 0 ==> Second(t + FiveMinutes - rem) == 0 && (t + FiveMinutes - rem) % FiveMinutes == 0)
  {
    IntoHourMod(t);
    var rem := t % FiveMinutes;
    if rem != 0 {
      NextMarkSecond(t);
      var p := t / FiveMinutes;
      assert t + FiveMinutes - rem == (p + 1) * FiveMinutes;
      ShiftMod300(0, p + 1);
    }
  }

  /** The offset into the hour has the same remainder modulo five minutes as
      the time itself, and a time on a mark has second 0. */
  lemma IntoHourMod(t: int)
    ensures (Minute(t) * 60 + Second(t)) % FiveMinutes == t % FiveMinutes
    ensures t % FiveMinutes == 0 ==> Second(t) == 0
  {
    MinuteSecond(t);
    var q := t / SecondsPerHour;
    assert t == q * SecondsPerHour + t % SecondsPerHour;
    ShiftMod300(t % SecondsPerHour, 12 * q);
    var p := t / FiveMinutes;
    assert t == p * FiveMinutes + t % FiveMinutes;
    ShiftMod60(t % FiveMinutes, 5 * p);
  }

  /** The next mark after a time off the grid has second 0. */
  lemma NextMarkSecond(t: int)
    ensures Second(t + FiveMinutes - t % FiveMinutes) == 0
  {
    var p := t / FiveMinutes;
    assert t + FiveMinutes - t % FiveMinutes == (p + 1) * FiveMinutes;
    ShiftMod60(0, 5 * (p + 1));
  }

  lemma ShiftMod300(b: int, k: int)
    ensures (b + k * FiveMinutes) % FiveMinutes == b % FiveMinutes
  {
  }

  lemma ShiftMod60(b: int, k: int)
    ensures (b + k * 60) % 60 == b % 60
  {
  }

  /** Away from a mark, or on a mark with no sub-second part, the result is
      the first five-minute mark at or after the input. */
  lemma FiveMinuteIsCeiling(date: DateTime)
    requires date.nanos == 0 || date.secs % FiveMinutes != 0
    ensures Instant(date) <= Instant(FiveMinuteIntervalStart(date))
    ensures Instant(FiveMinuteIntervalStart(date)) - FiveMinutes * NanosPerSecond < Instant(date)
  {
  }

  /** Off the grid the result is the next multiple of five minutes. */
  lemma FiveMinuteOffGrid(date: DateTime)
    requires date.secs % FiveMinutes != 0
    ensures FiveMinuteIntervalStart(date) == DateTime(date.secs - date.secs % FiveMinutes + FiveMinutes, 0)
  {
    var r := FiveMinuteIntervalStart(date);
    var p := date.secs / FiveMinutes;
    assert date.secs == p * FiveMinutes + date.secs % FiveMinutes;
    assert r.secs == (r.secs / FiveMinutes) * FiveMinutes;
    assert r.secs / FiveMinutes == p + 1;
  }

  /** On a mark with a sub-second part, the sub-second part is discarded, so
      the result lies just before the input. */
  lemma FiveMinuteTruncatesOnMark(date: DateTime)
    requires date.secs % FiveMinutes == 0 && date.nanos > 0
    ensures Instant(FiveMinuteIntervalStart(date)) == Instant(date) - date.nanos
  {
  }

  /** `get_hourly_interval_start`: an exact hour (minute, second and
      nanosecond all zero) is kept, anything else is truncated to the hour and
      moved one hour on. */
  function HourlyIntervalStart(date: DateTime): (r: DateTime)
    ensures r.nanos == 0 && r.secs % SecondsPerHour == 0
    ensures r == date <==> date.secs % SecondsPerHour == 0 && date.nanos == 0
    ensures Instant(date) <= Instant(r) < Instant(date) + SecondsPerHour * NanosPerSecond
  {
    MinuteSecond(date.secs);
    if Minute(date.secs) == 0 && Second(date.secs) == 0 && date.nanos == 0 then date
    else
      var hourStart := WithNanosecond(WithSecond(WithMinute(date, 0), 0), 0);
      AddSeconds(hourStart, SecondsPerHour)
  }

  /** `GetPowerDataParams::new`: both endpoints rounded with the interval's
      rounder, the interval in minutes, timestamps cast `as u64`. */
  function New(interval: PowerDataInterval): (r: Params)
    ensures interval.Every5Minutes? ==> r.interval == 5
    ensures interval.Hourly? ==> r.interval == 60
    ensures interval.Every5Minutes? ==>
      r.startTimestamp == AsU64(FiveMinuteIntervalStart(interval.startDateTime).secs) &&
      r.endTimestamp == AsU64(FiveMinuteIntervalStart(interval.endDateTime).secs)
    ensures interval.Hourly? ==>
      r.startTimestamp == AsU64(HourlyIntervalStart(interval.startDateTime).secs) &&
      r.endTimestamp == AsU64(HourlyIntervalStart(interval.endDateTime).secs)
  {
    match interval
    case Every5Minutes(start, end) =>
      Params(AsU64(FiveMinuteIntervalStart(start).secs), AsU64(FiveMinuteIntervalStart(end).secs), 5)
    case Hourly(start, end) =>
      Params(AsU64(HourlyIntervalStart(start).secs), AsU64(HourlyIntervalStart(end).secs), 60)
  }

  /** For times from the epoch on, the sent timestamps lie on the grid of
      the interval and no earlier than the requested endpoints. */
  lemma NewAligned(interval: PowerDataInterval)
    requires 0 <= interval.startDateTime.secs < 0x7000_0000_0000_0000
    requires 0 <= interval.endDateTime.secs < 0x7000_0000_0000_0000
    ensures var r := New(interval);
      var step := if interval.Every5Minutes? then FiveMinutes else SecondsPerHour;
      r.startTimestamp % step == 0 && r.endTimestamp % step == 0 &&
      interval.startDateTime.secs <= r.startTimestamp < interval.startDateTime.secs + step + 1 &&
      interval.endDateTime.secs <= r.endTimestamp < interval.endDateTime.secs + step + 1
  {
  }

  /** 1 January 2025 is day 20089 of the epoch. */
  lemma NewYear2025()
    ensures DaysFromCivil(Date(2025, 1, 1)) == 20089
  {
  }

  lemma SecondOfJanuary2025()
    ensures CivilFromDays(20090) == Date(2025, 1, 2)
  {
  }

  function At(day: int, h: int, m: int, s: int): DateTime {
    DateTime(day * SecondsPerDay + h * SecondsPerHour + m * SecondsPerMinute + s, 0)
  }

  /** The five-minute cases of the crate's tests, on 1 January 2025: an exact
      mark is kept, 14:03:45 becomes 14:05, 14:57:30 becomes 15:00 and
      23:58:59 becomes 00:00 on 2 January. */
  lemma FiveMinuteExact()
    ensures FiveMinuteIntervalStart(At(20089, 15, 0, 0)) == At(20089, 15, 0, 0)
  {
    var d := At(20089, 15, 0, 0);
    assert d.secs == 1735743600 && d.secs % FiveMinutes == 0;
    var r := FiveMinuteIntervalStart(d);
    assert r.secs == d.secs && r.nanos == d.nanos;
  }

  lemma FiveMinuteRoundUp()
    ensures FiveMinuteIntervalStart(At(20089, 14, 3, 45)) == At(20089, 14, 5, 0)
  {
    var d := At(20089, 14, 3, 45);
    assert d.secs == 1735740225 && d.secs % FiveMinutes == 225;
    FiveMinuteOffGrid(d);
    assert At(20089, 14, 5, 0) == DateTime(1735740300, 0);
  }

  lemma FiveMinuteNextHour()
    ensures FiveMinuteIntervalStart(At(20089, 14, 57, 30)) == At(20089, 15, 0, 0)
  {
    var d := At(20089, 14, 57, 30);
    assert d.secs == 1735743450 && d.secs % FiveMinutes == 150;
    FiveMinuteOffGrid(d);
    assert At(20089, 15, 0, 0) == DateTime(1735743600, 0);
  }

  lemma FiveMinuteNextDay()
    ensures FiveMinuteIntervalStart(At(20089, 23, 58, 59)) == At(20090, 0, 0, 0)
  {
    var d := At(20089, 23, 58, 59);
    assert d.secs == 1735775939 && d.secs % FiveMinutes == 239;
    FiveMinuteOffGrid(d);
    assert At(20090, 0, 0, 0) == DateTime(1735776000, 0);
  }

  /** Anywhere but an exact hour the result is the next multiple of an hour. */
  lemma HourlyOffGrid(date: DateTime)
    requires date.secs % SecondsPerHour != 0 || date.nanos != 0
    ensures HourlyIntervalStart(date) == DateTime(date.secs - date.secs % SecondsPerHour + SecondsPerHour, 0)
  {
    MinuteSecond(date.secs);
  }

  /** The hourly cases of the crate's tests: 15:00 is kept, 14:15:00 and
      14:00:30 become 15:00, and 23:30:59 becomes 00:00 on 2 January. */
  lemma HourlyExact()
    ensures HourlyIntervalStart(At(20089, 15, 0, 0)) == At(20089, 15, 0, 0)
  {
  }

  lemma HourlyRoundUp()
    ensures HourlyIntervalStart(At(20089, 14, 15, 0)) == At(20089, 15, 0, 0)
    ensures HourlyIntervalStart(At(20089, 14, 0, 30)) == At(20089, 15, 0, 0)
  {
    var a, b := At(20089, 14, 15, 0), At(20089, 14, 0, 30);
    assert a.secs == 1735740900 && a.secs % SecondsPerHour == 900;
    assert b.secs == 1735740030 && b.secs % SecondsPerHour == 30;
    HourlyOffGrid(a);
    HourlyOffGrid(b);
    assert At(20089, 15, 0, 0) == DateTime(1735743600, 0);
  }

  lemma HourlyNextDay()
    ensures HourlyIntervalStart(At(20089, 23, 30, 59)) == At(20090, 0, 0, 0)
  {
    var d := At(20089, 23, 30, 59);
    assert d.secs == 1735774259 && d.secs % SecondsPerHour == 1859;
    HourlyOffGrid(d);
    assert At(20090, 0, 0, 0) == DateTime(1735776000, 0);
  }
}
