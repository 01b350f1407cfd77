/** The T310/T315 temperature and humidity history: the device sends four
    parallel arrays of quarter-hour averages, newest last, and a local
    time; the client pairs each sample with its quarter-hour and drops
    samples marked as missing. Times are whole seconds since the epoch,
    temperatures are kept in the device's tenths of a degree. */
module T31x {
  import opened Bytes
  import opened Calendar

  datatype TemperatureUnit = Celsius | Fahrenheit

  /** `TemperatureHumidityRecordsRaw`. */
  datatype RecordsRaw = RecordsRaw(
    localTime: i64,
    past24hHumidityException: seq<i16>,
    past24hHumidity: seq<i16>,
    past24hTempException: seq<i16>,
    past24hTemp: seq<i16>,
    tempUnit: TemperatureUnit)

  /** `TemperatureHumidityRecord`; the two temperatures are in tenths. */
  datatype Record = Record(datetime: int, humidityException: i8, humidity: byte, temperatureException: int, temperature: int)

  /** `TemperatureHumidityRecords`. */
  datatype Records = Records(datetime: int, records: seq<Record>, temperatureUnit: TemperatureUnit)

  /** One sample of the four arrays: humidity exception, humidity,
      temperature exception, temperature. */
  datatype Sample = Sample(humidityException: i16, humidity: i16, tempException: i16, temp: i16)

  const Quarter := 900
  const Missing := -1000

  function Min(a: int, b: int): int {
    if a <= b then a else b
  }

  /** The four arrays zipped, cut to the shortest one. */
  function Zip4(raw: RecordsRaw): (r: seq<Sample>)
    ensures |r| == Min(Min(|raw.past24hHumidityException|, |raw.past24hHumidity|),
                       Min(|raw.past24hTempException|, |raw.past24hTemp|))
    ensures forall k :: 0 <= k < |r| ==>
      r[k] == Sample(raw.past24hHumidityException[k], raw.past24hHumidity[k], raw.past24hTempException[k], raw.past24hTemp[k])
  {
    var n := Min(Min(|raw.past24hHumidityException|, |raw.past24hHumidity|),
                 Min(|raw.past24hTempException|, |raw.past24hTemp|));
    seq(n, k requires 0 <= k < n =>
      Sample(raw.past24hHumidityException[k], raw.past24hHumidity[k], raw.past24hTempException[k], raw.past24hTemp[k]))
  }

  /** A sample with the -1000 marker in any of its four values is missing. */
  predicate Present(s: Sample) {
    s.temp != Missing && s.tempException != Missing && s.humidity != Missing && s.humidityException != Missing
  }

  /** The record of a present sample: the humidities cast `as i8` and `as u8`. */
  function ToRecord(s: Sample, time: int): Record {
    Record(time, AsI8(s.humidityException), AsU8(s.humidity), s.tempException, s.temp)
  }

  /** The minute of the quarter-hour mark at or before minute `m`. */
  function IntervalMinute(m: int): (r: int)
    requires 0 <= m < 60
    ensures r % 15 == 0 && r <= m < r + 15
  {
    if m >= 45 then 45 else if m >= 30 then 30 else if m >= 15 then 15 else 0
  }

  /** The quarter-hour of the newest sample: the local time with its minute
      floored to a quarter and its seconds set to 0. */
  function Anchor(localTime: int): (r: int)
    ensures r == localTime - localTime % Quarter
  {
    var d := DateTime(localTime, 0);
    MinuteSecond(localTime);
    QuarterOfHour(localTime);
    WithSecond(WithMinute(d, IntervalMinute(Minute(localTime))), 0).secs
  }

  lemma QuarterOfHour(t: int)
    ensures t % Quarter == (Minute(t) % 15) * 60 + Second(t)
  {
    MinuteSecond(t);
    var q := t / SecondsPerHour;
    var h := t % SecondsPerHour;
    assert t == h + 4 * q * Quarter;
    ShiftMod900(h, 4 * q);
    QuarterOfOffset(Minute(t), Second(t));
  }

  lemma ShiftMod900(b: int, k: int)
    ensures (b + k * Quarter) % Quarter == b % Quarter
  {
  }

  /** Within the hour, the quarter-hour offset of minute `m` and second `s`. */
  lemma QuarterOfOffset(m: int, s: int)
    requires 0 <= m < 60 && 0 <= s < 60
    ensures (m * 60 + s) % Quarter == (m % 15) * 60 + s
  {
    var a := m / 15;
    var b := m % 15;
    assert m * 60 + s == a * Quarter + (b * 60 + s);
    assert 0 <= b * 60 + s < Quarter;
  }

  /** The quarter-hour `n` quarters before `last`. */
  function QuarterBefore(last: int, n: int): int {
    last - Quarter * n
  }

  /** The records of `els`, oldest first, when the last sample belongs to
      the quarter-hour `last` and each earlier one to the quarter before. */
  function Chronological(els: seq<Sample>, last: int): (r: seq<Record>)
    ensures |r| <= |els|
    decreases |els|
  {
    if |els| == 0 then []
    else
      var head := if Present(els[0]) then [ToRecord(els[0], QuarterBefore(last, |els| - 1))] else [];
      head + Chronological(els[1..], last)
  }

  function Reversed<T>(s: seq<T>): (r: seq<T>)
    ensures |r| == |s|
    ensures forall k :: 0 <= k < |s| ==> r[k] == s[|s| - 1 - k]
  {
    if |s| == 0 then [] else Reversed(s[1..]) + [s[0]]
  }

  /** `records.reverse()`, in place. */
  method Reverse<T>(a: array<T>)
    modifies a
    ensures a[..] == Reversed(old(a[..]))
  {
    var i, j := 0, a.Length - 1;
    while i < j
      invariant 0 <= i && j == a.Length - 1 - i && i <= a.Length - i
      invariant forall k :: 0 <= k < i ==> a[k] == old(a[a.Length - 1 - k]) && a[a.Length - 1 - k] == old(a[k])
      invariant forall k :: i <= k < a.Length - i ==> a[k] == old(a[k])
    {
      a[i], a[j] := a[j], a[i];
      i, j := i + 1, j - 1;
    }
  }

  /** `TemperatureHumidityRecords::try_from`: walk the zipped samples newest
      first, keep the present ones and put them back in chronological
      order. */
  method TryFrom(raw: RecordsRaw) returns (r: Records)
    ensures r.datetime == raw.localTime && r.temperatureUnit == raw.tempUnit
    ensures r.records == Chronological(Zip4(raw), Anchor(raw.localTime))
  {
    var datetime := raw.localTime;
    var samples := Zip4(raw);
    var records := NewestFirst(samples, Anchor(datetime));
    var a := new Record[|records|](k requires 0 <= k < |records| => records[k]);
    assert a[..] == records;
    Reverse(a);
    ReversedTwice(Chronological(samples, Anchor(datetime)));
    return Records(datetime, a[..], raw.tempUnit);
  }

  /** The loop of `try_from`: from the newest sample back, moving the
      quarter-hour back after every sample, the records of the present
      ones, newest first. */
  method NewestFirst(samples: seq<Sample>, last: int) returns (records: seq<Record>)
    ensures records == Reversed(Chronological(samples, last))
  {
    var intervalTime := last;
    var n := |samples|;
    records := [];
    var i := n;
    while i > 0
      invariant 0 <= i <= n
      invariant intervalTime == last - Quarter * (n - i)
      invariant records == Reversed(Chronological(samples[i..], last))
    {
      var s := samples[i - 1];
      if Present(s) {
        records := records + [ToRecord(s, intervalTime)];
      }
      ChronologicalStep(samples, i, last);
      intervalTime := intervalTime - Quarter;
      i := i - 1;
    }
  }

  /** One step of the backwards walk, seen from the front. */
  lemma ChronologicalStep(samples: seq<Sample>, i: int, last: int)
    requires 0 < i <= |samples|
    ensures Reversed(Chronological(samples[i - 1..], last)) ==
      Reversed(Chronological(samples[i..], last)) +
      (if Present(samples[i - 1]) then [ToRecord(samples[i - 1], QuarterBefore(last, |samples| - i))] else [])
  {
    var els := samples[i - 1..];
    assert els[1..] == samples[i..];
    var head := if Present(els[0]) then [ToRecord(els[0], QuarterBefore(last, |els| - 1))] else [];
    assert Chronological(els, last) == head + Chronological(samples[i..], last);
    ReversedAppend(head, Chronological(samples[i..], last));
  }

  lemma ReversedAppend<T>(a: seq<T>, b: seq<T>)
    ensures Reversed(a + b) == Reversed(b) + Reversed(a)
  {
  }

  lemma ReversedTwice<T>(s: seq<T>)
    ensures Reversed(Reversed(s)) == s
  {
  }

  /** Every record lies on the quarter-hour grid of `last`, within the
      `n` quarters that end at `last`. */
  predicate OnGrid(r: seq<Record>, last: int, n: int) {
    forall k :: 0 <= k < |r| ==>
      (last - r[k].datetime) % Quarter == 0 && last - Quarter * (n - 1) <= r[k].datetime <= last
  }

  predicate Increasing(r: seq<Record>) {
    forall k :: 0 <= k < |r| - 1 ==> r[k].datetime < r[k + 1].datetime
  }

  /** The records lie on the grid of the samples' window and are strictly
      increasing in time. */
  lemma {:induction false} ChronologicalOrdered(els: seq<Sample>, last: int)
    ensures OnGrid(Chronological(els, last), last, |els|)
    ensures Increasing(Chronological(els, last))
    decreases |els|
  {
    if |els| > 0 {
      ChronologicalOrdered(els[1..], last);
      var rest := Chronological(els[1..], last);
      QuarterMultiple(|els| - 1);
      var head := if Present(els[0]) then [ToRecord(els[0], QuarterBefore(last, |els| - 1))] else [];
      var r := head + rest;
      assert Chronological(els, last) == r;
      forall k | 0 <= k < |r|
        ensures (last - r[k].datetime) % Quarter == 0 && last - Quarter * (|els| - 1) <= r[k].datetime <= last
      {
        if k >= |head| {
          assert r[k] == rest[k - |head|];
        }
      }
      forall k | 0 <= k < |r| - 1
        ensures r[k].datetime < r[k + 1].datetime
      {
        if k >= |head| {
          assert r[k] == rest[k - |head|] && r[k + 1] == rest[k + 1 - |head|];
        } else {
          assert r[k + 1] == rest[0];
        }
      }
    }
  }

  lemma QuarterMultiple(n: int)
    ensures (Quarter * n) % Quarter == 0
  {
  }

  /** With no missing sample, every sample gives a record and consecutive
      records are exactly one quarter-hour apart. */
  lemma {:induction false} ChronologicalComplete(els: seq<Sample>, last: int)
    requires forall k :: 0 <= k < |els| ==> Present(els[k])
    ensures var r := Chronological(els, last);
      |r| == |els| && forall k :: 0 <= k < |els| ==> r[k] == ToRecord(els[k], QuarterBefore(last, |els| - 1 - k))
    decreases |els|
  {
    if |els| > 0 {
      ChronologicalComplete(els[1..], last);
    }
  }

  /** The indices of the present samples from `i` on, in increasing order. */
  function PresentFrom(els: seq<Sample>, i: nat): (r: seq<nat>)
    requires i <= |els|
    ensures forall k :: 0 <= k < |r| ==> i <= r[k] < |els| && Present(els[r[k]])
    ensures forall k :: 0 <= k < |r| - 1 ==> r[k] < r[k + 1]
    ensures forall j :: i <= j < |els| && Present(els[j]) ==> j in r
    decreases |els| - i
  {
    if i == |els| then []
    else (if Present(els[i]) then [i] else []) + PresentFrom(els, i + 1)
  }

  /** Record `k` is the record of sample `idx[k]` at its quarter-hour. */
  predicate Selects(recs: seq<Record>, els: seq<Sample>, idx: seq<nat>, last: int) {
    |recs| == |idx| &&
    forall k :: 0 <= k < |idx| ==> idx[k] < |els| && recs[k] == ToRecord(els[idx[k]], QuarterBefore(last, |els| - 1 - idx[k]))
  }

  /** The records are exactly the present samples, in their order, each at
      its own quarter-hour: nothing is invented and only missing samples
      drop out. */
  lemma {:induction false} ChronologicalSelects(els: seq<Sample>, i: nat, last: int)
    requires i <= |els|
    ensures Selects(Chronological(els[i..], last), els, PresentFrom(els, i), last)
    decreases |els| - i
  {
    if i < |els| {
      ChronologicalSelects(els, i + 1, last);
      var tail, rest := PresentFrom(els, i + 1), Chronological(els[i + 1..], last);
      var head := if Present(els[i]) then [i] else [];
      var first := if Present(els[i]) then [ToRecord(els[i], QuarterBefore(last, |els| - 1 - i))] else [];
      assert els[i..][1..] == els[i + 1..];
      assert els[i..][0] == els[i];
      assert PresentFrom(els, i) == head + tail;
      assert Chronological(els[i..], last) == first + rest;
      SelectsConcat(first, rest, els, head, tail, last);
    }
  }

  /** Selections of disjoint parts concatenate. */
  lemma SelectsConcat(r1: seq<Record>, r2: seq<Record>, els: seq<Sample>, i1: seq<nat>, i2: seq<nat>, last: int)
    requires Selects(r1, els, i1, last) && Selects(r2, els, i2, last)
    ensures Selects(r1 + r2, els, i1 + i2, last)
  {
    var idx, recs := i1 + i2, r1 + r2;
    forall k | 0 <= k < |idx|
      ensures idx[k] < |els| && recs[k] == ToRecord(els[idx[k]], QuarterBefore(last, |els| - 1 - idx[k]))
    {
      if k < |i1| {
        assert idx[k] == i1[k] && recs[k] == r1[k];
      } else {
        assert idx[k] == i2[k - |i1|] && recs[k] == r2[k - |i1|];
      }
    }
  }

  /** A missing newest sample only moves the window one quarter back. */
  lemma {:induction false} ChronologicalMissingLast(els: seq<Sample>, last: int)
    requires |els| > 0 && !Present(els[|els| - 1])
    ensures Chronological(els, last) == Chronological(els[..|els| - 1], QuarterBefore(last, 1))
    decreases |els|
  {
    if |els| > 1 {
      ChronologicalMissingLast(els[1..], last);
      assert els[1..][..|els| - 2] == els[..|els| - 1][1..];
      assert QuarterBefore(last, |els| - 1) == QuarterBefore(QuarterBefore(last, 1), |els| - 2);
    }
  }

  /** The crate's sample: local time 2023-05-29 14:52:24 UTC, six samples. */
  const SampleTime := 1685371944

  function SampleRaw(lastHumidityException: i16, lastHumidity: i16, lastTempException: i16, lastTemp: i16): RecordsRaw {
    RecordsRaw(SampleTime, [0, 0, 0, 0, 0, lastHumidityException], [49, 50, 50, 55, 53, lastHumidity],
      [0, 0, 0, 0, 0, lastTempException], [196, 195, 194, 162, 164, lastTemp], Celsius)
  }

  lemma SampleDate()
    ensures CivilFromDays(SampleTime / SecondsPerDay) == Date(2023, 5, 29)
    ensures SampleTime % SecondsPerDay == 14 * SecondsPerHour + 52 * SecondsPerMinute + 24
  {
    assert SampleTime / SecondsPerDay == 19506;
    assert (19506 + 719468) / 146097 == 5;
    assert YearOfEra(8489) == 23;
    assert DayOfEra(23, 0) == 8400;
    assert MonthOfDay(89) == 2;
    assert DayOfYear(2, 1) == 61;
  }

  /** The newest sample belongs to 14:45, so six samples cover 13:30 to 14:45. */
  lemma SampleAnchor()
    ensures Anchor(SampleTime) == 1685371500
    ensures Anchor(SampleTime) % SecondsPerDay == 14 * SecondsPerHour + 45 * SecondsPerMinute
  {
    assert SampleTime % Quarter == 444;
  }

  /** All six samples present: six records, 13:30 to 14:45, in order. */
  lemma CompleteSample()
    ensures Chronological(Zip4(SampleRaw(0, 52, 0, 165)), Anchor(SampleTime)) == [
      Record(1685367000, 0, 49, 0, 196), Record(1685367900, 0, 50, 0, 195),
      Record(1685368800, 0, 50, 0, 194), Record(1685369700, 0, 55, 0, 162),
      Record(1685370600, 0, 53, 0, 164), Record(1685371500, 0, 52, 0, 165)]
  {
    SampleAnchor();
    var els := Zip4(SampleRaw(0, 52, 0, 165));
    ChronologicalComplete(els, 1685371500);
  }

  /** The newest quarter still in progress (all four values -1000): five
      records, 13:30 to 14:30; the missing sample still uses up 14:45. */
  lemma InProgressSample()
    ensures Chronological(Zip4(SampleRaw(-1000, -1000, -1000, -1000)), Anchor(SampleTime)) == [
      Record(1685367000, 0, 49, 0, 196), Record(1685367900, 0, 50, 0, 195),
      Record(1685368800, 0, 50, 0, 194), Record(1685369700, 0, 55, 0, 162),
      Record(1685370600, 0, 53, 0, 164)]
  {
    SampleAnchor();
    var els := Zip4(SampleRaw(-1000, -1000, -1000, -1000));
    ChronologicalMissingLast(els, 1685371500);
    ChronologicalComplete(els[..5], 1685370600);
  }
}
