/** The energy-data response: one reading per interval from a start time,
    expanded into time-stamped entries. Times are whole seconds since the
    epoch and the local time zone is UTC. */
module EnergyDataResult {
  import opened Wrappers
  import opened Bytes
  import opened Errors
  import opened Calendar
  import Decimal

  /** `EnergyDataResultRaw`. */
  datatype Raw = Raw(localTime: NaiveDateTime, data: seq<u64>, startTimestamp: i64, interval: u64)

  /** `EnergyDataIntervalResult`: the interval's start and its energy in watt-hours. */
  datatype Entry = Entry(startDateTime: int, energy: u64)

  datatype EnergyData = EnergyData(localTime: NaiveDateTime, startDateTime: int, entries: seq<Entry>, intervalLength: u64)

  predicate Supported(interval: int) {
    interval == 60 || interval == 1440 || interval == 43200
  }

  function UnsupportedInterval(interval: nat): Error {
    Other("Unsupported interval duration: " + Decimal.NatToString(interval) + " minutes")
  }

  /** One step of the loop: an hour, a day or a calendar month. */
  function Advance(t: int, interval: u64): (r: Result<int, Error>)
    ensures r.Ok? <==> Supported(interval)
    ensures r.Err? ==> r.error == UnsupportedInterval(interval)
    ensures interval == 60 ==> r == Ok(t + SecondsPerHour)
    ensures interval == 1440 ==> r == Ok(t + SecondsPerDay)
    ensures interval == 43200 ==> r == Ok(AddOneMonth(t))
  {
    match interval
    case 60 => Ok(t + SecondsPerHour)
    case 1440 => Ok(t + SecondsPerDay)
    case 43200 => Ok(AddOneMonth(t))
    case _ => Err(UnsupportedInterval(interval))
  }

  /** The start of entry `k`: `k` steps after `start`. */
  function EntryTime(start: int, interval: u64, k: nat): int
    requires Supported(interval)
  {
    if k == 0 then start else Advance(EntryTime(start, interval, k - 1), interval).value
  }

  const StartUnmapped := "Failed to map start_timestamp to local time"

  /** `try_into`: a start chrono cannot represent is refused first; the
      interval is only checked when a step is taken, so an empty `data` is
      accepted whatever the interval. */
  method TryInto(raw: Raw) returns (r: Result<EnergyData, Error>)
    ensures r.Ok? <==> InChronoRange(raw.startTimestamp) && (|raw.data| == 0 || Supported(raw.interval))
    ensures !InChronoRange(raw.startTimestamp) ==> r == Err(Other(StartUnmapped))
    ensures InChronoRange(raw.startTimestamp) && r.Err? ==> r.error == UnsupportedInterval(raw.interval)
    ensures r.Ok? ==>
      r.value.localTime == raw.localTime && r.value.startDateTime == raw.startTimestamp &&
      r.value.intervalLength == raw.interval && |r.value.entries| == |raw.data|
    ensures r.Ok? ==> forall i :: 0 <= i < |raw.data| ==> r.value.entries[i].energy == raw.data[i]
    ensures r.Ok? && Supported(raw.interval) ==> forall i :: 0 <= i < |raw.data| ==>
      r.value.entries[i].startDateTime == EntryTime(raw.startTimestamp, raw.interval, i)
  {
    if !InChronoRange(raw.startTimestamp) {
      return Err(Other(StartUnmapped));
    }
    var localDateTime := raw.startTimestamp;
    var entries: seq<Entry> := [];
    for i := 0 to |raw.data|
      invariant |entries| == i
      invariant i > 0 ==> Supported(raw.interval)
      invariant forall j :: 0 <= j < i ==> entries[j].energy == raw.data[j]
      invariant i > 0 ==> localDateTime == EntryTime(raw.startTimestamp, raw.interval, i)
      invariant i > 0 ==> forall j :: 0 <= j < i ==> entries[j].startDateTime == EntryTime(raw.startTimestamp, raw.interval, j)
      invariant i == 0 ==> localDateTime == raw.startTimestamp
    {
      entries := entries + [Entry(localDateTime, raw.data[i])];
      localDateTime :- Advance(localDateTime, raw.interval);
    }
    return Ok(EnergyData(raw.localTime, raw.startTimestamp, entries, raw.interval));
  }

  /** Hourly entries are exactly one hour apart. */
  lemma {:induction false} HourlyEntryTime(start: int, k: nat)
    ensures EntryTime(start, 60, k) == start + k * SecondsPerHour
  {
    if k > 0 {
      HourlyEntryTime(start, k - 1);
    }
  }

  /** Daily entries are exactly one day apart. */
  lemma {:induction false} DailyEntryTime(start: int, k: nat)
    ensures EntryTime(start, 1440, k) == start + k * SecondsPerDay
  {
    if k > 0 {
      DailyEntryTime(start, k - 1);
    }
  }

  /** Monthly entries keep the start's time of day. */
  lemma {:induction false} MonthlyEntryTime(start: int, k: nat)
    ensures EntryTime(start, 43200, k) % SecondsPerDay == start % SecondsPerDay
  {
    if k > 0 {
      var prev := EntryTime(start, 43200, k - 1);
      MonthlyEntryTime(start, k - 1);
      var next := AddOneMonth(prev);
      assert next % SecondsPerDay == prev % SecondsPerDay;
      assert EntryTime(start, 43200, k) == next;
    }
  }
}
