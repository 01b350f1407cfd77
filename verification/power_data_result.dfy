/** The power-data response: the device returns a start time, an interval
    and one reading per interval, which the client expands into
    time-stamped entries. Times are whole seconds since the epoch and the
    local time zone is UTC. */
module PowerDataResult {
  import opened Wrappers
  import opened Bytes
  import opened Errors
  import opened Json
  import Decimal
  import opened Calendar

  /** `PowerDataResultRaw`, after `deserialize_power_data` has read `data`. */
  datatype Raw = Raw(data: seq<Option<u64>>, startTimestamp: i64, endTimestamp: i64, interval: u64)

  /** `PowerDataIntervalResult`: the interval's start and its reading in watts. */
  datatype Entry = Entry(startDateTime: int, power: Option<u64>)

  datatype PowerData = PowerData(startDateTime: int, endDateTime: int, entries: seq<Entry>, intervalLength: u64)

  function UnsupportedInterval(interval: nat): Error {
    Other("Unsupported interval duration: " + Decimal.NatToString(interval) + " minutes")
  }

  /** The interval in minutes as a step in seconds: only 5 and 60 are known. */
  function IntervalStep(interval: u64): (r: Result<int, Error>)
    ensures r.Ok? <==> interval == 5 || interval == 60
    ensures r.Ok? ==> r.value == interval * 60
    ensures r.Err? ==> r.error == UnsupportedInterval(interval)
  {
    match interval
    case 5 => Ok(300)
    case 60 => Ok(3600)
    case _ => Err(UnsupportedInterval(interval))
  }

  const StartUnmapped := "Failed to map start_timestamp to local time"
  const EndUnmapped := "Failed to map end_timestamp to local time"

  /** `try_into`: the step is checked first, so an unknown interval fails
      even for an empty `data`; then the start and the end must be times
      chrono can represent; entry `i` starts `i` steps after the start and
      carries the `i`-th reading. */
  method TryInto(raw: Raw) returns (r: Result<PowerData, Error>)
    ensures r.Ok? <==> IntervalStep(raw.interval).Ok? && InChronoRange(raw.startTimestamp) && InChronoRange(raw.endTimestamp)
    ensures IntervalStep(raw.interval).Err? ==> r == Err(UnsupportedInterval(raw.interval))
    ensures IntervalStep(raw.interval).Ok? && !InChronoRange(raw.startTimestamp) ==> r == Err(Other(StartUnmapped))
    ensures IntervalStep(raw.interval).Ok? && InChronoRange(raw.startTimestamp) && !InChronoRange(raw.endTimestamp) ==>
      r == Err(Other(EndUnmapped))
    ensures r.Ok? ==>
      r.value.startDateTime == raw.startTimestamp && r.value.endDateTime == raw.endTimestamp &&
      r.value.intervalLength == raw.interval && |r.value.entries| == |raw.data|
    ensures r.Ok? ==> forall i :: 0 <= i < |raw.data| ==>
      r.value.entries[i] == Entry(raw.startTimestamp + i * raw.interval * 60, raw.data[i])
  {
    var step :- IntervalStep(raw.interval);
    if !InChronoRange(raw.startTimestamp) {
      return Err(Other(StartUnmapped));
    }
    if !InChronoRange(raw.endTimestamp) {
      return Err(Other(EndUnmapped));
    }
    var localDateTime := raw.startTimestamp;
    var entries: seq<Entry> := [];
    for i := 0 to |raw.data|
      invariant |entries| == i
      invariant localDateTime == raw.startTimestamp + i * step
      invariant forall j :: 0 <= j < i ==> entries[j] == Entry(raw.startTimestamp + j * step, raw.data[j])
    {
      entries := entries + [Entry(localDateTime, raw.data[i])];
      localDateTime := localDateTime + step;
    }
    return Ok(PowerData(raw.startTimestamp, raw.endTimestamp, entries, raw.interval));
  }

  const I64Min := -0x8000_0000_0000_0000
  const I64Max := 0x7FFF_FFFF_FFFF_FFFF

  /** A number item: the -1 sentinel is a missing reading, other `i64`
      values must be non-negative. */
  function DecodePowerNumber(i: int): (r: Result<Option<u64>, Error>)
    ensures r.Ok? <==> i == -1 || 0 <= i <= I64Max
    ensures r == Ok(None) <==> i == -1
    ensures r.Ok? && r.value.Some? ==> r.value.value == i
    ensures I64Min <= i < -1 ==>
      r == Err(Serde("Negative value " + Decimal.IntToString(i) + " not allowed (except -1 sentinel)"))
    ensures !(I64Min <= i <= I64Max) ==> r == Err(Serde("Number out of i64 range"))
  {
    if I64Min <= i <= I64Max then
      if i == -1 then Ok(None)
      else if i >= 0 then Ok(Some(i as u64))
      else Err(Serde("Negative value " + Decimal.IntToString(i) + " not allowed (except -1 sentinel)"))
    else Err(Serde("Number out of i64 range"))
  }

  /** One item of the raw `data` array: null is a missing reading, numbers
      go through `DecodePowerNumber` (a float is never an `i64`), anything
      else is rejected with serde's message. */
  function DecodePowerValue(v: Json): (r: Result<Option<u64>, Error>)
    ensures r.Ok? <==> v.JNull? || (v.JInt? && DecodePowerNumber(v.i).Ok?)
    ensures r.Ok? && r.value.None? <==> v == JNull || v == JInt(-1)
    ensures r.Ok? && r.value.Some? ==> v == JInt(r.value.value)
    ensures v.JInt? ==> r == DecodePowerNumber(v.i)
    ensures v.JFloat? ==> r == Err(Serde("Number out of i64 range"))
    ensures !(v.JNull? || v.JInt? || v.JFloat?) ==>
      r == Err(Serde("Unexpected value in power data array: " + Serialize(v)))
  {
    match v
    case JNull => Ok(None)
    case JInt(i) => DecodePowerNumber(i)
    case JFloat(_) => Err(Serde("Number out of i64 range"))
    case _ => Err(Serde("Unexpected value in power data array: " + Serialize(v)))
  }

  /** Item `i` is the first one that fails to decode. */
  predicate FirstFailure(raw: seq<Json>, i: int)
    requires 0 <= i <= |raw|
  {
    forall j :: 0 <= j < i ==> DecodePowerValue(raw[j]).Ok?
  }

  /** `deserialize_power_data`: all or nothing, order-preserving, and the
      first bad item decides the error. */
  method DeserializePowerData(raw: seq<Json>) returns (r: Result<seq<Option<u64>>, Error>)
    ensures r.Ok? <==> forall i :: 0 <= i < |raw| ==> DecodePowerValue(raw[i]).Ok?
    ensures r.Ok? ==> |r.value| == |raw|
    ensures r.Ok? ==> forall i :: 0 <= i < |raw| ==> DecodePowerValue(raw[i]) == Ok(r.value[i])
    ensures r.Err? ==> exists i :: 0 <= i < |raw| && DecodePowerValue(raw[i]) == Err(r.error) && FirstFailure(raw, i)
  {
    var out: seq<Option<u64>> := [];
    for i := 0 to |raw|
      invariant |out| == i
      invariant forall j :: 0 <= j < i ==> DecodePowerValue(raw[j]) == Ok(out[j])
    {
      var item := DecodePowerValue(raw[i]);
      if item.Err? {
        return Err(item.error);
      }
      out := out + [item.value];
    }
    return Ok(out);
  }

  /** The sample response shape: null and -1 are gaps, other readings are kept. */
  lemma DecodeExamples()
    ensures DecodePowerValue(JNull) == Ok(None)
    ensures DecodePowerValue(JInt(-1)) == Ok(None)
    ensures DecodePowerValue(JInt(42)) == Ok(Some(42))
    ensures DecodePowerValue(JInt(-2)).Err?
    ensures DecodePowerValue(JStr("1")).Err?
  {
  }
}
