/** The thermostatic radiator valve's settings builder: seven single-field
    setters, each followed by the offset range check. */
module Trv {
  import opened Wrappers
  import opened Bytes
  import opened Errors

  datatype Params = Params(
    targetTemp: Option<byte>,
    frostProtectionOn: Option<bool>,
    childProtection: Option<bool>,
    tempOffset: Option<i8>,
    minTemp: Option<byte>,
    minControlTemp: Option<byte>,
    maxControlTemp: Option<byte>)

  function New(): (p: Params)
    ensures p.targetTemp.None? && p.frostProtectionOn.None? && p.childProtection.None?
    ensures p.tempOffset.None? && p.minTemp.None? && p.minControlTemp.None? && p.maxControlTemp.None?
  {
    Params(None, None, None, None, None, None, None)
  }

  predicate OffsetOk(p: Params) {
    p.tempOffset.None? || -10 <= p.tempOffset.value <= 10
  }

  /** `validate`: only the temperature offset is constrained. */
  function Validate(p: Params): (r: Result<Params, Error>)
    ensures r.Ok? <==> OffsetOk(p)
    ensures r.Ok? ==> r.value == p
    ensures r.Err? ==> r.error == Validation("temp_offset", "must be between -10 and 10")
  {
    if p.tempOffset.Some? && (p.tempOffset.value < -10 || p.tempOffset.value > 10) then
      Err(Validation("temp_offset", "must be between -10 and 10"))
    else Ok(p)
  }

  function TargetTemp(p: Params, value: byte): (r: Result<Params, Error>)
    ensures r.Ok? <==> OffsetOk(p)
    ensures r.Ok? ==> r.value == p.(targetTemp := Some(value))
  {
    Validate(p.(targetTemp := Some(value)))
  }

  function FrostProtectionOn(p: Params, value: bool): (r: Result<Params, Error>)
    ensures r.Ok? <==> OffsetOk(p)
    ensures r.Ok? ==> r.value == p.(frostProtectionOn := Some(value))
  {
    Validate(p.(frostProtectionOn := Some(value)))
  }

  function ChildProtection(p: Params, value: bool): (r: Result<Params, Error>)
    ensures r.Ok? <==> OffsetOk(p)
    ensures r.Ok? ==> r.value == p.(childProtection := Some(value))
  {
    Validate(p.(childProtection := Some(value)))
  }

  /** The only setter whose own argument can fail the check. */
  function TempOffset(p: Params, value: i8): (r: Result<Params, Error>)
    ensures r.Ok? <==> -10 <= value <= 10
    ensures r.Ok? ==> r.value == p.(tempOffset := Some(value))
  {
    Validate(p.(tempOffset := Some(value)))
  }

  function MinTemp(p: Params, value: byte): (r: Result<Params, Error>)
    ensures r.Ok? <==> OffsetOk(p)
    ensures r.Ok? ==> r.value == p.(minTemp := Some(value))
  {
    Validate(p.(minTemp := Some(value)))
  }

  function MinControlTemp(p: Params, value: byte): (r: Result<Params, Error>)
    ensures r.Ok? <==> OffsetOk(p)
    ensures r.Ok? ==> r.value == p.(minControlTemp := Some(value))
  {
    Validate(p.(minControlTemp := Some(value)))
  }

  function MaxControlTemp(p: Params, value: byte): (r: Result<Params, Error>)
    ensures r.Ok? <==> OffsetOk(p)
    ensures r.Ok? ==> r.value == p.(maxControlTemp := Some(value))
  {
    Validate(p.(maxControlTemp := Some(value)))
  }

  /** Starting from `new`, every setter but `temp_offset` succeeds
      whatever its value, so a builder fails only through its offset. */
  lemma SettersFromNewSucceed(t: byte, b: bool)
    ensures TargetTemp(New(), t).Ok? && FrostProtectionOn(New(), b).Ok? && ChildProtection(New(), b).Ok?
    ensures MinTemp(New(), t).Ok? && MinControlTemp(New(), t).Ok? && MaxControlTemp(New(), t).Ok?
  {
  }
}
