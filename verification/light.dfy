/** The dimmable-light builder of the current crate. */
module Light {
  import opened Wrappers
  import opened Bytes
  import opened Errors
  import opened Json

  datatype Params = Params(deviceOn: Option<bool>, brightness: Option<byte>)

  function New(): (p: Params)
    ensures p.deviceOn.None? && p.brightness.None?
  {
    Params(None, None)
  }

  function On(p: Params): (r: Params)
    ensures r.deviceOn == Some(true) && r.brightness == p.brightness
  {
    p.(deviceOn := Some(true))
  }

  function Off(p: Params): (r: Params)
    ensures r.deviceOn == Some(false) && r.brightness == p.brightness
  {
    p.(deviceOn := Some(false))
  }

  /** Stores the value without checking it. */
  function Brightness(p: Params, value: byte): (r: Params)
    ensures r.brightness == Some(value) && r.deviceOn == p.deviceOn
  {
    p.(brightness := Some(value))
  }

  predicate Acceptable(p: Params) {
    (p.deviceOn.Some? || p.brightness.Some?) && (p.brightness.None? || 1 <= p.brightness.value <= 100)
  }

  function Validate(p: Params): (r: Result<(), Error>)
    ensures r.Ok? <==> Acceptable(p)
    ensures (r == Err(Validation("DeviceInfoParams", "requires at least one property"))) <==>
              p.deviceOn.None? && p.brightness.None?
    ensures (r == Err(Validation("brightness", "must be between 1 and 100"))) <==>
              p.brightness.Some? && !(1 <= p.brightness.value <= 100)
  {
    if p.deviceOn.None? && p.brightness.None? then
      Err(Validation("DeviceInfoParams", "requires at least one property"))
    else if p.brightness.Some? && !(1 <= p.brightness.value <= 100) then
      Err(Validation("brightness", "must be between 1 and 100"))
    else Ok(())
  }

  function Payload(p: Params): Json {
    JObj(OptMember("device_on", OptBool(p.deviceOn)) + OptMember("brightness", OptInt(p.brightness)))
  }

  /** `send`: a request body only for an acceptable builder, and the
      validation error otherwise. */
  function Send(p: Params): (r: Result<Json, Error>)
    ensures r.Ok? <==> Acceptable(p)
    ensures r.Ok? ==> r.value == Payload(p)
    ensures r.Err? ==> Validate(p) == Err(r.error)
  {
    var _ :- Validate(p);
    Ok(Payload(p))
  }

  /** The builder's own tests: nothing set, and brightness 0 or 101. */
  lemma SendRejects()
    ensures Send(New()) == Err(Validation("DeviceInfoParams", "requires at least one property"))
    ensures Send(Brightness(New(), 0)) == Err(Validation("brightness", "must be between 1 and 100"))
    ensures Send(Brightness(New(), 101)) == Err(Validation("brightness", "must be between 1 and 100"))
  {
  }

  /** Turning the light on or off alone is always sent, with only that
      field in the body. */
  lemma OnOffAlone(on: bool)
    ensures var p := if on then On(New()) else Off(New());
      Send(p) == Ok(JObj([("device_on", JBool(on))]))
  {
    var p := if on then On(New()) else Off(New());
    assert OptMember("device_on", OptBool(p.deviceOn)) == [("device_on", JBool(on))];
    assert OptMember("brightness", OptInt(p.brightness)) == [];
    assert [("device_on", JBool(on))] + [] == [("device_on", JBool(on))];
  }
}

/** The legacy client's dimmable-bulb parameters. */
module L510 {
  import opened Wrappers
  import opened Bytes
  import opened Errors

  datatype Params = Params(deviceOn: Option<bool>, brightness: Option<byte>)

  /** `validate`: brightness is required, even when `device_on` is set, and
      must be in 1..=100. */
  function Validate(p: Params): (r: Result<Params, Error>)
    ensures r.Ok? <==> p.brightness.Some? && 1 <= p.brightness.value <= 100
    ensures r.Ok? ==> r.value == p
    ensures p.brightness.None? ==> r == Err(Other("DeviceInfoParams requires at least one property"))
    ensures p.brightness.Some? && r.Err? ==> r == Err(Other("'brightness' must be between 1 and 100"))
  {
    if p.brightness.None? then Err(Other("DeviceInfoParams requires at least one property"))
    else if !(1 <= p.brightness.value <= 100) then Err(Other("'brightness' must be between 1 and 100"))
    else Ok(p)
  }

  /** `brightness(v)`: only brightness set, `device_on` left at `None`. */
  function Brightness(value: byte): (r: Result<Params, Error>)
    ensures r.Ok? <==> 1 <= value <= 100
    ensures r.Ok? ==> r.value == Params(None, Some(value))
  {
    Validate(Params(None, Some(value)))
  }
}
