/** The on/off builder shared by plugs and other simple devices, in the
    current crate and in the legacy client. */
module GenericDevice {
  import opened Wrappers
  import opened Errors

  datatype Params = Params(deviceOn: Option<bool>)

  /** `validate` of the current crate. */
  function Validate(p: Params): (r: Result<Params, Error>)
    ensures r.Ok? <==> p.deviceOn.Some?
    ensures r.Ok? ==> r.value == p
    ensures r.Err? ==> r.error == Validation("DeviceInfoParams", "Requires at least one property")
  {
    if p.deviceOn.None? then Err(Validation("DeviceInfoParams", "Requires at least one property"))
    else Ok(p)
  }

  /** `device_on(v)` of the current crate never fails. */
  function DeviceOn(value: bool): (r: Result<Params, Error>)
    ensures r == Ok(Params(Some(value)))
  {
    Validate(Params(Some(value)))
  }

  /** `validate` of the legacy client, an untyped error. */
  function LegacyValidate(p: Params): (r: Result<Params, Error>)
    ensures r.Ok? <==> p.deviceOn.Some?
    ensures r.Ok? ==> r.value == p
    ensures r.Err? ==> r.error == Other("DeviceInfoParams requires at least one property")
  {
    if p.deviceOn.None? then Err(Other("DeviceInfoParams requires at least one property"))
    else Ok(p)
  }

  /** `device_on(v)` of the legacy client never fails. */
  function LegacyDeviceOn(value: bool): (r: Result<Params, Error>)
    ensures r == Ok(Params(Some(value)))
  {
    LegacyValidate(Params(Some(value)))
  }
}
