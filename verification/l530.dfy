/** The legacy client's colour-bulb builder: every colour setter
    re-validates the whole record and returns it or the first failure. */
module L530 {
  import opened Wrappers
  import opened Bytes
  import opened Errors
  import opened Colors

  datatype Params = Params(
    deviceOn: Option<bool>,
    brightness: Option<byte>,
    hue: Option<u16>,
    saturation: Option<byte>,
    colorTemperature: Option<u16>)

  function New(): (p: Params)
    ensures p.deviceOn.None? && p.brightness.None? && p.hue.None?
    ensures p.saturation.None? && p.colorTemperature.None?
  {
    Params(None, None, None, None, None)
  }

  /** Does not validate. */
  function On(p: Params): (r: Params)
    ensures r.deviceOn == Some(true)
    ensures r.(deviceOn := p.deviceOn) == p
  {
    p.(deviceOn := Some(true))
  }

  /** Does not validate. */
  function Off(p: Params): (r: Params)
    ensures r.deviceOn == Some(false)
    ensures r.(deviceOn := p.deviceOn) == p
  {
    p.(deviceOn := Some(false))
  }

  /** `device_on` does not count as a property here. */
  predicate NothingSet(p: Params) {
    p.brightness.None? && p.hue.None? && p.saturation.None? && p.colorTemperature.None?
  }

  predicate Mixed(p: Params) {
    p.colorTemperature.Some? && (p.hue.Some? || p.saturation.Some?)
  }

  predicate Unpaired(p: Params) {
    p.hue.Some? != p.saturation.Some?
  }

  predicate BrightnessOk(p: Params) {
    p.brightness.None? || 1 <= p.brightness.value <= 100
  }

  /** The colour part alone is consistent and in range. */
  predicate ColourOk(p: Params) {
    !Mixed(p) && !Unpaired(p)
    && (p.hue.None? || 1 <= p.hue.value <= 360)
    && (p.saturation.None? || 1 <= p.saturation.value <= 100)
    && (p.colorTemperature.None? || IsWhiteTemperature(p.colorTemperature.value))
  }

  /** `validate`: the record back unchanged, or the first failing check. */
  function Validate(p: Params): (r: Result<Params, Error>)
    ensures r.Ok? <==> !NothingSet(p) && BrightnessOk(p) && ColourOk(p)
    ensures r.Ok? ==> r.value == p
    ensures r.Err? ==> r.error.Validation?
  {
    if NothingSet(p) then
      Err(Validation("DeviceInfoParams", "requires at least one property"))
    else if Mixed(p) then
      Err(Validation("color_temperature", "cannot be set together with hue or saturation"))
    else if Unpaired(p) then
      Err(Validation("hue and saturation", "must be both set or unset"))
    else if p.brightness.Some? && !(1 <= p.brightness.value <= 100) then
      Err(Validation("brightness", "must be between 1 and 100"))
    else if p.hue.Some? && !(1 <= p.hue.value <= 360) then
      Err(Validation("hue", "must be between 1 and 360"))
    else if p.saturation.Some? && !(1 <= p.saturation.value <= 100) then
      Err(Validation("saturation", "must be between 1 and 100"))
    else if p.colorTemperature.Some? && !(2500 <= p.colorTemperature.value <= 6500) then
      Err(Validation("color_temperature", "must be between 2500 and 6500"))
    else Ok(p)
  }

  /** The three record-level checks come before the range checks, in this
      order. */
  lemma ValidateOrder(p: Params)
    ensures NothingSet(p) ==> Validate(p) == Err(Validation("DeviceInfoParams", "requires at least one property"))
    ensures !NothingSet(p) && Mixed(p) ==>
      Validate(p) == Err(Validation("color_temperature", "cannot be set together with hue or saturation"))
    ensures !NothingSet(p) && !Mixed(p) && Unpaired(p) ==>
      Validate(p) == Err(Validation("hue and saturation", "must be both set or unset"))
    ensures !NothingSet(p) && ColourOk(p) && !BrightnessOk(p) ==>
      Validate(p) == Err(Validation("brightness", "must be between 1 and 100"))
  {
  }

  function Brightness(p: Params, value: byte): (r: Result<Params, Error>)
    ensures r.Ok? <==> 1 <= value <= 100 && ColourOk(p)
    ensures r.Ok? ==> r.value.brightness == Some(value) && r.value.(brightness := p.brightness) == p
  {
    Validate(p.(brightness := Some(value)))
  }

  /** Copies the legacy preset. */
  function WithColor(p: Params, c: Color): (r: Result<Params, Error>)
    ensures r.Ok? ==> (r.value.hue, r.value.saturation, r.value.colorTemperature) == LegacyColorMap(c)
    ensures r.Ok? ==> r.value.deviceOn == p.deviceOn && r.value.brightness == p.brightness
  {
    var (h, s, t) := LegacyColorMap(c);
    Validate(p.(hue := h, saturation := s, colorTemperature := t))
  }

  /** Sets hue and saturation and clears the temperature. */
  function HueSaturation(p: Params, hue: u16, saturation: byte): (r: Result<Params, Error>)
    ensures r.Ok? <==> BrightnessOk(p) && 1 <= hue <= 360 && 1 <= saturation <= 100
    ensures r.Ok? ==> r.value == p.(hue := Some(hue), saturation := Some(saturation), colorTemperature := None)
  {
    Validate(p.(hue := Some(hue), saturation := Some(saturation), colorTemperature := None))
  }

  /** Sets the temperature and clears hue and saturation. */
  function ColorTemperature(p: Params, value: u16): (r: Result<Params, Error>)
    ensures r.Ok? <==> BrightnessOk(p) && IsWhiteTemperature(value)
    ensures r.Ok? ==> r.value == p.(hue := None, saturation := None, colorTemperature := Some(value))
  {
    Validate(p.(hue := None, saturation := None, colorTemperature := Some(value)))
  }

  /** Every legacy preset is accepted except dark red, whose hue 0 fails
      the range check. */
  lemma ColorPresetsValidate(p: Params, c: Color)
    requires BrightnessOk(p)
    ensures c != DarkRed ==> WithColor(p, c).Ok?
    ensures c == DarkRed ==> WithColor(p, c) == Err(Validation("hue", "must be between 1 and 360"))
  {
    LegacyColorMapAgrees(c);
    OnlyDarkRedHasZeroHue(c);
  }

  /** An accepted record sets exactly one kind of colour, or none. */
  lemma AcceptedIsOneKind(p: Params)
    requires Validate(p).Ok?
    ensures p.colorTemperature.Some? ==> p.hue.None? && p.saturation.None?
    ensures p.hue.Some? <==> p.saturation.Some?
  {
  }
}
