/** The builder behind the colour-light `set` API: record-updating setters
    and the ordered checks run before the request is sent. */
module ColorLight {
  import opened Wrappers
  import opened Bytes
  import opened Errors
  import opened Json
  import opened Colors

  datatype Params = Params(
    deviceOn: Option<bool>,
    brightness: Option<byte>,
    hue: Option<u16>,
    saturation: Option<byte>,
    colorTemperature: Option<u16>)

  const AtLeastOne := "requires at least one property"
  const BrightnessRange := "must be between 1 and 100"
  const HueRange := "must be between 1 and 360"
  const SaturationRange := "must be between 1 and 100"
  const TemperatureRange := "must be between 2500 and 6500"

  /** The default builder: nothing set. */
  function New(): (p: Params)
    ensures p.deviceOn.None? && p.brightness.None? && p.hue.None?
    ensures p.saturation.None? && p.colorTemperature.None?
  {
    Params(None, None, None, None, None)
  }

  function On(p: Params): (r: Params)
    ensures r.deviceOn == Some(true)
    ensures r.(deviceOn := p.deviceOn) == p
  {
    p.(deviceOn := Some(true))
  }

  function Off(p: Params): (r: Params)
    ensures r.deviceOn == Some(false)
    ensures r.(deviceOn := p.deviceOn) == p
  {
    p.(deviceOn := Some(false))
  }

  /** Stores the brightness without checking it. */
  function Brightness(p: Params, value: byte): (r: Params)
    ensures r.brightness == Some(value)
    ensures r.(brightness := p.brightness) == p
  {
    p.(brightness := Some(value))
  }

  /** Copies the preset's three components. */
  function WithColor(p: Params, c: Color): (r: Params)
    ensures r.deviceOn == p.deviceOn && r.brightness == p.brightness
    ensures (r.hue, r.saturation, r.colorTemperature) == ColorMap(c)
  {
    var (h, s, t) := ColorMap(c);
    p.(hue := h, saturation := s, colorTemperature := t)
  }

  /** Sets hue and saturation and forces the temperature to 0. */
  function HueSaturation(p: Params, hue: u16, saturation: byte): (r: Params)
    ensures r.hue == Some(hue) && r.saturation == Some(saturation) && r.colorTemperature == Some(0)
    ensures r.deviceOn == p.deviceOn && r.brightness == p.brightness
  {
    p.(hue := Some(hue), saturation := Some(saturation), colorTemperature := Some(0))
  }

  /** Sets the temperature and forces hue 0 and saturation 100. */
  function ColorTemperature(p: Params, value: u16): (r: Params)
    ensures r.hue == Some(0) && r.saturation == Some(100) && r.colorTemperature == Some(value)
    ensures r.deviceOn == p.deviceOn && r.brightness == p.brightness
  {
    p.(hue := Some(0), saturation := Some(100), colorTemperature := Some(value))
  }

  predicate NothingSet(p: Params) {
    p.deviceOn.None? && p.brightness.None? && p.hue.None? && p.saturation.None? && p.colorTemperature.None?
  }

  predicate BrightnessOk(p: Params) {
    p.brightness.None? || 1 <= p.brightness.value <= 100
  }

  /** The hue range applies only while no colour temperature is in force. */
  predicate HueOk(p: Params) {
    p.hue.None? || p.colorTemperature.UnwrapOr(0) != 0 || 1 <= p.hue.value <= 360
  }

  predicate SaturationOk(p: Params) {
    p.saturation.None? || 1 <= p.saturation.value <= 100
  }

  /** The temperature range applies only to white settings: hue 0 or
      absent and saturation 100 or absent. */
  predicate TemperatureOk(p: Params) {
    p.colorTemperature.None? || p.hue.UnwrapOr(0) != 0 || p.saturation.UnwrapOr(100) != 100
      || IsWhiteTemperature(p.colorTemperature.value)
  }

  predicate Acceptable(p: Params) {
    !NothingSet(p) && BrightnessOk(p) && HueOk(p) && SaturationOk(p) && TemperatureOk(p)
  }

  /** `validate`: the checks run in order and the first failure is
      reported, with its field name. */
  function Validate(p: Params): (r: Result<(), Error>)
    ensures r.Ok? <==> Acceptable(p)
    ensures r.Err? ==> r.error.Validation?
    ensures r == Err(Validation("DeviceInfoParams", AtLeastOne)) <==> NothingSet(p)
    ensures r == Err(Validation("brightness", BrightnessRange)) <==> !NothingSet(p) && !BrightnessOk(p)
    ensures r == Err(Validation("hue", HueRange)) <==> !NothingSet(p) && BrightnessOk(p) && !HueOk(p)
    ensures r == Err(Validation("saturation", SaturationRange)) <==>
              !NothingSet(p) && BrightnessOk(p) && HueOk(p) && !SaturationOk(p)
    ensures r == Err(Validation("color_temperature", TemperatureRange)) <==>
              !NothingSet(p) && BrightnessOk(p) && HueOk(p) && SaturationOk(p) && !TemperatureOk(p)
  {
    if NothingSet(p) then Err(Validation("DeviceInfoParams", AtLeastOne))
    else if p.brightness.Some? && !(1 <= p.brightness.value <= 100) then Err(Validation("brightness", BrightnessRange))
    else if p.hue.Some? && p.colorTemperature.UnwrapOr(0) == 0 && !(1 <= p.hue.value <= 360) then
      Err(Validation("hue", HueRange))
    else if p.saturation.Some? && !(1 <= p.saturation.value <= 100) then Err(Validation("saturation", SaturationRange))
    else if p.colorTemperature.Some? && p.hue.UnwrapOr(0) == 0 && p.saturation.UnwrapOr(100) == 100
      && !(2500 <= p.colorTemperature.value <= 6500) then
      Err(Validation("color_temperature", TemperatureRange))
    else Ok(())
  }

  /** The request body: present fields only, the temperature as
      `color_temp`. */
  function Payload(p: Params): Json {
    JObj(OptMember("device_on", OptBool(p.deviceOn))
      + OptMember("brightness", OptInt(p.brightness))
      + OptMember("hue", OptInt(p.hue))
      + OptMember("saturation", OptInt(p.saturation))
      + OptMember("color_temp", OptInt(p.colorTemperature)))
  }

  /** `send`: validation comes first, so an unacceptable builder never
      produces a request body. */
  function Send(p: Params): (r: Result<Json, Error>)
    ensures r.Ok? <==> Acceptable(p)
    ensures r.Ok? ==> r.value == Payload(p)
    ensures r.Err? ==> Validate(p) == Err(r.error)
  {
    var _ :- Validate(p);
    Ok(Payload(p))
  }

  /** A later `hue_saturation` overrides an earlier colour temperature, and
      the result is sent when both values are in range. */
  lemma HueSaturationOverridesTemperature(p: Params, t: u16, h: u16, s: byte)
    requires BrightnessOk(p)
    ensures var r := HueSaturation(ColorTemperature(p, t), h, s);
      r.hue == Some(h) && r.saturation == Some(s) && r.colorTemperature == Some(0)
      && (Send(r).Ok? <==> 1 <= h <= 360 && 1 <= s <= 100)
  {
  }

  /** A later `color_temperature` overrides earlier hue and saturation; the
      result is sent exactly when the temperature is in range. */
  lemma TemperatureOverridesHueSaturation(p: Params, h: u16, s: byte, t: u16)
    requires BrightnessOk(p)
    ensures var r := ColorTemperature(HueSaturation(p, h, s), t);
      r.hue == Some(0) && r.saturation == Some(100) && r.colorTemperature == Some(t)
      && (Send(r).Ok? <==> IsWhiteTemperature(t))
      && (t == 0 ==> Validate(r) == Err(Validation("hue", HueRange)))
  {
  }

  /** Every white preset is accepted. Every chromatic preset but dark red is
      accepted; dark red (hue 0, temperature 0) fails the hue check. */
  lemma ColorPresetsValidate(p: Params, c: Color)
    requires BrightnessOk(p)
    ensures c != DarkRed ==> Validate(WithColor(p, c)).Ok?
    ensures c == DarkRed ==> Validate(WithColor(p, c)) == Err(Validation("hue", HueRange))
  {
    ColorMapAgrees(c);
    OnlyDarkRedHasZeroHue(c);
  }
}
