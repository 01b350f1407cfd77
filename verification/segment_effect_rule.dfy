/** The parameters of the `apply_segment_effect_rule` request: a constructor
    that fixes the device type to "strip" and three overriding setters. */
module SegmentEffectRules {
  import opened Bytes
  import opened SegmentEffects

  datatype RuleParams = RuleParams(
    brightness: byte,
    isCustom: bool,
    deviceType: string,
    displayColors: seq<Quad>,
    enabled: bool,
    id: string,
    name: string,
    segments: seq<byte>,
    states: seq<Quad>,
    effectType: string)

  /** `new`: every argument is stored as given; the device type is "strip". */
  function New(id: string, name: string, effectType: string, brightness: byte, isCustom: bool,
               enabled: bool, displayColors: seq<Quad>, segments: seq<byte>,
               states: seq<Quad>): (r: RuleParams)
    ensures r.deviceType == "strip"
    ensures r.id == id && r.name == name && r.effectType == effectType
    ensures r.brightness == brightness && r.isCustom == isCustom && r.enabled == enabled
    ensures r.displayColors == displayColors && r.segments == segments && r.states == states
  {
    RuleParams(brightness, isCustom, "strip", displayColors, enabled, id, name,
               segments, states, effectType)
  }

  function WithDeviceType(p: RuleParams, deviceType: string): (r: RuleParams)
    ensures r.deviceType == deviceType
    ensures r.(deviceType := p.deviceType) == p
  {
    p.(deviceType := deviceType)
  }

  function WithSegments(p: RuleParams, segments: seq<byte>): (r: RuleParams)
    ensures r.segments == segments
    ensures r.(segments := p.segments) == p
  {
    p.(segments := segments)
  }

  function WithStates(p: RuleParams, states: seq<Quad>): (r: RuleParams)
    ensures r.states == states
    ensures r.(states := p.states) == p
  {
    p.(states := states)
  }

  /** Overriding a field with the value `new` gave it changes nothing, and
      the setters commute, since each touches its own field. */
  lemma SettersIndependent(p: RuleParams, deviceType: string, segments: seq<byte>, states: seq<Quad>)
    ensures WithDeviceType(p, p.deviceType) == p
    ensures WithSegments(WithStates(p, states), segments) == WithStates(WithSegments(p, segments), states)
    ensures WithDeviceType(WithSegments(p, segments), deviceType).segments == segments
  {
  }
}
