/** Lighting effects for light strips (`set_lighting_effect`): the record,
    its constructors, the `with_*` setters and the built-in presets. */
module LightingEffects {
  import opened Wrappers
  import opened Bytes
  import SegmentEffects

  datatype LightingEffectType = Sequence | Random | Pulse | Static

  /** One `[u16; 3]` colour entry (hue, saturation, brightness). */
  type Triple = (u16, u16, u16)

  datatype LightingEffect = LightingEffect(
    brightness: byte,
    isCustom: bool,
    displayColors: seq<Triple>,
    enabled: bool,
    id: string,
    name: string,
    effectType: LightingEffectType,
    backgrounds: Option<seq<Triple>>,
    brightnessRange: Option<seq<byte>>,
    direction: Option<byte>,
    duration: Option<u64>,
    expansionStrategy: Option<byte>,
    fadeOff: Option<u16>,
    hueRange: Option<(u16, u16)>,
    initStates: Option<seq<Triple>>,
    randomSeed: Option<u64>,
    repeatTimes: Option<byte>,
    runTime: Option<u64>,
    saturationRange: Option<(byte, byte)>,
    segmentLength: Option<byte>,
    segments: Option<seq<byte>>,
    sequence: Option<seq<Triple>>,
    spread: Option<byte>,
    transition: Option<u16>,
    transitionRange: Option<(u16, u16)>,
    transitionSequence: Option<seq<u16>>)

  /** No optional field is set. */
  predicate NoOptionals(e: LightingEffect) {
    && e.backgrounds.None?
    && e.brightnessRange.None?
    && e.direction.None?
    && e.duration.None?
    && e.expansionStrategy.None?
    && e.fadeOff.None?
    && e.hueRange.None?
    && e.initStates.None?
    && e.randomSeed.None?
    && e.repeatTimes.None?
    && e.runTime.None?
    && e.saturationRange.None?
    && e.segmentLength.None?
    && e.segments.None?
    && e.sequence.None?
    && e.spread.None?
    && e.transition.None?
    && e.transitionRange.None?
    && e.transitionSequence.None?
  }

  /** `new`; `freshId` stands for the random uuid the source generates. */
  function New(name: string, effectType: LightingEffectType, isCustom: bool, enabled: bool,
               brightness: byte, displayColors: seq<Triple>, freshId: string): (r: LightingEffect)
    ensures r.name == name && r.effectType == effectType && r.isCustom == isCustom
    ensures r.enabled == enabled && r.brightness == brightness && r.displayColors == displayColors
    ensures r.id == freshId
    ensures NoOptionals(r)
  {
    LightingEffect(brightness, isCustom, displayColors, enabled, freshId, name, effectType,
      None, None, None, None, None, None, None, None, None, None, None, None, None, None, None, None, None, None, None)
  }

  /** The older crate's `new`, which takes the id as its first argument. */
  function LegacyNew(id: string, name: string, effectType: LightingEffectType, isCustom: bool,
                     enabled: bool, brightness: byte, displayColors: seq<Triple>): (r: LightingEffect)
    ensures r.id == id && r.name == name && r.effectType == effectType && r.isCustom == isCustom
    ensures r.enabled == enabled && r.brightness == brightness && r.displayColors == displayColors
    ensures NoOptionals(r)
  {
    LightingEffect(brightness, isCustom, displayColors, enabled, id, name, effectType,
      None, None, None, None, None, None, None, None, None, None, None, None, None, None, None, None, None, None, None)
  }

  /** The older crate's `new_with_random_id`: `new` with a fresh id and the
      other arguments passed through. */
  function NewWithRandomId(name: string, effectType: LightingEffectType, isCustom: bool,
                           enabled: bool, brightness: byte, displayColors: seq<Triple>,
                           freshId: string): (r: LightingEffect)
    ensures r == LegacyNew(freshId, name, effectType, isCustom, enabled, brightness, displayColors)
    ensures r == New(name, effectType, isCustom, enabled, brightness, displayColors, freshId)
  {
    LegacyNew(freshId, name, effectType, isCustom, enabled, brightness, displayColors)
  }

  // The `with_*` setters, identical in both crates: each replaces exactly one
  // field (the older crate spells `with_fade_off` as `with_fadeoff`).

  function WithBrightness(e: LightingEffect, value: byte): (r: LightingEffect)
    ensures r.brightness == value
    ensures r.(brightness := e.brightness) == e
  {
    e.(brightness := value)
  }

  function WithIsCustom(e: LightingEffect, value: bool): (r: LightingEffect)
    ensures r.isCustom == value
    ensures r.(isCustom := e.isCustom) == e
  {
    e.(isCustom := value)
  }

  function WithDisplayColors(e: LightingEffect, value: seq<Triple>): (r: LightingEffect)
    ensures r.displayColors == value
    ensures r.(displayColors := e.displayColors) == e
  {
    e.(displayColors := value)
  }

  function WithEnabled(e: LightingEffect, value: bool): (r: LightingEffect)
    ensures r.enabled == value
    ensures r.(enabled := e.enabled) == e
  {
    e.(enabled := value)
  }

  function WithId(e: LightingEffect, value: string): (r: LightingEffect)
    ensures r.id == value
    ensures r.(id := e.id) == e
  {
    e.(id := value)
  }

  function WithName(e: LightingEffect, value: string): (r: LightingEffect)
    ensures r.name == value
    ensures r.(name := e.name) == e
  {
    e.(name := value)
  }

  function WithType(e: LightingEffect, value: LightingEffectType): (r: LightingEffect)
    ensures r.effectType == value
    ensures r.(effectType := e.effectType) == e
  {
    e.(effectType := value)
  }

  function WithBackgrounds(e: LightingEffect, value: seq<Triple>): (r: LightingEffect)
    ensures r.backgrounds == Some(value)
    ensures r.(backgrounds := e.backgrounds) == e
  {
    e.(backgrounds := Some(value))
  }

  function WithBrightnessRange(e: LightingEffect, value: (byte, byte)): (r: LightingEffect)
    ensures r.brightnessRange.Some? && |r.brightnessRange.value| == 2
    ensures r.brightnessRange.value[0] == value.0 && r.brightnessRange.value[1] == value.1
    ensures r.(brightnessRange := e.brightnessRange) == e
  {
    e.(brightnessRange := Some([value.0, value.1]))
  }

  function WithDirection(e: LightingEffect, value: byte): (r: LightingEffect)
    ensures r.direction == Some(value)
    ensures r.(direction := e.direction) == e
  {
    e.(direction := Some(value))
  }

  function WithDuration(e: LightingEffect, value: u64): (r: LightingEffect)
    ensures r.duration == Some(value)
    ensures r.(duration := e.duration) == e
  {
    e.(duration := Some(value))
  }

  function WithExpansionStrategy(e: LightingEffect, value: byte): (r: LightingEffect)
    ensures r.expansionStrategy == Some(value)
    ensures r.(expansionStrategy := e.expansionStrategy) == e
  {
    e.(expansionStrategy := Some(value))
  }

  function WithFadeOff(e: LightingEffect, value: u16): (r: LightingEffect)
    ensures r.fadeOff == Some(value)
    ensures r.(fadeOff := e.fadeOff) == e
  {
    e.(fadeOff := Some(value))
  }

  function WithHueRange(e: LightingEffect, value: (u16, u16)): (r: LightingEffect)
    ensures r.hueRange == Some(value)
    ensures r.(hueRange := e.hueRange) == e
  {
    e.(hueRange := Some(value))
  }

  function WithInitStates(e: LightingEffect, value: seq<Triple>): (r: LightingEffect)
    ensures r.initStates == Some(value)
    ensures r.(initStates := e.initStates) == e
  {
    e.(initStates := Some(value))
  }

  function WithRandomSeed(e: LightingEffect, value: u64): (r: LightingEffect)
    ensures r.randomSeed == Some(value)
    ensures r.(randomSeed := e.randomSeed) == e
  {
    e.(randomSeed := Some(value))
  }

  function WithRepeatTimes(e: LightingEffect, value: byte): (r: LightingEffect)
    ensures r.repeatTimes == Some(value)
    ensures r.(repeatTimes := e.repeatTimes) == e
  {
    e.(repeatTimes := Some(value))
  }

  function WithRunTime(e: LightingEffect, value: u64): (r: LightingEffect)
    ensures r.runTime == Some(value)
    ensures r.(runTime := e.runTime) == e
  {
    e.(runTime := Some(value))
  }

  function WithSaturationRange(e: LightingEffect, value: (byte, byte)): (r: LightingEffect)
    ensures r.saturationRange == Some(value)
    ensures r.(saturationRange := e.saturationRange) == e
  {
    e.(saturationRange := Some(value))
  }

  function WithSegmentLength(e: LightingEffect, value: byte): (r: LightingEffect)
    ensures r.segmentLength == Some(value)
    ensures r.(segmentLength := e.segmentLength) == e
  {
    e.(segmentLength := Some(value))
  }

  function WithSegments(e: LightingEffect, value: seq<byte>): (r: LightingEffect)
    ensures r.segments == Some(value)
    ensures r.(segments := e.segments) == e
  {
    e.(segments := Some(value))
  }

  function WithSequence(e: LightingEffect, value: seq<Triple>): (r: LightingEffect)
    ensures r.sequence == Some(value)
    ensures r.(sequence := e.sequence) == e
  {
    e.(sequence := Some(value))
  }

  function WithSpread(e: LightingEffect, value: byte): (r: LightingEffect)
    ensures r.spread == Some(value)
    ensures r.(spread := e.spread) == e
  {
    e.(spread := Some(value))
  }

  function WithTransition(e: LightingEffect, value: u16): (r: LightingEffect)
    ensures r.transition == Some(value)
    ensures r.(transition := e.transition) == e
  {
    e.(transition := Some(value))
  }

  function WithTransitionRange(e: LightingEffect, value: (u16, u16)): (r: LightingEffect)
    ensures r.transitionRange == Some(value)
    ensures r.(transitionRange := e.transitionRange) == e
  {
    e.(transitionRange := Some(value))
  }

  function WithTransitionSequence(e: LightingEffect, value: seq<u16>): (r: LightingEffect)
    ensures r.transitionSequence == Some(value)
    ensures r.(transitionSequence := e.transitionSequence) == e
  {
    e.(transitionSequence := Some(value))
  }

  /** What every built-in preset shares: not custom, enabled, full
      brightness, a fixed strip id; sequence and pulse effects carry a
      sequence, a direction and a spread, random effects no sequence. */
  predicate PresetShaped(r: LightingEffect) {
    && !r.isCustom && r.enabled && r.brightness == 100
    && SegmentEffects.IsStripId(r.id)
    && (r.effectType == Sequence || r.effectType == Pulse ==>
          r.sequence.Some? && r.direction.Some? && r.spread.Some?)
    && (r.effectType == Random ==> r.sequence.None?)
  }

  datatype LightingEffectPreset =
    Aurora
    | BubblingCauldron
    | CandyCane
    | Christmas
    | Flicker
    | GrandmasChristmasLights
    | Hanukkah
    | HauntedMansion
    | Icicle
    | Lightning
    | Ocean
    | Rainbow
    | Raindrop
    | Spring
    | Sunrise
    | Sunset
    | Valentines

  // The preset functions (`fn aurora(self)` and so on): `new` followed by
  // `with_id` and the preset's own setters. `freshId` is the uuid `new`
  // draws, which `with_id` overwrites.

  function AuroraEffect(freshId: string): (r: LightingEffect)
    ensures PresetShaped(r)
  {
    var e := New("Aurora", Sequence, false, true, 100,
      [(120, 100, 100), (240, 100, 100), (260, 100, 100), (280, 100, 100)], freshId);
    var e := WithId(e, SegmentEffects.StripId("1MClvV18i15Jq3bvJVf0eP"));
    var e := WithDirection(e, 4);
    var e := WithDuration(e, 0);
    var e := WithExpansionStrategy(e, 1);
    var e := WithRepeatTimes(e, 0);
    var e := WithSegments(e, [0]);
    var e := WithSequence(e, [(120, 100, 100), (240, 100, 100), (260, 100, 100), (280, 100, 100)]);
    var e := WithSpread(e, 7);
    var e := WithTransition(e, 1500);
    e
  }

  function BubblingCauldronEffect(freshId: string): (r: LightingEffect)
    ensures PresetShaped(r)
  {
    var e := New("Bubbling Cauldron", Random, false, true, 100,
      [(100, 100, 100), (270, 100, 100)], freshId);
    var e := WithId(e, SegmentEffects.StripId("6DlumDwO2NdfHppy50vJtu"));
    var e := WithBackgrounds(e, [(270, 40, 50)]);
    var e := WithBrightnessRange(e, (50, 100));
    var e := WithInitStates(e, [(270, 100, 100)]);
    var e := WithDuration(e, 0);
    var e := WithExpansionStrategy(e, 1);
    var e := WithFadeOff(e, 1000);
    var e := WithHueRange(e, (100, 270));
    var e := WithRandomSeed(e, 24);
    var e := WithSaturationRange(e, (80, 100));
    var e := WithSegments(e, [0]);
    var e := WithTransition(e, 200);
    e
  }

  function CandyCaneEffect(freshId: string): (r: LightingEffect)
    ensures PresetShaped(r)
  {
    var e := New("Candy Cane", Sequence, false, true, 100,
      [(0, 0, 100), (360, 81, 100)], freshId);
    var e := WithId(e, SegmentEffects.StripId("6Dy0Nc45vlhFPEzG021Pe9"));
    var e := WithDirection(e, 1);
    var e := WithDuration(e, 700);
    var e := WithExpansionStrategy(e, 1);
    var e := WithRepeatTimes(e, 0);
    var e := WithSegments(e, [0, 1, 2, 3, 4, 5, 6, 7, 8, 9, 10, 11, 12, 13, 14, 15]);
    var e := WithSequence(e, [
      (0, 0, 100), (0, 0, 100), (360, 81, 100), (0, 0, 100), (0, 0, 100),
      (360, 81, 100), (360, 81, 100), (0, 0, 100), (0, 0, 100), (360, 81, 100),
      (360, 81, 100), (360, 81, 100), (360, 81, 100), (0, 0, 100), (0, 0, 100),
      (360, 81, 100)]);
    var e := WithSpread(e, 1);
    var e := WithTransition(e, 500);
    e
  }

  function ChristmasEffect(freshId: string): (r: LightingEffect)
    ensures PresetShaped(r)
  {
    var e := New("Christmas", Random, false, true, 100,
      [(136, 98, 100), (350, 97, 100)], freshId);
    var e := WithId(e, SegmentEffects.StripId("5zkiG6avJ1IbhjiZbRlWvh"));
    var e := WithBackgrounds(e, [(136, 98, 75), (136, 0, 0), (350, 0, 100), (350, 97, 94)]);
    var e := WithBrightnessRange(e, (50, 100));
    var e := WithInitStates(e, [(136, 0, 100)]);
    var e := WithDuration(e, 5000);
    var e := WithExpansionStrategy(e, 1);
    var e := WithFadeOff(e, 2000);
    var e := WithHueRange(e, (136, 146));
    var e := WithRandomSeed(e, 100);
    var e := WithSaturationRange(e, (90, 100));
    var e := WithSegments(e, [0]);
    var e := WithTransition(e, 0);
    e
  }

  function FlickerEffect(freshId: string): (r: LightingEffect)
    ensures PresetShaped(r)
  {
    var e := New("Flicker", Random, false, true, 100,
      [(30, 81, 100), (40, 100, 100)], freshId);
    var e := WithId(e, SegmentEffects.StripId("4HVKmMc6vEzjm36jXaGwMs"));
    var e := WithBrightnessRange(e, (50, 100));
    var e := WithInitStates(e, [(30, 81, 80)]);
    var e := WithDuration(e, 0);
    var e := WithExpansionStrategy(e, 1);
    var e := WithHueRange(e, (30, 40));
    var e := WithSaturationRange(e, (100, 100));
    var e := WithSegments(e, [1]);
    var e := WithTransition(e, 0);
    var e := WithTransitionRange(e, (375, 500));
    e
  }

  function GrandmasChristmasLightsEffect(freshId: string): (r: LightingEffect)
    ensures PresetShaped(r)
  {
    var e := New("Grandma's Christmas Lights", Sequence, false, true, 100,
      [(30, 100, 100), (240, 100, 100), (130, 100, 100), (0, 100, 100)], freshId);
    var e := WithId(e, SegmentEffects.StripId("3Gk6CmXOXbjCiwz9iD543C"));
    var e := WithDirection(e, 1);
    var e := WithDuration(e, 5000);
    var e := WithExpansionStrategy(e, 1);
    var e := WithRepeatTimes(e, 0);
    var e := WithSegments(e, [0]);
    var e := WithSequence(e, [
      (30, 100, 100), (30, 0, 0), (30, 0, 0), (240, 100, 100), (240, 0, 0),
      (240, 0, 0), (240, 0, 100), (240, 0, 0), (240, 0, 0), (130, 100, 100),
      (130, 0, 0), (130, 0, 0), (0, 100, 100), (0, 0, 0), (0, 0, 0)]);
    var e := WithSpread(e, 1);
    var e := WithTransition(e, 100);
    e
  }

  function HanukkahEffect(freshId: string): (r: LightingEffect)
    ensures PresetShaped(r)
  {
    var e := New("Hanukkah", Random, false, true, 100,
      [(200, 100, 100)], freshId);
    var e := WithId(e, SegmentEffects.StripId("2YTk4wramLKv5XZ9KFDVYm"));
    var e := WithBrightnessRange(e, (50, 100));
    var e := WithInitStates(e, [(35, 81, 80)]);
    var e := WithDuration(e, 1500);
    var e := WithExpansionStrategy(e, 1);
    var e := WithHueRange(e, (200, 210));
    var e := WithSaturationRange(e, (0, 100));
    var e := WithSegments(e, [1]);
    var e := WithTransition(e, 0);
    var e := WithTransitionRange(e, (400, 500));
    e
  }

  function HauntedMansionEffect(freshId: string): (r: LightingEffect)
    ensures PresetShaped(r)
  {
    var e := New("Haunted Mansion", Random, false, true, 100,
      [(45, 10, 100)], freshId);
    var e := WithId(e, SegmentEffects.StripId("4rJ6JwC7I9st3tQ8j4lwlI"));
    var e := WithBackgrounds(e, [(45, 10, 100)]);
    var e := WithBrightnessRange(e, (0, 80));
    var e := WithInitStates(e, [(45, 10, 100)]);
    var e := WithDuration(e, 0);
    var e := WithExpansionStrategy(e, 2);
    var e := WithFadeOff(e, 200);
    var e := WithHueRange(e, (45, 45));
    var e := WithRandomSeed(e, 1);
    var e := WithSaturationRange(e, (10, 10));
    var e := WithSegments(e, [80]);
    var e := WithTransition(e, 0);
    var e := WithTransitionRange(e, (50, 1500));
    e
  }

  function IcicleEffect(freshId: string): (r: LightingEffect)
    ensures PresetShaped(r)
  {
    var e := New("Icicle", Sequence, false, true, 100,
      [(190, 100, 100)], freshId);
    var e := WithId(e, SegmentEffects.StripId("7UcYLeJbiaxVIXCxr21tpx"));
    var e := WithDirection(e, 4);
    var e := WithDuration(e, 0);
    var e := WithExpansionStrategy(e, 1);
    var e := WithRepeatTimes(e, 0);
    var e := WithSegments(e, [0]);
    var e := WithSequence(e, [
      (190, 100, 70), (190, 100, 70), (190, 30, 50), (190, 100, 70), (190, 100, 70)]);
    var e := WithSpread(e, 3);
    var e := WithTransition(e, 400);
    e
  }

  function LightningEffect(freshId: string): (r: LightingEffect)
    ensures PresetShaped(r)
  {
    var e := New("Lightning", Random, false, true, 100,
      [(210, 10, 100), (200, 50, 100), (200, 100, 100)], freshId);
    var e := WithId(e, SegmentEffects.StripId("7OGzfSfnOdhoO2ri4gOHWn"));
    var e := WithBackgrounds(e, [(200, 100, 100), (200, 50, 10), (210, 10, 50), (240, 10, 0)]);
    var e := WithBrightnessRange(e, (90, 100));
    var e := WithInitStates(e, [(240, 30, 100)]);
    var e := WithDuration(e, 0);
    var e := WithExpansionStrategy(e, 1);
    var e := WithFadeOff(e, 150);
    var e := WithHueRange(e, (240, 240));
    var e := WithRandomSeed(e, 600);
    var e := WithSaturationRange(e, (10, 11));
    var e := WithSegments(e, [7, 20, 23, 32, 34, 35, 49, 65, 66, 74, 80]);
    var e := WithTransition(e, 50);
    e
  }

  function OceanEffect(freshId: string): (r: LightingEffect)
    ensures PresetShaped(r)
  {
    var e := New("Ocean", Sequence, false, true, 100,
      [(198, 84, 100)], freshId);
    var e := WithId(e, SegmentEffects.StripId("0fOleCdwSgR0nfjkReeYfw"));
    var e := WithDirection(e, 3);
    var e := WithDuration(e, 0);
    var e := WithExpansionStrategy(e, 1);
    var e := WithRepeatTimes(e, 0);
    var e := WithSegments(e, [0]);
    var e := WithSequence(e, [(198, 84, 30), (198, 70, 30), (198, 10, 30)]);
    var e := WithSpread(e, 16);
    var e := WithTransition(e, 2000);
    e
  }

  function RainbowEffect(freshId: string): (r: LightingEffect)
    ensures PresetShaped(r)
  {
    var e := New("Rainbow", Sequence, false, true, 100,
      [(0, 100, 100), (100, 100, 100), (200, 100, 100), (300, 100, 100)], freshId);
    var e := WithId(e, SegmentEffects.StripId("7CC5y4lsL8pETYvmz7UOpQ"));
    var e := WithDirection(e, 1);
    var e := WithDuration(e, 0);
    var e := WithExpansionStrategy(e, 1);
    var e := WithRepeatTimes(e, 0);
    var e := WithSegments(e, [0]);
    var e := WithSequence(e, [(0, 100, 100), (100, 100, 100), (200, 100, 100), (300, 100, 100)]);
    var e := WithSpread(e, 12);
    var e := WithTransition(e, 1500);
    e
  }

  function RaindropEffect(freshId: string): (r: LightingEffect)
    ensures PresetShaped(r)
  {
    var e := New("Raindrop", Random, false, true, 100,
      [(200, 10, 100), (200, 20, 100)], freshId);
    var e := WithId(e, SegmentEffects.StripId("1t2nWlTBkV8KXBZ0TWvBjs"));
    var e := WithBackgrounds(e, [(200, 40, 0)]);
    var e := WithBrightnessRange(e, (10, 30));
    var e := WithInitStates(e, [(200, 40, 100)]);
    var e := WithDuration(e, 0);
    var e := WithExpansionStrategy(e, 1);
    var e := WithFadeOff(e, 1000);
    var e := WithHueRange(e, (200, 200));
    var e := WithRandomSeed(e, 24);
    var e := WithSaturationRange(e, (10, 20));
    var e := WithSegments(e, [0]);
    var e := WithTransition(e, 1000);
    e
  }

  function SpringEffect(freshId: string): (r: LightingEffect)
    ensures PresetShaped(r)
  {
    var e := New("Spring", Random, false, true, 100,
      [(0, 30, 100), (130, 100, 100)], freshId);
    var e := WithId(e, SegmentEffects.StripId("1nL6GqZ5soOxj71YDJOlZL"));
    var e := WithBackgrounds(e, [(130, 100, 40)]);
    var e := WithBrightnessRange(e, (90, 100));
    var e := WithInitStates(e, [(80, 30, 100)]);
    var e := WithDuration(e, 600);
    var e := WithExpansionStrategy(e, 1);
    var e := WithFadeOff(e, 1000);
    var e := WithHueRange(e, (0, 90));
    var e := WithRandomSeed(e, 20);
    var e := WithSaturationRange(e, (30, 100));
    var e := WithSegments(e, [0]);
    var e := WithTransition(e, 0);
    var e := WithTransitionRange(e, (2000, 6000));
    e
  }

  function SunriseEffect(freshId: string): (r: LightingEffect)
    ensures PresetShaped(r)
  {
    var e := New("Sunrise", Pulse, false, true, 100,
      [(30, 0, 100), (30, 95, 100), (0, 100, 100)], freshId);
    var e := WithId(e, SegmentEffects.StripId("1OVSyXIsDxrt4j7OxyRvqi"));
    var e := WithDirection(e, 1);
    var e := WithDuration(e, 600);
    var e := WithExpansionStrategy(e, 2);
    var e := WithRepeatTimes(e, 1);
    var e := WithSegments(e, [0]);
    var e := WithSequence(e, [
      (0, 100, 5), (0, 100, 5), (10, 100, 6), (15, 100, 7), (20, 100, 8),
      (20, 100, 10), (30, 100, 12), (30, 95, 15), (30, 90, 20), (30, 80, 25),
      (30, 75, 30), (30, 70, 40), (30, 60, 50), (30, 50, 60), (30, 20, 70),
      (30, 0, 100)]);
    var e := WithSpread(e, 1);
    var e := WithTransition(e, 60000);
    var e := WithRunTime(e, 0);
    e
  }

  function SunsetEffect(freshId: string): (r: LightingEffect)
    ensures PresetShaped(r)
  {
    var e := New("Sunset", Pulse, false, true, 100,
      [(0, 100, 100), (30, 95, 100), (30, 0, 100)], freshId);
    var e := WithId(e, SegmentEffects.StripId("5NiN0Y8GAUD78p4neKk9EL"));
    var e := WithDirection(e, 1);
    var e := WithDuration(e, 600);
    var e := WithExpansionStrategy(e, 2);
    var e := WithRepeatTimes(e, 1);
    var e := WithSegments(e, [0]);
    var e := WithSequence(e, [
      (30, 0, 100), (30, 20, 100), (30, 50, 99), (30, 60, 98), (30, 70, 97),
      (30, 75, 95), (30, 80, 93), (30, 90, 90), (30, 95, 85), (30, 100, 80),
      (20, 100, 70), (20, 100, 60), (15, 100, 50), (10, 100, 40), (0, 100, 30),
      (0, 100, 0)]);
    var e := WithSpread(e, 1);
    var e := WithTransition(e, 60000);
    var e := WithRunTime(e, 0);
    e
  }

  function ValentinesEffect(freshId: string): (r: LightingEffect)
    ensures PresetShaped(r)
  {
    var e := New("Valentines", Random, false, true, 100,
      [(340, 20, 100), (20, 50, 100), (0, 100, 100), (340, 40, 100)], freshId);
    var e := WithId(e, SegmentEffects.StripId("2q1Vio9sSjHmaC7JS9d30l"));
    var e := WithBackgrounds(e, [(340, 20, 50), (20, 50, 50), (0, 100, 50)]);
    var e := WithBrightnessRange(e, (90, 100));
    var e := WithInitStates(e, [(340, 30, 100)]);
    var e := WithDuration(e, 600);
    var e := WithExpansionStrategy(e, 1);
    var e := WithFadeOff(e, 3000);
    var e := WithHueRange(e, (340, 340));
    var e := WithRandomSeed(e, 100);
    var e := WithSaturationRange(e, (30, 40));
    var e := WithSegments(e, [0]);
    var e := WithTransition(e, 2000);
    e
  }

  /** `From<LightingEffectPreset>`. */
  function FromPreset(p: LightingEffectPreset, freshId: string): (r: LightingEffect)
    ensures PresetShaped(r)
  {
    match p
    case Aurora => AuroraEffect(freshId)
    case BubblingCauldron => BubblingCauldronEffect(freshId)
    case CandyCane => CandyCaneEffect(freshId)
    case Christmas => ChristmasEffect(freshId)
    case Flicker => FlickerEffect(freshId)
    case GrandmasChristmasLights => GrandmasChristmasLightsEffect(freshId)
    case Hanukkah => HanukkahEffect(freshId)
    case HauntedMansion => HauntedMansionEffect(freshId)
    case Icicle => IcicleEffect(freshId)
    case Lightning => LightningEffect(freshId)
    case Ocean => OceanEffect(freshId)
    case Rainbow => RainbowEffect(freshId)
    case Raindrop => RaindropEffect(freshId)
    case Spring => SpringEffect(freshId)
    case Sunrise => SunriseEffect(freshId)
    case Sunset => SunsetEffect(freshId)
    case Valentines => ValentinesEffect(freshId)
  }
}
