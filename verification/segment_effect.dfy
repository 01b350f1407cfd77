/** Segment effects for light strips: the `new` and `preset` constructors,
    the builder setters, the custom-effect check and the table of built-in
    presets (`From<SegmentEffectPreset>`). */
module SegmentEffects {
  import opened Wrappers
  import opened Bytes
  import opened Errors

  /** `SegmentEffectType`; the source's `None` variant is `NoEffect` here. */
  datatype SegmentEffectType = Circulating | Breathe | Chasing | Flicker | Bloom | Stacking | NoEffect

  /** One `[u16; 4]` colour entry. */
  type Quad = (u16, u16, u16, u16)

  datatype SegmentEffect = SegmentEffect(
    brightness: byte,
    isCustom: bool,
    deviceType: Option<string>,
    displayColors: seq<Quad>,
    enabled: bool,
    id: string,
    name: string,
    segments: Option<seq<byte>>,
    states: Option<seq<Quad>>,
    effectType: Option<SegmentEffectType>)

  /** `new`; `freshId` stands for the random uuid the source generates. */
  function New(name: string, effectType: SegmentEffectType, isCustom: bool, enabled: bool,
               brightness: byte, displayColors: seq<Quad>, freshId: string): (r: SegmentEffect)
    ensures r.deviceType.Some? <==> isCustom
    ensures r.deviceType.Some? ==> r.deviceType.value == "strip"
    ensures r.effectType == Some(effectType) && r.segments.None? && r.states.None?
    ensures r.name == name && r.isCustom == isCustom && r.enabled == enabled
    ensures r.brightness == brightness && r.displayColors == displayColors && r.id == freshId
  {
    SegmentEffect(brightness, isCustom, if isCustom then Some("strip") else None,
                  displayColors, enabled, freshId, name, None, None, Some(effectType))
  }

  /** The private `preset` base every built-in effect starts from. */
  function Preset(name: string, freshId: string): (r: SegmentEffect)
    ensures r.brightness == 100 && !r.isCustom && r.enabled
    ensures r.deviceType.None? && r.effectType.None? && r.displayColors == []
    ensures r.segments.None? && r.states.None?
    ensures r.name == name && r.id == freshId
  {
    SegmentEffect(100, false, None, [], true, freshId, name, None, None, None)
  }
  // The `with_*` setters: each replaces exactly one field.
  function WithBrightness(e: SegmentEffect, value: byte): (r: SegmentEffect)
    ensures r.brightness == value
    ensures r.(brightness := e.brightness) == e
  {
    e.(brightness := value)
  }
  function WithIsCustom(e: SegmentEffect, value: bool): (r: SegmentEffect)
    ensures r.isCustom == value
    ensures r.(isCustom := e.isCustom) == e
  {
    e.(isCustom := value)
  }
  function WithDisplayColors(e: SegmentEffect, value: seq<Quad>): (r: SegmentEffect)
    ensures r.displayColors == value
    ensures r.(displayColors := e.displayColors) == e
  {
    e.(displayColors := value)
  }
  function WithEnabled(e: SegmentEffect, value: bool): (r: SegmentEffect)
    ensures r.enabled == value
    ensures r.(enabled := e.enabled) == e
  {
    e.(enabled := value)
  }
  function WithId(e: SegmentEffect, value: string): (r: SegmentEffect)
    ensures r.id == value
    ensures r.(id := e.id) == e
  {
    e.(id := value)
  }
  function WithName(e: SegmentEffect, value: string): (r: SegmentEffect)
    ensures r.name == value
    ensures r.(name := e.name) == e
  {
    e.(name := value)
  }
  function WithType(e: SegmentEffect, value: SegmentEffectType): (r: SegmentEffect)
    ensures r.effectType == Some(value)
    ensures r.(effectType := e.effectType) == e
  {
    e.(effectType := Some(value))
  }
  function WithDeviceType(e: SegmentEffect, value: string): (r: SegmentEffect)
    ensures r.deviceType == Some(value)
    ensures r.(deviceType := e.deviceType) == e
  {
    e.(deviceType := Some(value))
  }
  function WithSegments(e: SegmentEffect, value: seq<byte>): (r: SegmentEffect)
    ensures r.segments == Some(value)
    ensures r.(segments := e.segments) == e
  {
    e.(segments := Some(value))
  }
  function WithStates(e: SegmentEffect, value: seq<Quad>): (r: SegmentEffect)
    ensures r.states == Some(value)
    ensures r.(states := e.states) == e
  {
    e.(states := Some(value))
  }
  const RequiredMessage := "Required for custom segment effects"

  predicate SegmentsPresent(e: SegmentEffect) {
    e.segments.Some? && |e.segments.value| > 0
  }

  predicate StatesPresent(e: SegmentEffect) {
    e.states.Some? && |e.states.value| > 0
  }

  /** `validate`: only custom effects are checked, segments first, then
      states, then the type. */
  function Validate(e: SegmentEffect): (r: Result<(), Error>)
    ensures r.Ok? <==> !e.isCustom || (SegmentsPresent(e) && StatesPresent(e) && e.effectType.Some?)
    ensures (r == Err(Validation("segments", RequiredMessage))) <==>
      e.isCustom && !SegmentsPresent(e)
    ensures (r == Err(Validation("states", RequiredMessage))) <==>
      e.isCustom && SegmentsPresent(e) && !StatesPresent(e)
    ensures (r == Err(Validation("type", RequiredMessage))) <==>
      e.isCustom && SegmentsPresent(e) && StatesPresent(e) && e.effectType.None?
  {
    if !e.isCustom then Ok(())
    else if e.segments.None? || |e.segments.value| == 0 then Err(Validation("segments", RequiredMessage))
    else if e.states.None? || |e.states.value| == 0 then Err(Validation("states", RequiredMessage))
    else if e.effectType.None? then Err(Validation("type", RequiredMessage))
    else Ok(())
  }

  /** A custom effect from `new` passes once it has non-empty segments and
      states: `new` always sets the type. */
  lemma CustomNewNeedsSegmentsAndStates(name: string, t: SegmentEffectType, enabled: bool,
                                        brightness: byte, colors: seq<Quad>, freshId: string,
                                        segments: seq<byte>, states: seq<Quad>)
    ensures var e := New(name, t, true, enabled, brightness, colors, freshId);
            Validate(e) == Err(Validation("segments", RequiredMessage)) &&
            Validate(WithSegments(e, segments)).Ok? == false &&
            (Validate(WithStates(WithSegments(e, segments), states)).Ok? <==>
              |segments| > 0 && |states| > 0)
  {
  }
  /** `SegmentEffectPreset`. */
  datatype SegmentEffectPreset =
    Birthday
    | Blue
    | Bonfire
    | Candlelight
    | Carnival
    | Cyan
    | Dancing
    | Dating
    | Disco
    | Dreamland
    | ElectroDance
    | Energetic
    | Excited
    | Fall
    | Family
    | Fireworks
    | FlowerField
    | Forest
    | Game
    | Green
    | Halloween
    | Happy
    | Jazz
    | Lake
    | LightGreen
    | Lyric
    | Moonlight
    | Morning
    | Movie
    | NewYear
    | Night
    | Orange
    | Pink
    | Purple
    | Quiet
    | Red
    | Relaxed
    | Rock
    | Siren
    | Sleep
    | Snow
    | Star
    | Study
    | Summer
    | Sunny
    | Sweet
    | Tense
    | Thinking
    | Universe
    | Volcano
    | Warm
    | White
    | Winter
    | Work
    | Yellow

  /** The `TapoStrip_` prefix every preset id carries. */
  predicate IsStripId(id: string) {
    |id| > 10 && id[..10] == "TapoStrip_"
  }

  /** A preset id: "TapoStrip_" followed by a fixed suffix. */
  function StripId(suffix: string): (r: string)
    requires |suffix| > 0
    ensures IsStripId(r) && r[10..] == suffix
  {
    "TapoStrip_" + suffix
  }

  predicate FourthComponentsZero(colors: seq<Quad>) {
    forall i :: 0 <= i < |colors| ==> colors[i].3 == 0
  }

  /** What every built-in preset shares: `preset`'s defaults, a fixed strip
      id and a non-empty colour list whose fourth components are 0. */
  predicate PresetShaped(r: SegmentEffect) {
    && !r.isCustom && r.enabled && r.deviceType.None? && r.effectType.None?
    && r.segments.None? && r.states.None?
    && |r.displayColors| > 0 && FourthComponentsZero(r.displayColors)
    && IsStripId(r.id)
  }

  // The preset functions (`fn birthday(self)` and so on): `preset(name)`
  // with a fixed id, a brightness and the display colours. `freshId` is the
  // uuid `preset` draws, which `with_id` then overwrites.

  function BirthdayEffect(freshId: string): (r: SegmentEffect)
    ensures PresetShaped(r) && r.brightness == 50
  {
    WithDisplayColors(WithBrightness(WithId(Preset("birthday", freshId), StripId("6UV91PSxvC1LRPXIibdcuJ")), 50),
      [(0, 87, 100, 0), (298, 58, 100, 0), (182, 94, 100, 0), (135, 80, 100, 0)])
  }

  function BlueEffect(freshId: string): (r: SegmentEffect)
    ensures PresetShaped(r) && r.brightness == 50
  {
    WithDisplayColors(WithBrightness(WithId(Preset("blue", freshId), StripId("3d5ofcJ90anniQnMTjzUqb")), 50),
      [(202, 42, 100, 0)])
  }

  function BonfireEffect(freshId: string): (r: SegmentEffect)
    ensures PresetShaped(r) && r.brightness == 50
  {
    WithDisplayColors(WithBrightness(WithId(Preset("bonfire", freshId), StripId("4Gwp1kPB6EKSuf8YL9PxJT")), 50),
      [(39, 86, 100, 0), (30, 14, 100, 0), (20, 87, 100, 0)])
  }

  function CandlelightEffect(freshId: string): (r: SegmentEffect)
    ensures PresetShaped(r) && r.brightness == 50
  {
    WithDisplayColors(WithBrightness(WithId(Preset("candlelight", freshId), StripId("5MD0lPVZ6rf7B0gezimR3s")), 50),
      [(298, 58, 100, 0), (20, 87, 100, 0)])
  }

  function CarnivalEffect(freshId: string): (r: SegmentEffect)
    ensures PresetShaped(r) && r.brightness == 50
  {
    WithDisplayColors(WithBrightness(WithId(Preset("carnival", freshId), StripId("3NbAjdKvkZdD9FGvsTJ6MJ")), 50),
      [(0, 87, 100, 0), (0, 0, 100, 0), (135, 80, 100, 0)])
  }

  function CyanEffect(freshId: string): (r: SegmentEffect)
    ensures PresetShaped(r) && r.brightness == 50
  {
    WithDisplayColors(WithBrightness(WithId(Preset("cyan", freshId), StripId("2vKcyzPtr3aizuRMuYdAMW")), 50),
      [(186, 50, 100, 0)])
  }

  function DancingEffect(freshId: string): (r: SegmentEffect)
    ensures PresetShaped(r) && r.brightness == 50
  {
    WithDisplayColors(WithBrightness(WithId(Preset("dancing", freshId), StripId("5Tt1eZzXRdj4YWGgGdqK3y")), 50),
      [(298, 58, 100, 0), (20, 87, 100, 0), (48, 87, 100, 0), (192, 78, 100, 0)])
  }

  function DatingEffect(freshId: string): (r: SegmentEffect)
    ensures PresetShaped(r) && r.brightness == 50
  {
    WithDisplayColors(WithBrightness(WithId(Preset("dating", freshId), StripId("2tkyPdByKhKe4eVqE5XphX")), 50),
      [(298, 58, 100, 0), (298, 58, 100, 0)])
  }

  function DiscoEffect(freshId: string): (r: SegmentEffect)
    ensures PresetShaped(r) && r.brightness == 50
  {
    WithDisplayColors(WithBrightness(WithId(Preset("disco", freshId), StripId("5pAN2kMxzsh8HpsBpfwRXP")), 50),
      [(20, 87, 100, 0), (35, 8, 100, 0), (298, 58, 100, 0), (192, 78, 100, 0)])
  }

  function DreamlandEffect(freshId: string): (r: SegmentEffect)
    ensures PresetShaped(r) && r.brightness == 50
  {
    WithDisplayColors(WithBrightness(WithId(Preset("dreamland", freshId), StripId("4wHSAFyVTCtgxSw0wUeXGV")), 50),
      [(298, 58, 100, 0), (48, 87, 100, 0), (216, 49, 100, 0), (182, 94, 100, 0)])
  }

  function ElectroDanceEffect(freshId: string): (r: SegmentEffect)
    ensures PresetShaped(r) && r.brightness == 50
  {
    WithDisplayColors(WithBrightness(WithId(Preset("electro_dance", freshId), StripId("2s22PUbeRbRROnSuJTw8uN")), 50),
      [(20, 87, 100, 0), (132, 67, 100, 0), (298, 58, 100, 0), (51, 58, 100, 0)])
  }

  function EnergeticEffect(freshId: string): (r: SegmentEffect)
    ensures PresetShaped(r) && r.brightness == 50
  {
    WithDisplayColors(WithBrightness(WithId(Preset("energetic", freshId), StripId("4EPVg5TXRM5OW8fkRq4uMy")), 50),
      [(298, 58, 100, 0), (0, 0, 100, 0), (182, 94, 100, 0)])
  }

  function ExcitedEffect(freshId: string): (r: SegmentEffect)
    ensures PresetShaped(r) && r.brightness == 50
  {
    WithDisplayColors(WithBrightness(WithId(Preset("excited", freshId), StripId("4CVvw7fPwbDgpjdyTdwSir")), 50),
      [(298, 58, 100, 0), (48, 87, 100, 0), (182, 94, 100, 0), (135, 80, 100, 0)])
  }

  function FallEffect(freshId: string): (r: SegmentEffect)
    ensures PresetShaped(r) && r.brightness == 50
  {
    WithDisplayColors(WithBrightness(WithId(Preset("fall", freshId), StripId("4g6E1iZQyB2HGa8kIPULRk")), 50),
      [(44, 86, 100, 0), (20, 87, 100, 0), (20, 87, 100, 0), (307, 64, 100, 0)])
  }

  function FamilyEffect(freshId: string): (r: SegmentEffect)
    ensures PresetShaped(r) && r.brightness == 50
  {
    WithDisplayColors(WithBrightness(WithId(Preset("family", freshId), StripId("4mCB0GdvVxYQUK6rK3Ny0w")), 50),
      [(20, 87, 100, 0), (298, 58, 100, 0), (298, 58, 100, 0), (216, 46, 100, 0)])
  }

  function FireworksEffect(freshId: string): (r: SegmentEffect)
    ensures PresetShaped(r) && r.brightness == 50
  {
    WithDisplayColors(WithBrightness(WithId(Preset("fireworks", freshId), StripId("0xZnAlXp2sYlXpPGsfOguo")), 50),
      [(20, 87, 100, 0), (192, 78, 100, 0), (298, 58, 100, 0), (216, 46, 100, 0)])
  }

  function FlowerFieldEffect(freshId: string): (r: SegmentEffect)
    ensures PresetShaped(r) && r.brightness == 50
  {
    WithDisplayColors(WithBrightness(WithId(Preset("flower_field", freshId), StripId("5PNM7bkM9AsT8RTjxQrpPs")), 50),
      [(48, 87, 100, 0), (306, 72, 100, 0), (306, 72, 100, 0), (0, 87, 100, 0)])
  }

  function ForestEffect(freshId: string): (r: SegmentEffect)
    ensures PresetShaped(r) && r.brightness == 50
  {
    WithDisplayColors(WithBrightness(WithId(Preset("forest", freshId), StripId("4Q8f2MgkLJOUCVYs4C3S6m")), 50),
      [(182, 96, 100, 0), (135, 100, 100, 0), (135, 100, 100, 0), (48, 87, 100, 0)])
  }

  function GameEffect(freshId: string): (r: SegmentEffect)
    ensures PresetShaped(r) && r.brightness == 50
  {
    WithDisplayColors(WithBrightness(WithId(Preset("game", freshId), StripId("4RVTMKq1uKlB3pexBaHgNE")), 50),
      [(135, 80, 100, 0), (48, 87, 100, 0), (48, 87, 100, 0), (199, 94, 100, 0)])
  }

  function GreenEffect(freshId: string): (r: SegmentEffect)
    ensures PresetShaped(r) && r.brightness == 50
  {
    WithDisplayColors(WithBrightness(WithId(Preset("green", freshId), StripId("7597pq6KQwsfV4HVf2vsor")), 50),
      [(137, 57, 100, 0)])
  }

  function HalloweenEffect(freshId: string): (r: SegmentEffect)
    ensures PresetShaped(r) && r.brightness == 50
  {
    WithDisplayColors(WithBrightness(WithId(Preset("halloween", freshId), StripId("3DSdleFU3ty3QP4Ud3ZXMD")), 50),
      [(20, 87, 100, 0), (20, 87, 100, 0), (20, 87, 100, 0)])
  }

  function HappyEffect(freshId: string): (r: SegmentEffect)
    ensures PresetShaped(r) && r.brightness == 50
  {
    WithDisplayColors(WithBrightness(WithId(Preset("happy", freshId), StripId("73Svjln3dFbgu75rL1UrKh")), 50),
      [(298, 58, 100, 0), (216, 49, 100, 0), (182, 94, 100, 0)])
  }

  function JazzEffect(freshId: string): (r: SegmentEffect)
    ensures PresetShaped(r) && r.brightness == 50
  {
    WithDisplayColors(WithBrightness(WithId(Preset("jazz", freshId), StripId("47WNHiq9BbSNpE822vU6RP")), 50),
      [(20, 87, 100, 0), (298, 58, 100, 0), (34, 20, 100, 0), (48, 87, 100, 0)])
  }

  function LakeEffect(freshId: string): (r: SegmentEffect)
    ensures PresetShaped(r) && r.brightness == 50
  {
    WithDisplayColors(WithBrightness(WithId(Preset("lake", freshId), StripId("03Dhq9acJ7TeK5p55zNPlO")), 50),
      [(188, 100, 100, 0), (188, 100, 100, 0), (49, 61, 100, 0)])
  }

  function LightGreenEffect(freshId: string): (r: SegmentEffect)
    ensures PresetShaped(r) && r.brightness == 50
  {
    WithDisplayColors(WithBrightness(WithId(Preset("light_green", freshId), StripId("1IgXu8L5zqIRbFqhcEwk5V")), 50),
      [(92, 49, 100, 0)])
  }

  function LyricEffect(freshId: string): (r: SegmentEffect)
    ensures PresetShaped(r) && r.brightness == 50
  {
    WithDisplayColors(WithBrightness(WithId(Preset("lyric", freshId), StripId("7L4YEbUn65YY8Lex6wHj52")), 50),
      [(20, 87, 100, 0), (35, 8, 100, 0), (298, 58, 100, 0), (192, 78, 100, 0)])
  }

  function MoonlightEffect(freshId: string): (r: SegmentEffect)
    ensures PresetShaped(r) && r.brightness == 25
  {
    WithDisplayColors(WithBrightness(WithId(Preset("moonlight", freshId), StripId("2ufTEngo3cOhJvSZrvSKdV")), 25),
      [(260, 68, 100, 0), (0, 0, 100, 0), (260, 68, 100, 0)])
  }

  function MorningEffect(freshId: string): (r: SegmentEffect)
    ensures PresetShaped(r) && r.brightness == 50
  {
    WithDisplayColors(WithBrightness(WithId(Preset("morning", freshId), StripId("7B11L46nAjBGWSOQ2O2VLv")), 50),
      [(182, 94, 100, 0), (182, 94, 100, 0), (182, 94, 100, 0)])
  }

  function MovieEffect(freshId: string): (r: SegmentEffect)
    ensures PresetShaped(r) && r.brightness == 50
  {
    WithDisplayColors(WithBrightness(WithId(Preset("movie", freshId), StripId("2I5ccWSquBU8j3Vnq8lAyd")), 50),
      [(183, 56, 100, 0)])
  }

  function NewYearEffect(freshId: string): (r: SegmentEffect)
    ensures PresetShaped(r) && r.brightness == 50
  {
    WithDisplayColors(WithBrightness(WithId(Preset("new_year", freshId), StripId("0SPC7sLfhBFFpjPin9EjWi")), 50),
      [(0, 87, 100, 0), (298, 58, 100, 0), (182, 94, 100, 0), (135, 80, 100, 0)])
  }

  function NightEffect(freshId: string): (r: SegmentEffect)
    ensures PresetShaped(r) && r.brightness == 50
  {
    WithDisplayColors(WithBrightness(WithId(Preset("night", freshId), StripId("0je4XrPck2GUabCqqqtgjV")), 50),
      [(285, 58, 100, 0), (216, 49, 100, 0)])
  }

  function OrangeEffect(freshId: string): (r: SegmentEffect)
    ensures PresetShaped(r) && r.brightness == 50
  {
    WithDisplayColors(WithBrightness(WithId(Preset("orange", freshId), StripId("7fld2P3UXtjklt0zeOkybx")), 50),
      [(39, 52, 100, 0)])
  }

  function PinkEffect(freshId: string): (r: SegmentEffect)
    ensures PresetShaped(r) && r.brightness == 50
  {
    WithDisplayColors(WithBrightness(WithId(Preset("pink", freshId), StripId("0ns4qSp5U0iw23YDakyR3I")), 50),
      [(329, 30, 100, 0)])
  }

  function PurpleEffect(freshId: string): (r: SegmentEffect)
    ensures PresetShaped(r) && r.brightness == 50
  {
    WithDisplayColors(WithBrightness(WithId(Preset("purple", freshId), StripId("29591QOxwUNV20Pqfx720l")), 50),
      [(281, 51, 100, 0)])
  }

  function QuietEffect(freshId: string): (r: SegmentEffect)
    ensures PresetShaped(r) && r.brightness == 50
  {
    WithDisplayColors(WithBrightness(WithId(Preset("quiet", freshId), StripId("1wCEVdKuooI1CJofw25Axw")), 50),
      [(48, 87, 100, 0), (135, 53, 100, 0)])
  }

  function RedEffect(freshId: string): (r: SegmentEffect)
    ensures PresetShaped(r) && r.brightness == 50
  {
    WithDisplayColors(WithBrightness(WithId(Preset("red", freshId), StripId("4BL9bCCMh2g1zYysCl9hlJ")), 50),
      [(0, 51, 100, 0)])
  }

  function RelaxedEffect(freshId: string): (r: SegmentEffect)
    ensures PresetShaped(r) && r.brightness == 50
  {
    WithDisplayColors(WithBrightness(WithId(Preset("relaxed", freshId), StripId("4CMF6Zyq33hi0dVCw4DEZk")), 50),
      [(48, 87, 100, 0), (135, 80, 100, 0), (182, 94, 100, 0)])
  }

  function RockEffect(freshId: string): (r: SegmentEffect)
    ensures PresetShaped(r) && r.brightness == 50
  {
    WithDisplayColors(WithBrightness(WithId(Preset("rock", freshId), StripId("09nXMfB9vlqMRnaZtUNvNv")), 50),
      [(12, 87, 100, 0), (49, 10, 100, 0), (192, 78, 100, 0)])
  }

  function SirenEffect(freshId: string): (r: SegmentEffect)
    ensures PresetShaped(r) && r.brightness == 50
  {
    WithDisplayColors(WithBrightness(WithId(Preset("siren", freshId), StripId("45PsgBVIPAS8eAeejFKLaq")), 50),
      [(298, 58, 100, 0), (20, 87, 100, 0), (182, 94, 100, 0)])
  }

  function SleepEffect(freshId: string): (r: SegmentEffect)
    ensures PresetShaped(r) && r.brightness == 50
  {
    WithDisplayColors(WithBrightness(WithId(Preset("sleep", freshId), StripId("5EcqkgKhof7H4VZHv6GF8W")), 50),
      [(48, 67, 100, 0), (20, 63, 100, 0), (48, 67, 100, 0)])
  }

  function SnowEffect(freshId: string): (r: SegmentEffect)
    ensures PresetShaped(r) && r.brightness == 50
  {
    WithDisplayColors(WithBrightness(WithId(Preset("snow", freshId), StripId("6J1Wz1BcYAIZ0Hr0hrLtHz")), 50),
      [(0, 0, 100, 0), (0, 0, 100, 0), (0, 0, 100, 0), (0, 0, 100, 0)])
  }

  function StarEffect(freshId: string): (r: SegmentEffect)
    ensures PresetShaped(r) && r.brightness == 50
  {
    WithDisplayColors(WithBrightness(WithId(Preset("star", freshId), StripId("5BUE2IZxWBlvTyndwlGWxZ")), 50),
      [(0, 0, 100, 0), (188, 61, 100, 0), (0, 0, 100, 0), (188, 61, 100, 0)])
  }

  function StudyEffect(freshId: string): (r: SegmentEffect)
    ensures PresetShaped(r) && r.brightness == 50
  {
    WithDisplayColors(WithBrightness(WithId(Preset("study", freshId), StripId("1LMVpsdYvcqOvj7B49Zgsv")), 50),
      [(0, 0, 100, 0)])
  }

  function SummerEffect(freshId: string): (r: SegmentEffect)
    ensures PresetShaped(r) && r.brightness == 50
  {
    WithDisplayColors(WithBrightness(WithId(Preset("summer", freshId), StripId("3EpKcvOXOg7JOzI2CEGHfV")), 50),
      [(298, 58, 100, 0), (182, 94, 100, 0), (182, 94, 100, 0), (298, 58, 100, 0)])
  }

  function SunnyEffect(freshId: string): (r: SegmentEffect)
    ensures PresetShaped(r) && r.brightness == 50
  {
    WithDisplayColors(WithBrightness(WithId(Preset("sunny", freshId), StripId("7iphEteHrkOB6RxyaHB7lq")), 50),
      [(0, 0, 100, 0), (182, 94, 100, 0), (221, 65, 100, 0)])
  }

  function SweetEffect(freshId: string): (r: SegmentEffect)
    ensures PresetShaped(r) && r.brightness == 50
  {
    WithDisplayColors(WithBrightness(WithId(Preset("sweet", freshId), StripId("6HWuKPlEFY5Tu8iZECj8Cu")), 50),
      [(298, 58, 100, 0), (298, 58, 100, 0)])
  }

  function TenseEffect(freshId: string): (r: SegmentEffect)
    ensures PresetShaped(r) && r.brightness == 50
  {
    WithDisplayColors(WithBrightness(WithId(Preset("tense", freshId), StripId("6lFm0gKWSdV0EZkMBrEdbs")), 50),
      [(20, 87, 100, 0), (20, 87, 100, 0), (20, 87, 100, 0)])
  }

  function ThinkingEffect(freshId: string): (r: SegmentEffect)
    ensures PresetShaped(r) && r.brightness == 50
  {
    WithDisplayColors(WithBrightness(WithId(Preset("thinking", freshId), StripId("0X0JpxWy3bXrg9UYIjOOHE")), 50),
      [(182, 94, 100, 0), (182, 94, 100, 0), (182, 94, 100, 0)])
  }

  function UniverseEffect(freshId: string): (r: SegmentEffect)
    ensures PresetShaped(r) && r.brightness == 50
  {
    WithDisplayColors(WithBrightness(WithId(Preset("universe", freshId), StripId("0VS5wowo18K0pg5eVlQJjo")), 50),
      [(182, 100, 100, 0), (225, 87, 100, 0)])
  }

  function VolcanoEffect(freshId: string): (r: SegmentEffect)
    ensures PresetShaped(r) && r.brightness == 50
  {
    WithDisplayColors(WithBrightness(WithId(Preset("volcano", freshId), StripId("6dJUyTqdQb69WMTtYfmhXp")), 50),
      [(20, 87, 100, 0), (20, 87, 100, 0), (20, 87, 100, 0)])
  }

  function WarmEffect(freshId: string): (r: SegmentEffect)
    ensures PresetShaped(r) && r.brightness == 50
  {
    WithDisplayColors(WithBrightness(WithId(Preset("warm", freshId), StripId("6lcSZhR1fFfEK67cU35bgk")), 50),
      [(20, 87, 100, 0), (20, 87, 100, 0)])
  }

  function WhiteEffect(freshId: string): (r: SegmentEffect)
    ensures PresetShaped(r) && r.brightness == 50
  {
    WithDisplayColors(WithBrightness(WithId(Preset("white", freshId), StripId("3WQHPF6iH8vT8ZUVnTymzr")), 50),
      [(0, 0, 100, 0)])
  }

  function WinterEffect(freshId: string): (r: SegmentEffect)
    ensures PresetShaped(r) && r.brightness == 50
  {
    WithDisplayColors(WithBrightness(WithId(Preset("winter", freshId), StripId("0PpgOmXVg0WWdF3710KxbA")), 50),
      [(182, 94, 100, 0), (0, 0, 100, 0), (0, 0, 100, 0), (182, 94, 100, 0)])
  }

  function WorkEffect(freshId: string): (r: SegmentEffect)
    ensures PresetShaped(r) && r.brightness == 50
  {
    WithDisplayColors(WithBrightness(WithId(Preset("work", freshId), StripId("2Xeosp9nHkJIPL2491cbtQ")), 50),
      [(187, 41, 100, 0), (0, 0, 100, 0), (0, 0, 100, 0), (187, 41, 100, 0)])
  }

  function YellowEffect(freshId: string): (r: SegmentEffect)
    ensures PresetShaped(r) && r.brightness == 50
  {
    WithDisplayColors(WithBrightness(WithId(Preset("yellow", freshId), StripId("0m6KyfHdw3GK3ge199nxJC")), 50),
      [(55, 75, 100, 0)])
  }

  /** `From<SegmentEffectPreset>`, Moonlight set apart. */
  function FromPreset(p: SegmentEffectPreset, freshId: string): (r: SegmentEffect)
    ensures PresetShaped(r)
  {
    if p.Moonlight? then MoonlightEffect(freshId) else StandardPreset(p, freshId)
  }

  /** The rows of the table other than Moonlight: all at brightness 50. */
  function StandardPreset(p: SegmentEffectPreset, freshId: string): (r: SegmentEffect)
    requires !p.Moonlight?
    ensures PresetShaped(r) && r.brightness == 50
  {
    match p
    case Birthday => BirthdayEffect(freshId)
    case Blue => BlueEffect(freshId)
    case Bonfire => BonfireEffect(freshId)
    case Candlelight => CandlelightEffect(freshId)
    case Carnival => CarnivalEffect(freshId)
    case Cyan => CyanEffect(freshId)
    case Dancing => DancingEffect(freshId)
    case Dating => DatingEffect(freshId)
    case Disco => DiscoEffect(freshId)
    case Dreamland => DreamlandEffect(freshId)
    case ElectroDance => ElectroDanceEffect(freshId)
    case Energetic => EnergeticEffect(freshId)
    case Excited => ExcitedEffect(freshId)
    case Fall => FallEffect(freshId)
    case Family => FamilyEffect(freshId)
    case Fireworks => FireworksEffect(freshId)
    case FlowerField => FlowerFieldEffect(freshId)
    case Forest => ForestEffect(freshId)
    case Game => GameEffect(freshId)
    case Green => GreenEffect(freshId)
    case Halloween => HalloweenEffect(freshId)
    case Happy => HappyEffect(freshId)
    case Jazz => JazzEffect(freshId)
    case Lake => LakeEffect(freshId)
    case LightGreen => LightGreenEffect(freshId)
    case Lyric => LyricEffect(freshId)
    case Morning => MorningEffect(freshId)
    case Movie => MovieEffect(freshId)
    case NewYear => NewYearEffect(freshId)
    case Night => NightEffect(freshId)
    case Orange => OrangeEffect(freshId)
    case Pink => PinkEffect(freshId)
    case Purple => PurpleEffect(freshId)
    case Quiet => QuietEffect(freshId)
    case Red => RedEffect(freshId)
    case Relaxed => RelaxedEffect(freshId)
    case Rock => RockEffect(freshId)
    case Siren => SirenEffect(freshId)
    case Sleep => SleepEffect(freshId)
    case Snow => SnowEffect(freshId)
    case Star => StarEffect(freshId)
    case Study => StudyEffect(freshId)
    case Summer => SummerEffect(freshId)
    case Sunny => SunnyEffect(freshId)
    case Sweet => SweetEffect(freshId)
    case Tense => TenseEffect(freshId)
    case Thinking => ThinkingEffect(freshId)
    case Universe => UniverseEffect(freshId)
    case Volcano => VolcanoEffect(freshId)
    case Warm => WarmEffect(freshId)
    case White => WhiteEffect(freshId)
    case Winter => WinterEffect(freshId)
    case Work => WorkEffect(freshId)
    case Yellow => YellowEffect(freshId)
  }

  /** Moonlight is the one preset dimmed to 25; all others use 50. */
  lemma PresetBrightness(p: SegmentEffectPreset, freshId: string)
    ensures (FromPreset(p, freshId).brightness == 25) <==> p.Moonlight?
    ensures !p.Moonlight? ==> FromPreset(p, freshId).brightness == 50
  {
  }

  /** Every built-in preset passes validation, whatever uuid was drawn. */
  lemma PresetsValidate(p: SegmentEffectPreset, freshId: string)
    ensures Validate(FromPreset(p, freshId)).Ok?
  {
  }
}
