/** The preset colours of the Google Home app and the three tables that
    give each one's hue, saturation and colour temperature. */
module Colors {
  import opened Wrappers
  import opened Bytes

  datatype Color =
    | CoolWhite
    | Daylight
    | Ivory
    | WarmWhite
    | Incandescent
    | Candlelight
    | Snow
    | GhostWhite
    | AliceBlue
    | LightGoldenrod
    | LemonChiffon
    | AntiqueWhite
    | Gold
    | Peru
    | Chocolate
    | SandyBrown
    | Coral
    | Pumpkin
    | Tomato
    | Vermilion
    | OrangeRed
    | Pink
    | Crimson
    | DarkRed
    | HotPink
    | Smitten
    | MediumPurple
    | BlueViolet
    | Indigo
    | LightSkyBlue
    | CornflowerBlue
    | Ultramarine
    | DeepSkyBlue
    | Azure
    | NavyBlue
    | LightTurquoise
    | Aquamarine
    | Turquoise
    | LightGreen
    | Lime
    | ForestGreen

  /** A colour temperature in kelvin of the white presets. */
  predicate IsWhiteTemperature(t: int) {
    2500 <= t <= 6500
  }

  /** The table behind `Color::get_color_config`: `(hue, saturation,
      color_temperature)`, with a zero temperature for the chromatic
      presets. White presets have hue 0 and saturation 100. */
  function ColorConfig(c: Color): (r: (u16, byte, u16))
    ensures r.2 != 0 ==> r.0 == 0 && r.1 == 100 && IsWhiteTemperature(r.2)
    ensures r.2 == 0 ==> r.0 <= 360 && 1 <= r.1 <= 100
  {
    match c
    case CoolWhite => (0, 100, 4000)
    case Daylight => (0, 100, 5000)
    case Ivory => (0, 100, 6000)
    case WarmWhite => (0, 100, 3000)
    case Incandescent => (0, 100, 2700)
    case Candlelight => (0, 100, 2500)
    case Snow => (0, 100, 6500)
    case GhostWhite => (0, 100, 6500)
    case AliceBlue => (208, 5, 0)
    case LightGoldenrod => (54, 28, 0)
    case LemonChiffon => (54, 19, 0)
    case AntiqueWhite => (0, 100, 5500)
    case Gold => (50, 100, 0)
    case Peru => (29, 69, 0)
    case Chocolate => (30, 100, 0)
    case SandyBrown => (27, 60, 0)
    case Coral => (16, 68, 0)
    case Pumpkin => (24, 90, 0)
    case Tomato => (9, 72, 0)
    case Vermilion => (4, 77, 0)
    case OrangeRed => (16, 100, 0)
    case Pink => (349, 24, 0)
    case Crimson => (348, 90, 0)
    case DarkRed => (0, 100, 0)
    case HotPink => (330, 58, 0)
    case Smitten => (329, 67, 0)
    case MediumPurple => (259, 48, 0)
    case BlueViolet => (271, 80, 0)
    case Indigo => (274, 100, 0)
    case LightSkyBlue => (202, 46, 0)
    case CornflowerBlue => (218, 57, 0)
    case Ultramarine => (254, 100, 0)
    case DeepSkyBlue => (195, 100, 0)
    case Azure => (210, 100, 0)
    case NavyBlue => (240, 100, 0)
    case LightTurquoise => (180, 26, 0)
    case Aquamarine => (159, 50, 0)
    case Turquoise => (174, 71, 0)
    case LightGreen => (120, 39, 0)
    case Lime => (75, 100, 0)
    case ForestGreen => (120, 75, 0)
  }

  /** The table of the crate's colour module, every component present. */
  function ColorMap(c: Color): (r: (Option<u16>, Option<byte>, Option<u16>))
    ensures r.0.Some? && r.1.Some? && r.2.Some?
  {
    match c
    case CoolWhite => (Some(0), Some(100), Some(4000))
    case Daylight => (Some(0), Some(100), Some(5000))
    case Ivory => (Some(0), Some(100), Some(6000))
    case WarmWhite => (Some(0), Some(100), Some(3000))
    case Incandescent => (Some(0), Some(100), Some(2700))
    case Candlelight => (Some(0), Some(100), Some(2500))
    case Snow => (Some(0), Some(100), Some(6500))
    case GhostWhite => (Some(0), Some(100), Some(6500))
    case AliceBlue => (Some(208), Some(5), Some(0))
    case LightGoldenrod => (Some(54), Some(28), Some(0))
    case LemonChiffon => (Some(54), Some(19), Some(0))
    case AntiqueWhite => (Some(0), Some(100), Some(5500))
    case Gold => (Some(50), Some(100), Some(0))
    case Peru => (Some(29), Some(69), Some(0))
    case Chocolate => (Some(30), Some(100), Some(0))
    case SandyBrown => (Some(27), Some(60), Some(0))
    case Coral => (Some(16), Some(68), Some(0))
    case Pumpkin => (Some(24), Some(90), Some(0))
    case Tomato => (Some(9), Some(72), Some(0))
    case Vermilion => (Some(4), Some(77), Some(0))
    case OrangeRed => (Some(16), Some(100), Some(0))
    case Pink => (Some(349), Some(24), Some(0))
    case Crimson => (Some(348), Some(90), Some(0))
    case DarkRed => (Some(0), Some(100), Some(0))
    case HotPink => (Some(330), Some(58), Some(0))
    case Smitten => (Some(329), Some(67), Some(0))
    case MediumPurple => (Some(259), Some(48), Some(0))
    case BlueViolet => (Some(271), Some(80), Some(0))
    case Indigo => (Some(274), Some(100), Some(0))
    case LightSkyBlue => (Some(202), Some(46), Some(0))
    case CornflowerBlue => (Some(218), Some(57), Some(0))
    case Ultramarine => (Some(254), Some(100), Some(0))
    case DeepSkyBlue => (Some(195), Some(100), Some(0))
    case Azure => (Some(210), Some(100), Some(0))
    case NavyBlue => (Some(240), Some(100), Some(0))
    case LightTurquoise => (Some(180), Some(26), Some(0))
    case Aquamarine => (Some(159), Some(50), Some(0))
    case Turquoise => (Some(174), Some(71), Some(0))
    case LightGreen => (Some(120), Some(39), Some(0))
    case Lime => (Some(75), Some(100), Some(0))
    case ForestGreen => (Some(120), Some(75), Some(0))
  }

  /** The table of the legacy client: a white preset has only a
      temperature, a chromatic one only hue and saturation. */
  function LegacyColorMap(c: Color): (r: (Option<u16>, Option<byte>, Option<u16>))
    ensures r.2.Some? <==> r.0.None?
    ensures r.0.Some? <==> r.1.Some?
    ensures r.2.Some? ==> IsWhiteTemperature(r.2.value)
  {
    match c
    case CoolWhite => (None, None, Some(4000))
    case Daylight => (None, None, Some(5000))
    case Ivory => (None, None, Some(6000))
    case WarmWhite => (None, None, Some(3000))
    case Incandescent => (None, None, Some(2700))
    case Candlelight => (None, None, Some(2500))
    case Snow => (None, None, Some(6500))
    case GhostWhite => (None, None, Some(6500))
    case AliceBlue => (Some(208), Some(5), None)
    case LightGoldenrod => (Some(54), Some(28), None)
    case LemonChiffon => (Some(54), Some(19), None)
    case AntiqueWhite => (None, None, Some(5500))
    case Gold => (Some(50), Some(100), None)
    case Peru => (Some(29), Some(69), None)
    case Chocolate => (Some(30), Some(100), None)
    case SandyBrown => (Some(27), Some(60), None)
    case Coral => (Some(16), Some(68), None)
    case Pumpkin => (Some(24), Some(90), None)
    case Tomato => (Some(9), Some(72), None)
    case Vermilion => (Some(4), Some(77), None)
    case OrangeRed => (Some(16), Some(100), None)
    case Pink => (Some(349), Some(24), None)
    case Crimson => (Some(348), Some(90), None)
    case DarkRed => (Some(0), Some(100), None)
    case HotPink => (Some(330), Some(58), None)
    case Smitten => (Some(329), Some(67), None)
    case MediumPurple => (Some(259), Some(48), None)
    case BlueViolet => (Some(271), Some(80), None)
    case Indigo => (Some(274), Some(100), None)
    case LightSkyBlue => (Some(202), Some(46), None)
    case CornflowerBlue => (Some(218), Some(57), None)
    case Ultramarine => (Some(254), Some(100), None)
    case DeepSkyBlue => (Some(195), Some(100), None)
    case Azure => (Some(210), Some(100), None)
    case NavyBlue => (Some(240), Some(100), None)
    case LightTurquoise => (Some(180), Some(26), None)
    case Aquamarine => (Some(159), Some(50), None)
    case Turquoise => (Some(174), Some(71), None)
    case LightGreen => (Some(120), Some(39), None)
    case Lime => (Some(75), Some(100), None)
    case ForestGreen => (Some(120), Some(75), None)
  }

  /** The two tables of the current crate hold the same numbers. */
  lemma ColorMapAgrees(c: Color)
    ensures ColorMap(c) == (Some(ColorConfig(c).0), Some(ColorConfig(c).1), Some(ColorConfig(c).2))
  {
  }

  /** The legacy table holds the same presets, with the hue/saturation
      pair or the temperature dropped according to the kind of colour. */
  lemma LegacyColorMapAgrees(c: Color)
    ensures ColorConfig(c).2 != 0 ==> LegacyColorMap(c) == (None, None, Some(ColorConfig(c).2))
    ensures ColorConfig(c).2 == 0 ==> LegacyColorMap(c) == (Some(ColorConfig(c).0), Some(ColorConfig(c).1), None)
  {
  }

  /** Dark red is the only chromatic preset with hue 0. */
  lemma OnlyDarkRedHasZeroHue(c: Color)
    ensures ColorConfig(c).2 == 0 && ColorConfig(c).0 == 0 <==> c == DarkRed
  {
  }
}
