/** The older crate's lighting-effect presets: the same builder, with the
    id passed to `new` instead of set afterwards. */
module LegacyLightingEffects {
  import opened Wrappers
  import opened Bytes
  import opened LightingEffects
  import SegmentEffects

  function LegacyAuroraEffect(): (r: LightingEffect)
    ensures PresetShaped(r)
  {
    var e := LegacyNew(SegmentEffects.StripId("1MClvV18i15Jq3bvJVf0eP"), "Aurora", Sequence, false, true, 100,
      [(120, 100, 100), (240, 100, 100), (260, 100, 100), (280, 100, 100)]);
    var e := WithDirection(e, 4);
    var e := WithDuration(e, 0);
    var e := WithExpansionStrategy(e, 1);
    var e := WithRepeatTimes(e, 0);
    var e := WithSegments(e, [0]);
    var e := WithSequence(e, [(120, 100, 100), (240, 100, 100), (260, 100, 100), (280, 100, 100)]);
    var e := WithSpread(e, 7);
    var e := WithTransition(e, 1500);
    e
  }

  function LegacyBubblingCauldronEffect(): (r: LightingEffect)
    ensures PresetShaped(r)
  {
    var e := LegacyNew(SegmentEffects.StripId("6DlumDwO2NdfHppy50vJtu"), "Bubbling Cauldron", Random, false, true, 100,
      [(100, 100, 100), (270, 100, 100)]);
    var e := WithBackgrounds(e, [(270, 40, 50)]);
    var e := WithBrightnessRange(e, (50, 100));
    var e := WithInitStates(e, [(270, 100, 100)]);
    var e := WithDuration(e, 0);
    var e := WithExpansionStrategy(e, 1);
    var e := WithFadeOff(e, 1000);
    var e := WithHueRange(e, (100, 270));
    var e := WithRandomSeed(e, 24);
    var e := WithSaturationRange(e, (80, 100));
    var e := WithSegments(e, [0]);
    var e := WithTransition(e, 200);
    e
  }

  function LegacyCandyCaneEffect(): (r: LightingEffect)
    ensures PresetShaped(r)
  {
    var e := LegacyNew(SegmentEffects.StripId("6Dy0Nc45vlhFPEzG021Pe9"), "Candy Cane", Sequence, false, true, 100,
      [(0, 0, 100), (360, 81, 100)]);
    var e := WithDirection(e, 1);
    var e := WithDuration(e, 700);
    var e := WithExpansionStrategy(e, 1);
    var e := WithRepeatTimes(e, 0);
    var e := WithSegments(e, [0, 1, 2, 3, 4, 5, 6, 7, 8, 9, 10, 11, 12, 13, 14, 15]);
    var e := WithSequence(e, [
      (0, 0, 100), (0, 0, 100), (360, 81, 100), (0, 0, 100), (0, 0, 100),
      (360, 81, 100), (360, 81, 100), (0, 0, 100), (0, 0, 100), (360, 81, 100),
      (360, 81, 100), (360, 81, 100), (360, 81, 100), (0, 0, 100), (0, 0, 100),
      (360, 81, 100)]);
    var e := WithSpread(e, 1);
    var e := WithTransition(e, 500);
    e
  }

  function LegacyChristmasEffect(): (r: LightingEffect)
    ensures PresetShaped(r)
  {
    var e := LegacyNew(SegmentEffects.StripId("5zkiG6avJ1IbhjiZbRlWvh"), "Christmas", Random, false, true, 100,
      [(136, 98, 100), (350, 97, 100)]);
    var e := WithBackgrounds(e, [(136, 98, 75), (136, 0, 0), (350, 0, 100), (350, 97, 94)]);
    var e := WithBrightnessRange(e, (50, 100));
    var e := WithInitStates(e, [(136, 0, 100)]);
    var e := WithDuration(e, 5000);
    var e := WithExpansionStrategy(e, 1);
    var e := WithFadeOff(e, 2000);
    var e := WithHueRange(e, (136, 146));
    var e := WithRandomSeed(e, 100);
    var e := WithSaturationRange(e, (90, 100));
    var e := WithSegments(e, [0]);
    var e := WithTransition(e, 0);
    e
  }

  function LegacyFlickerEffect(): (r: LightingEffect)
    ensures PresetShaped(r)
  {
    var e := LegacyNew(SegmentEffects.StripId("4HVKmMc6vEzjm36jXaGwMs"), "Flicker", Random, false, true, 100,
      [(30, 81, 100), (40, 100, 100)]);
    var e := WithBrightnessRange(e, (50, 100));
    var e := WithInitStates(e, [(30, 81, 80)]);
    var e := WithDuration(e, 0);
    var e := WithExpansionStrategy(e, 1);
    var e := WithHueRange(e, (30, 40));
    var e := WithSaturationRange(e, (100, 100));
    var e := WithSegments(e, [1]);
    var e := WithTransition(e, 0);
    var e := WithTransitionRange(e, (375, 500));
    e
  }

  function LegacyGrandmasChristmasLightsEffect(): (r: LightingEffect)
    ensures PresetShaped(r)
  {
    var e := LegacyNew(SegmentEffects.StripId("3Gk6CmXOXbjCiwz9iD543C"), "Grandma's Christmas Lights", Sequence, false, true, 100,
      [(30, 100, 100), (240, 100, 100), (130, 100, 100), (0, 100, 100)]);
    var e := WithDirection(e, 1);
    var e := WithDuration(e, 5000);
    var e := WithExpansionStrategy(e, 1);
    var e := WithRepeatTimes(e, 0);
    var e := WithSegments(e, [0]);
    var e := WithSequence(e, [
      (30, 100, 100), (30, 0, 0), (30, 0, 0), (240, 100, 100), (240, 0, 0),
      (240, 0, 0), (240, 0, 100), (240, 0, 0), (240, 0, 0), (130, 100, 100),
      (130, 0, 0), (130, 0, 0), (0, 100, 100), (0, 0, 0), (0, 0, 0)]);
    var e := WithSpread(e, 1);
    var e := WithTransition(e, 100);
    e
  }

  function LegacyHanukkahEffect(): (r: LightingEffect)
    ensures PresetShaped(r)
  {
    var e := LegacyNew(SegmentEffects.StripId("2YTk4wramLKv5XZ9KFDVYm"), "Hanukkah", Random, false, true, 100,
      [(200, 100, 100)]);
    var e := WithBrightnessRange(e, (50, 100));
    var e := WithInitStates(e, [(35, 81, 80)]);
    var e := WithDuration(e, 1500);
    var e := WithExpansionStrategy(e, 1);
    var e := WithHueRange(e, (200, 210));
    var e := WithSaturationRange(e, (0, 100));
    var e := WithSegments(e, [1]);
    var e := WithTransition(e, 0);
    var e := WithTransitionRange(e, (400, 500));
    e
  }

  function LegacyHauntedMansionEffect(): (r: LightingEffect)
    ensures PresetShaped(r)
  {
    var e := LegacyNew(SegmentEffects.StripId("4rJ6JwC7I9st3tQ8j4lwlI"), "Haunted Mansion", Random, false, true, 100,
      [(45, 10, 100)]);
    var e := WithBackgrounds(e, [(45, 10, 100)]);
    var e := WithBrightnessRange(e, (0, 80));
    var e := WithInitStates(e, [(45, 10, 100)]);
    var e := WithDuration(e, 0);
    var e := WithExpansionStrategy(e, 2);
    var e := WithFadeOff(e, 200);
    var e := WithHueRange(e, (45, 45));
    var e := WithRandomSeed(e, 1);
    var e := WithSaturationRange(e, (10, 10));
    var e := WithSegments(e, [80]);
    var e := WithTransition(e, 0);
    var e := WithTransitionRange(e, (50, 1500));
    e
  }

  function LegacyIcicleEffect(): (r: LightingEffect)
    ensures PresetShaped(r)
  {
    var e := LegacyNew(SegmentEffects.StripId("7UcYLeJbiaxVIXCxr21tpx"), "Icicle", Sequence, false, true, 100,
      [(190, 100, 100)]);
    var e := WithDirection(e, 4);
    var e := WithDuration(e, 0);
    var e := WithExpansionStrategy(e, 1);
    var e := WithRepeatTimes(e, 0);
    var e := WithSegments(e, [0]);
    var e := WithSequence(e, [
      (190, 100, 70), (190, 100, 70), (190, 30, 50), (190, 100, 70), (190, 100, 70)]);
    var e := WithSpread(e, 3);
    var e := WithTransition(e, 400);
    e
  }

  function LegacyLightningEffect(): (r: LightingEffect)
    ensures PresetShaped(r)
  {
    var e := LegacyNew(SegmentEffects.StripId("7OGzfSfnOdhoO2ri4gOHWn"), "Lightning", Random, false, true, 100,
      [(210, 10, 100), (200, 50, 100), (200, 100, 100)]);
    var e := WithBackgrounds(e, [(200, 100, 100), (200, 50, 10), (210, 10, 50), (240, 10, 0)]);
    var e := WithBrightnessRange(e, (90, 100));
    var e := WithInitStates(e, [(240, 30, 100)]);
    var e := WithDuration(e, 0);
    var e := WithExpansionStrategy(e, 1);
    var e := WithFadeOff(e, 150);
    var e := WithHueRange(e, (240, 240));
    var e := WithRandomSeed(e, 600);
    var e := WithSaturationRange(e, (10, 11));
    var e := WithSegments(e, [7, 20, 23, 32, 34, 35, 49, 65, 66, 74, 80]);
    var e := WithTransition(e, 50);
    e
  }

  function LegacyOceanEffect(): (r: LightingEffect)
    ensures PresetShaped(r)
  {
    var e := LegacyNew(SegmentEffects.StripId("0fOleCdwSgR0nfjkReeYfw"), "Ocean", Sequence, false, true, 100,
      [(198, 84, 100)]);
    var e := WithDirection(e, 3);
    var e := WithDuration(e, 0);
    var e := WithExpansionStrategy(e, 1);
    var e := WithRepeatTimes(e, 0);
    var e := WithSegments(e, [0]);
    var e := WithSequence(e, [(198, 84, 30), (198, 70, 30), (198, 10, 30)]);
    var e := WithSpread(e, 16);
    var e := WithTransition(e, 2000);
    e
  }

  function LegacyRainbowEffect(): (r: LightingEffect)
    ensures PresetShaped(r)
  {
    var e := LegacyNew(SegmentEffects.StripId("7CC5y4lsL8pETYvmz7UOpQ"), "Rainbow", Sequence, false, true, 100,
      [(0, 100, 100), (100, 100, 100), (200, 100, 100), (300, 100, 100)]);
    var e := WithDirection(e, 1);
    var e := WithDuration(e, 0);
    var e := WithExpansionStrategy(e, 1);
    var e := WithRepeatTimes(e, 0);
    var e := WithSegments(e, [0]);
    var e := WithSequence(e, [(0, 100, 100), (100, 100, 100), (200, 100, 100), (300, 100, 100)]);
    var e := WithSpread(e, 12);
    var e := WithTransition(e, 1500);
    e
  }

  function LegacyRaindropEffect(): (r: LightingEffect)
    ensures PresetShaped(r)
  {
    var e := LegacyNew(SegmentEffects.StripId("1t2nWlTBkV8KXBZ0TWvBjs"), "Raindrop", Random, false, true, 100,
      [(200, 10, 100), (200, 20, 100)]);
    var e := WithBackgrounds(e, [(200, 40, 0)]);
    var e := WithBrightnessRange(e, (10, 30));
    var e := WithInitStates(e, [(200, 40, 100)]);
    var e := WithDuration(e, 0);
    var e := WithExpansionStrategy(e, 1);
    var e := WithFadeOff(e, 1000);
    var e := WithHueRange(e, (200, 200));
    var e := WithRandomSeed(e, 24);
    var e := WithSaturationRange(e, (10, 20));
    var e := WithSegments(e, [0]);
    var e := WithTransition(e, 1000);
    e
  }

  function LegacySpringEffect(): (r: LightingEffect)
    ensures PresetShaped(r)
  {
    var e := LegacyNew(SegmentEffects.StripId("1nL6GqZ5soOxj71YDJOlZL"), "Spring", Random, false, true, 100,
      [(0, 30, 100), (130, 100, 100)]);
    var e := WithBackgrounds(e, [(130, 100, 40)]);
    var e := WithBrightnessRange(e, (90, 100));
    var e := WithInitStates(e, [(80, 30, 100)]);
    var e := WithDuration(e, 600);
    var e := WithExpansionStrategy(e, 1);
    var e := WithFadeOff(e, 1000);
    var e := WithHueRange(e, (0, 90));
    var e := WithRandomSeed(e, 20);
    var e := WithSaturationRange(e, (30, 100));
    var e := WithSegments(e, [0]);
    var e := WithTransition(e, 0);
    var e := WithTransitionRange(e, (2000, 6000));
    e
  }

  function LegacySunriseEffect(): (r: LightingEffect)
    ensures PresetShaped(r)
  {
    var e := LegacyNew(SegmentEffects.StripId("1OVSyXIsDxrt4j7OxyRvqi"), "Sunrise", Pulse, false, true, 100,
      [(30, 0, 100), (30, 95, 100), (0, 100, 100)]);
    var e := WithDirection(e, 1);
    var e := WithDuration(e, 600);
    var e := WithExpansionStrategy(e, 2);
    var e := WithRepeatTimes(e, 1);
    var e := WithSegments(e, [0]);
    var e := WithSequence(e, [
      (0, 100, 5), (0, 100, 5), (10, 100, 6), (15, 100, 7), (20, 100, 8),
      (20, 100, 10), (30, 100, 12), (30, 95, 15), (30, 90, 20), (30, 80, 25),
      (30, 75, 30), (30, 70, 40), (30, 60, 50), (30, 50, 60), (30, 20, 70),
      (30, 0, 100)]);
    var e := WithSpread(e, 1);
    var e := WithTransition(e, 60000);
    var e := WithRunTime(e, 0);
    e
  }

  function LegacySunsetEffect(): (r: LightingEffect)
    ensures PresetShaped(r)
  {
    var e := LegacyNew(SegmentEffects.StripId("5NiN0Y8GAUD78p4neKk9EL"), "Sunset", Pulse, false, true, 100,
      [(0, 100, 100), (30, 95, 100), (30, 0, 100)]);
    var e := WithDirection(e, 1);
    var e := WithDuration(e, 600);
    var e := WithExpansionStrategy(e, 2);
    var e := WithRepeatTimes(e, 1);
    var e := WithSegments(e, [0]);
    var e := WithSequence(e, [
      (30, 0, 100), (30, 20, 100), (30, 50, 99), (30, 60, 98), (30, 70, 97),
      (30, 75, 95), (30, 80, 93), (30, 90, 90), (30, 95, 85), (30, 100, 80),
      (20, 100, 70), (20, 100, 60), (15, 100, 50), (10, 100, 40), (0, 100, 30),
      (0, 100, 0)]);
    var e := WithSpread(e, 1);
    var e := WithTransition(e, 60000);
    var e := WithRunTime(e, 0);
    e
  }

  function LegacyValentinesEffect(): (r: LightingEffect)
    ensures PresetShaped(r)
  {
    var e := LegacyNew(SegmentEffects.StripId("2q1Vio9sSjHmaC7JS9d30l"), "Valentines", Random, false, true, 100,
      [(340, 20, 100), (20, 50, 100), (0, 100, 100), (340, 40, 100)]);
    var e := WithBackgrounds(e, [(340, 20, 50), (20, 50, 50), (0, 100, 50)]);
    var e := WithBrightnessRange(e, (90, 100));
    var e := WithInitStates(e, [(340, 30, 100)]);
    var e := WithDuration(e, 600);
    var e := WithExpansionStrategy(e, 1);
    var e := WithFadeOff(e, 3000);
    var e := WithHueRange(e, (340, 340));
    var e := WithRandomSeed(e, 100);
    var e := WithSaturationRange(e, (30, 40));
    var e := WithSegments(e, [0]);
    var e := WithTransition(e, 2000);
    e
  }

  /** The older `From<LightingEffectPreset>`. */
  function LegacyFromPreset(p: LightingEffectPreset): (r: LightingEffect)
    ensures PresetShaped(r)
  {
    match p
    case Aurora => LegacyAuroraEffect()
    case BubblingCauldron => LegacyBubblingCauldronEffect()
    case CandyCane => LegacyCandyCaneEffect()
    case Christmas => LegacyChristmasEffect()
    case Flicker => LegacyFlickerEffect()
    case GrandmasChristmasLights => LegacyGrandmasChristmasLightsEffect()
    case Hanukkah => LegacyHanukkahEffect()
    case HauntedMansion => LegacyHauntedMansionEffect()
    case Icicle => LegacyIcicleEffect()
    case Lightning => LegacyLightningEffect()
    case Ocean => LegacyOceanEffect()
    case Rainbow => LegacyRainbowEffect()
    case Raindrop => LegacyRaindropEffect()
    case Spring => LegacySpringEffect()
    case Sunrise => LegacySunriseEffect()
    case Sunset => LegacySunsetEffect()
    case Valentines => LegacyValentinesEffect()
  }

  /** Candy Cane lights segments 0 to 15 and walks a 16-step sequence. */
  lemma LegacyCandyCaneSegments()
    ensures var e := LegacyCandyCaneEffect();
            e.segments.Some? && |e.segments.value| == 16 &&
            (forall i :: 0 <= i < 16 ==> e.segments.value[i] == i) &&
            e.sequence.Some? && |e.sequence.value| == 16
  {
  }

  // Both crates build every preset identically; only where the id is
  // supplied differs.
  lemma AuroraAgrees(freshId: string)
    ensures AuroraEffect(freshId) == LegacyAuroraEffect()
  {
  }

  lemma BubblingCauldronAgrees(freshId: string)
    ensures BubblingCauldronEffect(freshId) == LegacyBubblingCauldronEffect()
  {
  }

  lemma CandyCaneAgrees(freshId: string)
    ensures CandyCaneEffect(freshId) == LegacyCandyCaneEffect()
  {
  }

  lemma ChristmasAgrees(freshId: string)
    ensures ChristmasEffect(freshId) == LegacyChristmasEffect()
  {
  }

  lemma FlickerAgrees(freshId: string)
    ensures FlickerEffect(freshId) == LegacyFlickerEffect()
  {
  }

  lemma GrandmasChristmasLightsAgrees(freshId: string)
    ensures GrandmasChristmasLightsEffect(freshId) == LegacyGrandmasChristmasLightsEffect()
  {
  }

  lemma HanukkahAgrees(freshId: string)
    ensures HanukkahEffect(freshId) == LegacyHanukkahEffect()
  {
  }

  lemma HauntedMansionAgrees(freshId: string)
    ensures HauntedMansionEffect(freshId) == LegacyHauntedMansionEffect()
  {
  }

  lemma IcicleAgrees(freshId: string)
    ensures IcicleEffect(freshId) == LegacyIcicleEffect()
  {
  }

  lemma LightningAgrees(freshId: string)
    ensures LightningEffect(freshId) == LegacyLightningEffect()
  {
  }

  lemma OceanAgrees(freshId: string)
    ensures OceanEffect(freshId) == LegacyOceanEffect()
  {
  }

  lemma RainbowAgrees(freshId: string)
    ensures RainbowEffect(freshId) == LegacyRainbowEffect()
  {
  }

  lemma RaindropAgrees(freshId: string)
    ensures RaindropEffect(freshId) == LegacyRaindropEffect()
  {
  }

  lemma SpringAgrees(freshId: string)
    ensures SpringEffect(freshId) == LegacySpringEffect()
  {
  }

  lemma SunriseAgrees(freshId: string)
    ensures SunriseEffect(freshId) == LegacySunriseEffect()
  {
  }

  lemma SunsetAgrees(freshId: string)
    ensures SunsetEffect(freshId) == LegacySunsetEffect()
  {
  }

  lemma ValentinesAgrees(freshId: string)
    ensures ValentinesEffect(freshId) == LegacyValentinesEffect()
  {
  }
}
