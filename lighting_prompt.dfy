/**
 * The prompt builder of the lighting node's Python side: one lighting prompt
 * per light slot, made of a fixed scene-lock preamble and a description of
 * the light's intensity, colour, direction and height.
 */
module LightingPrompt {
  import opened Wrappers

  // ----- Direction: eight 45-degree sectors -----

  /** `azimuth % 360`; Python's `%` with the positive divisor 360 agrees with Dafny's. */
  function NormalizedAzimuth(azimuth: int): (az: int)
    ensures 0 <= az < 360
    ensures (azimuth - az) % 360 == 0
  {
    azimuth % 360
  }

  /** The direction texts, sector 0 (front) first, clockwise through the right side. */
  const PositionTexts: seq<string> := [
    "light hitting from the front",
    "light hitting from the front-right side",
    "light hitting from the right (90 degrees)",
    "light hitting from the back-right",
    "backlighting, light from behind",
    "light hitting from the back-left",
    "light hitting from the left (90 degrees)",
    "light hitting from the front-left side"
  ]

  /** The direction text of a normalized azimuth, by the threshold chain of the builder. */
  function PositionDesc(az: int): string {
    var a := az as real;
    if a < 22.5 || a >= 337.5 then "light hitting from the front"
    else if a < 67.5 then "light hitting from the front-right side"
    else if a < 112.5 then "light hitting from the right (90 degrees)"
    else if a < 157.5 then "light hitting from the back-right"
    else if a < 202.5 then "backlighting, light from behind"
    else if a < 247.5 then "light hitting from the back-left"
    else if a < 292.5 then "light hitting from the left (90 degrees)"
    else "light hitting from the front-left side"
  }

  /** Sector `k` is the half-open 45-degree interval centred on `45 * k` (sector 0 wraps around 0). */
  predicate InSector(az: int, k: nat) {
    var a := az as real;
    if k == 0 then a < 22.5 || a >= 337.5
    else 45.0 * k as real - 22.5 <= a < 45.0 * k as real + 22.5
  }

  /** The sector of an azimuth: the nearest multiple of 45 degrees, rounding half up, modulo 8. */
  function Sector(az: int): (k: nat)
    requires 0 <= az < 360
    ensures k < 8
  {
    ((2 * az + 45) / 90) % 8
  }

  /** Every normalized azimuth lies in exactly one sector, the one `Sector` names. */
  lemma SectorsPartition(az: int, k: nat)
    requires 0 <= az < 360 && k < 8
    ensures InSector(az, k) <==> k == Sector(az)
  {
  }

  /** The builder's chain gives the text of the azimuth's sector. */
  lemma PositionDescBySector(az: int)
    requires 0 <= az < 360
    ensures PositionDesc(az) == PositionTexts[Sector(az)]
  {
    SectorsPartition(az, Sector(az));
  }

  /** The eight direction texts are pairwise different. */
  lemma PositionTextsDistinct(i: nat, j: nat)
    requires i < 8 && j < 8 && i != j
    ensures PositionTexts[i] != PositionTexts[j]
  {
  }

  /** Two azimuths get the same direction text exactly when they fall in the same sector. */
  lemma PositionDescSameIffSameSector(a: int, b: int)
    ensures var x, y := NormalizedAzimuth(a), NormalizedAzimuth(b);
            PositionDesc(x) == PositionDesc(y) <==> Sector(x) == Sector(y)
  {
    var x, y := NormalizedAzimuth(a), NormalizedAzimuth(b);
    PositionDescBySector(x);
    PositionDescBySector(y);
    if Sector(x) != Sector(y) {
      PositionTextsDistinct(Sector(x), Sector(y));
    }
  }

  // ----- Height: five bands -----

  const ElevationTexts: seq<string> := [
    "extreme low-angle light source, strong bottom-up shadow",
    "low-level light source, bottom-up shadow",
    "horizontal light source",
    "high-positioned light source",
    "top-down ceiling light source"
  ]

  /** The height text of an elevation, by the threshold chain of the builder. */
  function ElevationDesc(elevation: int): string {
    if elevation <= -60 then "extreme low-angle light source, strong bottom-up shadow"
    else if elevation < -30 then "low-level light source, bottom-up shadow"
    else if elevation < 20 then "horizontal light source"
    else if elevation < 60 then "high-positioned light source"
    else "top-down ceiling light source"
  }

  /** The height band: how many of the thresholds -60 (exclusive), -30, 20 and 60 the elevation reaches. */
  function ElevationBand(elevation: int): (b: nat)
    ensures b < 5
  {
    (if elevation > -60 then 1 else 0) + (if elevation >= -30 then 1 else 0) +
    (if elevation >= 20 then 1 else 0) + (if elevation >= 60 then 1 else 0)
  }

  /** The builder's chain gives the text of the elevation's band. */
  lemma ElevationDescByBand(elevation: int)
    ensures ElevationDesc(elevation) == ElevationTexts[ElevationBand(elevation)]
  {
  }

  /** A higher light never gets a lower band. */
  lemma ElevationBandMonotone(e1: int, e2: int)
    requires e1 <= e2
    ensures ElevationBand(e1) <= ElevationBand(e2)
  {
  }

  // ----- Intensity: three bands -----

  const IntensityTexts: seq<string> := ["soft ambient", "bright directional", "strong dramatic contrast"]

  /** The intensity text, by the threshold chain of the builder. */
  function IntensityDesc(intensity: real): string {
    if intensity < 3.0 then "soft ambient"
    else if intensity < 7.0 then "bright directional"
    else "strong dramatic contrast"
  }

  /** The intensity band: how many of the thresholds 3.0 and 7.0 the intensity reaches. */
  function IntensityBand(intensity: real): (b: nat)
    ensures b < 3
  {
    (if intensity >= 3.0 then 1 else 0) + (if intensity >= 7.0 then 1 else 0)
  }

  /** The builder's chain gives the text of the intensity's band. */
  lemma IntensityDescByBand(intensity: real)
    ensures IntensityDesc(intensity) == IntensityTexts[IntensityBand(intensity)]
  {
  }

  /** A stronger light never gets a weaker band. */
  lemma IntensityBandMonotone(i1: real, i2: real)
    requires i1 <= i2
    ensures IntensityBand(i1) <= IntensityBand(i2)
  {
  }

  // ----- The prompt -----

  const GlobalConstraints: string :=
    "SCENE LOCK, CONSTANT BACKGROUND, FIXED SCENERY. "
    + "STATIC SHOT, FIXED VIEWPOINT, NO CAMERA MOVEMENT. "
    + "maintaining character consistency, "
    + "keeping the same character pose and action, "
    + "maintaining the same composition, "
    + "RELIGHTING ONLY: only the light rays and shadows change, the scene remains untouched. "

  const CinematicPrefix: string := "professional cinematic relighting, "
  const CinematicSuffix: string := ", raytraced shadows, realistic global illumination"

  function ColorDesc(colorHex: string): string {
    "colored light (hex: " + colorHex + ")"
  }

  /** The part after the colour: `", {pos_desc}, {elev_desc}"`. */
  function PlaceDesc(azimuth: int, elevation: int): string {
    ", " + PositionDesc(NormalizedAzimuth(azimuth)) + ", " + ElevationDesc(elevation)
  }

  /** `"{int_desc} {color_desc}, {pos_desc}, {elev_desc}"` */
  function DetailPrompt(azimuth: int, elevation: int, intensity: real, colorHex: string): string {
    IntensityDesc(intensity) + " " + ColorDesc(colorHex) + PlaceDesc(azimuth, elevation)
  }

  /** `_build_prompt` */
  function BuildPrompt(azimuth: int, elevation: int, intensity: real, colorHex: string, cinematicMode: bool): (p: string)
    ensures GlobalConstraints <= p
  {
    var detail := DetailPrompt(azimuth, elevation, intensity, colorHex);
    if cinematicMode then GlobalConstraints + CinematicPrefix + detail + CinematicSuffix
    else GlobalConstraints + detail
  }

  /** Where the colour description starts in a prompt. */
  function ColorOffset(intensity: real, cinematicMode: bool): nat {
    |GlobalConstraints| + (if cinematicMode then |CinematicPrefix| else 0) + |IntensityDesc(intensity)| + 1
  }

  /** The slice of `a + b + c` after `a` and as long as `b` is `b`. */
  lemma MiddleSlice(a: string, b: string, c: string)
    ensures (a + b + c)[|a|..|a| + |b|] == b
  {
    assert (a + b + c)[|a|..|a| + |b|] == (a + b)[|a|..];
  }

  /** Every prompt names the light's colour as `colored light (hex: <color>)`, right after the intensity text. */
  lemma PromptCarriesColor(azimuth: int, elevation: int, intensity: real, colorHex: string, cinematicMode: bool)
    ensures var p := BuildPrompt(azimuth, elevation, intensity, colorHex, cinematicMode);
            var k := ColorOffset(intensity, cinematicMode);
            k + |ColorDesc(colorHex)| <= |p| && p[k..k + |ColorDesc(colorHex)|] == ColorDesc(colorHex)
  {
    var i, c, rest := IntensityDesc(intensity) + " ", ColorDesc(colorHex), PlaceDesc(azimuth, elevation);
    if cinematicMode {
      Regroup(GlobalConstraints + CinematicPrefix, i, c, rest, CinematicSuffix);
      MiddleSlice(GlobalConstraints + CinematicPrefix + i, c, rest + CinematicSuffix);
    } else {
      Regroup(GlobalConstraints, i, c, rest, "");
      assert GlobalConstraints + (i + c + rest) + "" == GlobalConstraints + (i + c + rest);
      MiddleSlice(GlobalConstraints + i, c, rest + "");
    }
  }

  /** `pre + (a + b + c) + post` regrouped around `b`. */
  lemma Regroup(pre: string, a: string, b: string, c: string, post: string)
    ensures pre + (a + b + c) + post == (pre + a) + b + (c + post)
  {
  }

  /**
   * The cinematic prompt is the plain prompt with its description wrapped in the
   * cinematic prefix and suffix; the plain prompt is the preamble and the description only.
   */
  lemma CinematicWrapsPlain(azimuth: int, elevation: int, intensity: real, colorHex: string)
    ensures var plain := BuildPrompt(azimuth, elevation, intensity, colorHex, false);
            && plain[|GlobalConstraints|..] == DetailPrompt(azimuth, elevation, intensity, colorHex)
            && BuildPrompt(azimuth, elevation, intensity, colorHex, true)
               == GlobalConstraints + CinematicPrefix + plain[|GlobalConstraints|..] + CinematicSuffix
  {
    var detail := DetailPrompt(azimuth, elevation, intensity, colorHex);
    assert (GlobalConstraints + detail)[|GlobalConstraints|..] == detail;
  }

  /** Azimuths a whole number of turns apart give the same prompt. */
  lemma PromptPeriodic(azimuth: int, turns: int, elevation: int, intensity: real, colorHex: string, cinematicMode: bool)
    ensures BuildPrompt(azimuth + 360 * turns, elevation, intensity, colorHex, cinematicMode)
         == BuildPrompt(azimuth, elevation, intensity, colorHex, cinematicMode)
  {
    var a := azimuth % 360;
    var q := azimuth / 360;
    assert azimuth + 360 * turns == 360 * (q + turns) + a;
    assert (azimuth + 360 * turns) % 360 == a;
  }

  // ----- One prompt per slot -----

  /** One slot as parsed from `light_configs_json`; a missing key is `None`. */
  datatype ConfigEntry = ConfigEntry(azimuth: Option<int>, elevation: Option<int>, intensity: Option<real>, color: Option<string>)

  /** The `light_configs_json` input: empty, not parseable, or a parsed list of slots. */
  datatype ConfigsInput = Blank | Unparsable | Parsed(entries: seq<ConfigEntry>)

  /** `configs` after the parse step: an empty list unless parsing succeeded. */
  function ParsedConfigs(input: ConfigsInput): seq<ConfigEntry> {
    match input
    case Parsed(entries) => entries
    case _ => []
  }

  /** The prompt of one slot, each missing key falling back to the node's own widget value. */
  function EntryPrompt(e: ConfigEntry, azimuth: int, elevation: int, intensity: real, colorHex: string, cinematicMode: bool): string {
    BuildPrompt(e.azimuth.GetOr(azimuth), e.elevation.GetOr(elevation), e.intensity.GetOr(intensity),
                e.color.GetOr(colorHex), cinematicMode)
  }

  /** `f` applied to each element of `xs`, in order. */
  function MapSeq<A, B>(f: A -> B, xs: seq<A>): seq<B>
    decreases |xs|
  {
    if xs == [] then [] else MapSeq(f, xs[..|xs| - 1]) + [f(xs[|xs| - 1])]
  }

  lemma {:induction false} MapSeqElements<A, B>(f: A -> B, xs: seq<A>)
    ensures |MapSeq(f, xs)| == |xs|
    ensures forall i :: 0 <= i < |xs| ==> MapSeq(f, xs)[i] == f(xs[i])
    decreases |xs|
  {
    if xs != [] {
      MapSeqElements(f, xs[..|xs| - 1]);
    }
  }

  /** One prompt per slot, in slot order. */
  function SlotPrompts(configs: seq<ConfigEntry>, azimuth: int, elevation: int, intensity: real, colorHex: string,
                       cinematicMode: bool): seq<string>
  {
    MapSeq(e => EntryPrompt(e, azimuth, elevation, intensity, colorHex, cinematicMode), configs)
  }

  /** The prompt list `generate_lighting_prompt` returns: one per parsed slot, or one from the widget values when there is none. */
  function GeneratedPrompts(azimuth: int, elevation: int, intensity: real, colorHex: string,
                            cinematicMode: bool, input: ConfigsInput): seq<string>
  {
    var configs := ParsedConfigs(input);
    if |configs| > 0 then SlotPrompts(configs, azimuth, elevation, intensity, colorHex, cinematicMode)
    else [BuildPrompt(azimuth, elevation, intensity, colorHex, cinematicMode)]
  }

  /** The prompt loop of `generate_lighting_prompt`. */
  method GenerateLightingPrompt(azimuth: int, elevation: int, intensity: real, colorHex: string,
                                cinematicMode: bool, input: ConfigsInput)
    returns (prompts: seq<string>)
    ensures prompts == GeneratedPrompts(azimuth, elevation, intensity, colorHex, cinematicMode, input)
  {
    var configs := ParsedConfigs(input);
    prompts := [];
    if |configs| > 0 {
      for i := 0 to |configs|
        invariant prompts == SlotPrompts(configs[..i], azimuth, elevation, intensity, colorHex, cinematicMode)
      {
        assert configs[..i + 1][..i] == configs[..i];
        prompts := prompts + [EntryPrompt(configs[i], azimuth, elevation, intensity, colorHex, cinematicMode)];
      }
      assert configs[..|configs|] == configs;
    } else {
      prompts := prompts + [BuildPrompt(azimuth, elevation, intensity, colorHex, cinematicMode)];
    }
  }

  /** The i-th prompt is the prompt of the i-th slot, and there are as many prompts as slots. */
  lemma SlotPromptsElements(configs: seq<ConfigEntry>, azimuth: int, elevation: int, intensity: real,
                            colorHex: string, cinematicMode: bool)
    ensures var r := SlotPrompts(configs, azimuth, elevation, intensity, colorHex, cinematicMode);
            && |r| == |configs|
            && forall i :: 0 <= i < |configs| ==>
                 r[i] == EntryPrompt(configs[i], azimuth, elevation, intensity, colorHex, cinematicMode)
  {
    MapSeqElements(e => EntryPrompt(e, azimuth, elevation, intensity, colorHex, cinematicMode), configs);
  }

  /**
   * `generate_lighting_prompt` returns one prompt per parsed slot when there is
   * at least one, and otherwise (blank or unparsable input, or an empty list)
   * exactly one prompt, built from the widget values.
   */
  lemma GeneratedPromptsShape(azimuth: int, elevation: int, intensity: real, colorHex: string,
                              cinematicMode: bool, input: ConfigsInput)
    ensures var configs := ParsedConfigs(input);
            var r := GeneratedPrompts(azimuth, elevation, intensity, colorHex, cinematicMode, input);
            && |r| == (if |configs| > 0 then |configs| else 1)
            && (|configs| > 0 ==> forall i :: 0 <= i < |configs| ==>
                  r[i] == EntryPrompt(configs[i], azimuth, elevation, intensity, colorHex, cinematicMode))
            && (configs == [] ==> r == [BuildPrompt(azimuth, elevation, intensity, colorHex, cinematicMode)])
  {
    SlotPromptsElements(ParsedConfigs(input), azimuth, elevation, intensity, colorHex, cinematicMode);
  }

  /** Every generated prompt starts with the scene-lock preamble. */
  lemma GeneratedPromptsStartWithConstraints(azimuth: int, elevation: int, intensity: real, colorHex: string,
                                             cinematicMode: bool, input: ConfigsInput)
    ensures var r := GeneratedPrompts(azimuth, elevation, intensity, colorHex, cinematicMode, input);
            forall i :: 0 <= i < |r| ==> GlobalConstraints <= r[i]
  {
    GeneratedPromptsShape(azimuth, elevation, intensity, colorHex, cinematicMode, input);
  }

  /** A slot with every key present gives a prompt that does not depend on the widget values. */
  lemma FullEntryIgnoresWidgets(e: ConfigEntry, a1: int, e1: int, i1: real, c1: string,
                                a2: int, e2: int, i2: real, c2: string, cinematicMode: bool)
    requires e.azimuth.Some? && e.elevation.Some? && e.intensity.Some? && e.color.Some?
    ensures EntryPrompt(e, a1, e1, i1, c1, cinematicMode) == EntryPrompt(e, a2, e2, i2, c2, cinematicMode)
  {
  }

  /** A slot with no keys gives the same prompt as the widget values alone. */
  lemma EmptyEntryUsesWidgets(azimuth: int, elevation: int, intensity: real, colorHex: string, cinematicMode: bool)
    ensures EntryPrompt(ConfigEntry(None, None, None, None), azimuth, elevation, intensity, colorHex, cinematicMode)
         == BuildPrompt(azimuth, elevation, intensity, colorHex, cinematicMode)
  {
  }
}
