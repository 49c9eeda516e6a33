/** The documentation examples: four demo locations, one per wind band, each with a
    layout, a seed and a fallback wind reading, and the file name each script is
    written under. */
module RegenExamples {
  import opened Wrappers
  import opened Numbers
  import opened Text
  import opened WindApi
  import opened FlowMapping
  import opened EisenScript

  /** One curated scenario; the fallback wind is used when no live reading is available. */
  datatype ExampleSpec = ExampleSpec(
    location: string,
    layout: string,
    seed: int,
    bandLabel: string,
    fallbackWind: Option<WindData>)

  /** The curated scenarios, in order of increasing wind. */
  function ExampleSpecs(): seq<ExampleSpec>
  {
    [ ExampleSpec("Calm Demo,XX", "ring", 11, "calm", Some(WindData(0.8, Some(35.0)))),
      ExampleSpec("Breeze Demo,XX", "tower", 12, "breeze", Some(WindData(4.2, Some(120.0)))),
      ExampleSpec("Fresh Demo,XX", "ring", 13, "fresh", Some(WindData(8.7, Some(205.0)))),
      ExampleSpec("Gale Demo,XX", "tower", 14, "gale", Some(WindData(18.0, Some(315.0)))) ]
  }

  // ---------------------------------------------------------------------------
  // Slugs

  /** `str.replace(from, to)` for single characters: every occurrence is rewritten. */
  function ReplaceChar(s: string, from: char, to: char): (r: string)
    ensures |r| == |s|
    ensures forall i :: 0 <= i < |s| ==> r[i] == (if s[i] == from then to else s[i])
  {
    if |s| == 0 then "" else [if s[0] == from then to else s[0]] + ReplaceChar(s[1..], from, to)
  }

  /** `_scene_slug`: lower-case the location, then turn commas and then spaces into
      underscores. */
  function SceneSlug(location: string): string
  {
    ReplaceChar(ReplaceChar(Lower(location), ',', '_'), ' ', '_')
  }

  /** What the slug does to a single character. */
  function SlugChar(c: char): char
  {
    var d := LowerChar(c);
    if d == ',' || d == ' ' then '_' else d
  }

  /** A slug is free of commas, spaces and ASCII capitals. */
  predicate IsSlug(s: string)
  {
    forall i :: 0 <= i < |s| ==> s[i] != ',' && s[i] != ' ' && !('A' <= s[i] <= 'Z')
  }

  /** The three passes amount to rewriting each character on its own: the slug has the
      location's length, and position `i` of the slug depends only on position `i` of
      the location. */
  lemma SlugCharwise(location: string)
    ensures |SceneSlug(location)| == |location|
    ensures forall i :: 0 <= i < |location| ==> SceneSlug(location)[i] == SlugChar(location[i])
  {
  }

  /** Every slug is in the slug alphabet. */
  lemma SlugAlphabet(location: string)
    ensures IsSlug(SceneSlug(location))
  {
    SlugCharwise(location);
    var s := SceneSlug(location);
    forall i | 0 <= i < |s|
      ensures s[i] != ',' && s[i] != ' ' && !('A' <= s[i] <= 'Z')
    {
      assert s[i] == SlugChar(location[i]);
    }
  }

  /** A string is its own slug exactly when it is already in the slug alphabet. */
  lemma SlugFixedPoint(s: string)
    ensures SceneSlug(s) == s <==> IsSlug(s)
  {
    SlugCharwise(s);
    if IsSlug(s) {
      forall i | 0 <= i < |s|
        ensures SceneSlug(s)[i] == s[i]
      {
        assert SlugChar(s[i]) == s[i];
      }
    }
    if SceneSlug(s) == s {
      SlugAlphabet(s);
    }
  }

  /** Slugging twice is the same as slugging once. */
  lemma SlugIdempotent(location: string)
    ensures SceneSlug(SceneSlug(location)) == SceneSlug(location)
  {
    SlugAlphabet(location);
    SlugFixedPoint(SceneSlug(location));
  }

  /** `f"{slug}_{spec.layout}.es"`: the name the script is written under. */
  function ExampleFilename(spec: ExampleSpec): (name: string)
    ensures |name| == |spec.location| + |spec.layout| + 4
    ensures name[..|spec.location|] == SceneSlug(spec.location)
    ensures name[|spec.location|] == '_'
    ensures name[|spec.location| + 1..|name| - 3] == spec.layout
    ensures name[|name| - 3..] == ".es"
  {
    SlugCharwise(spec.location);
    SceneSlug(spec.location) + "_" + spec.layout + ".es"
  }

  /** For locations of the same length, the file name determines the slug and the layout. */
  lemma FilenameDeterminesParts(a: ExampleSpec, b: ExampleSpec)
    requires |a.location| == |b.location|
    requires ExampleFilename(a) == ExampleFilename(b)
    ensures SceneSlug(a.location) == SceneSlug(b.location)
    ensures a.layout == b.layout
  {
    var name := ExampleFilename(a);
    assert SceneSlug(a.location) == name[..|a.location|] == SceneSlug(b.location);
    assert |a.layout| == |b.layout|;
    assert a.layout == name[|a.location| + 1..|name| - 3] == b.layout;
  }

  /** A file name starts with the slug of the location's first character. */
  lemma FilenameStart(spec: ExampleSpec)
    requires |spec.location| > 0
    ensures ExampleFilename(spec)[0] == SlugChar(spec.location[0])
  {
    SlugCharwise(spec.location);
    assert ExampleFilename(spec)[0] == SceneSlug(spec.location)[0];
  }

  // ---------------------------------------------------------------------------
  // Properties of the curated table

  /** Each scenario's fallback speed lies in the band its label names, under the mapper's
      thresholds; in particular every scenario has a fallback. */
  lemma LabelsMatchBands()
    ensures forall spec :: spec in ExampleSpecs() ==>
      spec.fallbackWind.Some? && BandName(BandOf(spec.fallbackWind.value.speedMps)) == spec.bandLabel
  {
  }

  /** Every scenario uses one of the two layouts, spelled as the builder names it, so the
      builder keeps it as written. */
  lemma LayoutsAreCanonical()
    ensures forall spec :: spec in ExampleSpecs() ==>
      exists l: Layout :: spec.layout == LayoutName(l) && NormalizeLayout(spec.layout) == l
  {
    LayoutRoundTrip(Ring);
    LayoutRoundTrip(Tower);
    assert forall spec :: spec in ExampleSpecs() ==> spec.layout == LayoutName(Ring) || spec.layout == LayoutName(Tower);
  }

  /** The four scenarios are written to four different files. */
  lemma FilenamesDistinct()
    ensures forall i, j :: 0 <= i < j < |ExampleSpecs()| ==>
      ExampleFilename(ExampleSpecs()[i]) != ExampleFilename(ExampleSpecs()[j])
  {
    var specs := ExampleSpecs();
    LocationHeads();
    forall i, j | 0 <= i < j < |specs|
      ensures ExampleFilename(specs[i]) != ExampleFilename(specs[j])
    {
      DistinctByHead(specs[i], specs[j]);
    }
  }

  /** The demo locations start with different letters. */
  lemma LocationHeads()
    ensures ExampleSpecs()[0].location[0] == 'C'
    ensures ExampleSpecs()[1].location[0] == 'B'
    ensures ExampleSpecs()[2].location[0] == 'F'
    ensures ExampleSpecs()[3].location[0] == 'G'
  {
  }

  /** Locations whose first characters slug differently give different file names. */
  lemma DistinctByHead(a: ExampleSpec, b: ExampleSpec)
    requires |a.location| > 0 && |b.location| > 0
    requires SlugChar(a.location[0]) != SlugChar(b.location[0])
    ensures ExampleFilename(a) != ExampleFilename(b)
  {
    FilenameStart(a);
    FilenameStart(b);
  }

  /** The recursion depth every example is built with. */
  const ExampleDepth := 60

  /** The file written for a scenario from its fallback wind: the mapped wind, depth 60
      and the scenario's seed and layout; nothing is written without a fallback. Its wind
      define shows the fallback speed floored at zero, and `FallbackScriptBuilt` states the
      whole text. The seed is always supplied, so the random draw plays no part
      (`SeededIsDeterministic`) and is fixed at 0. */
  function FallbackScript(spec: ExampleSpec): (script: Option<string>)
    ensures script.Some? <==> spec.fallbackWind.Some?
    ensures script.Some? ==> ShowsScenario(spec, Max(0.0, spec.fallbackWind.value.speedMps), script.value)
  {
    if spec.fallbackWind.None? then None
    else
      var flow := MapWindToFlow(spec.fallbackWind.value);
      ScenarioLines(spec, flow);
      Some(BuildEisenscript(flow, ExampleDepth, Some(spec.seed), 0, spec.layout))
  }

  /** The fallback file is exactly the script built from the mapped fallback wind. */
  lemma FallbackScriptBuilt(spec: ExampleSpec)
    requires spec.fallbackWind.Some?
    ensures FallbackScript(spec) == Some(BuildEisenscript(MapWindToFlow(spec.fallbackWind.value), ExampleDepth, Some(spec.seed), 0, spec.layout))
  {
  }

  /** A script shows a scenario at a wind speed: depth 60, the scenario's seed and layout,
      and the speed in the wind define. */
  predicate ShowsScenario(spec: ExampleSpec, speed: real, text: string)
  {
    && IsInfix("set maxdepth " + IntToDecimal(ExampleDepth) + "\n", text)
    && IsInfix("set seed " + IntToDecimal(spec.seed) + "\n", text)
    && IsInfix("// Layout: " + LayoutName(NormalizeLayout(spec.layout)) + "\n", text)
    && IsInfix(Define("WIND_SPEED_MPS", Fmt3(speed)) + "\n", text)
  }

  /** The script built for a scenario from any flow parameters shows it at their speed. */
  lemma ScenarioLines(spec: ExampleSpec, flow: FlowParams)
    ensures ShowsScenario(spec, flow.windSpeedMps, BuildEisenscript(flow, ExampleDepth, Some(spec.seed), 0, spec.layout))
  {
    assert SeedValue(Some(spec.seed), 0) == spec.seed;
    WindDefinesShown(flow, ExampleDepth, Some(spec.seed), 0, spec.layout);
  }
}
