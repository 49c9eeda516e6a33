/** The EisenScript serializer: turns flow parameters into a Structure Synth grammar.
    Once the seed is fixed the script is a pure function of its inputs, built line by line. */
module EisenScript {
  import opened Wrappers
  import opened Numbers
  import opened Text
  import opened FlowMapping

  /** The banner comment every generated script opens with, one entry per line. */
  function HeaderLines(): seq<string>
  {
    [ "/*",
      "  Wind-Driven Pointy Clumps",
      "  Auto-generated EisenScript.",
      "",
      "  This file was produced by wind_clump, using live wind data to steer:",
      "    - clump count",
      "    - spikes per clump",
      "    - spike length / thickness",
      "    - twist and spread",
      "",
      "  Open this in Structure Synth and export as OBJ to continue the journey.",
      "*/" ]
  }

  // ---------------------------------------------------------------------------
  // Layout

  /** How the clumps are arranged: around the origin, or stacked upwards. */
  datatype Layout = Ring | Tower

  function LayoutName(layout: Layout): string
  {
    match layout
    case Ring => "ring"
    case Tower => "tower"
  }

  /** The layout argument, lower-cased; anything other than `ring` or `tower` means ring. */
  function NormalizeLayout(layout: string): (l: Layout)
    ensures l == Tower <==> Lower(layout) == "tower"
    ensures l == Ring <==> Lower(layout) != "tower"
    ensures Lower(layout) == LayoutName(l) || (Lower(layout) != "ring" && Lower(layout) != "tower")
  {
    var mode := Lower(layout);
    if mode == "tower" then Tower else Ring
  }

  // ---------------------------------------------------------------------------
  // Derived values

  /** The values the script computes from the flow parameters before printing. */
  datatype Derived = Derived(
    direction: real,
    baseHue: real,
    hue1: real,
    hue2: real,
    clumpCount: int,
    angleStep: real,
    verticalStep: real)

  /** A missing direction is read as 0 degrees. */
  function DirectionOrZero(flow: FlowParams): real
  {
    match flow.windDirectionDeg
    case Some(d) => d
    case None => 0.0
  }

  function Derive(flow: FlowParams): (d: Derived)
    ensures flow.windDirectionDeg.None? ==> d.direction == 0.0
    ensures flow.windDirectionDeg.Some? ==> d.direction == flow.windDirectionDeg.value
    ensures 0.0 <= d.baseHue < 360.0 && CongruentMod(d.baseHue, d.direction, 360.0)
    ensures 0.0 <= d.hue1 < 360.0 && CongruentMod(d.hue1, d.direction + 15.0, 360.0)
    ensures 0.0 <= d.hue2 < 360.0 && CongruentMod(d.hue2, d.direction - 15.0, 360.0)
    ensures d.clumpCount >= 1 && d.clumpCount >= flow.clumpCount
    ensures flow.clumpCount >= 1 ==> d.clumpCount == flow.clumpCount
    ensures flow.clumpCount < 1 ==> d.clumpCount == 1
    ensures 0.0 < d.angleStep <= 360.0 && d.angleStep * d.clumpCount as real == 360.0
    ensures flow.clumpHeight > 0.0 ==> d.verticalStep > flow.clumpHeight
    ensures d.verticalStep / 1.4 == flow.clumpHeight
  {
    var direction := DirectionOrZero(flow);
    var base := FloorMod(direction, 360.0);
    var hue1 := FloorMod(base + 15.0, 360.0);
    var hue2 := FloorMod(base - 15.0, 360.0);
    HueCongruence(hue1, base, direction, 15.0);
    HueCongruence(hue2, base, direction, -15.0);
    assert direction - 15.0 == direction + -15.0;
    var count := MaxInt(flow.clumpCount, 1);
    var step := 360.0 / count as real;
    QuotientBounds(360.0, count as real);
    Derived(direction, base, hue1, hue2, count, step, flow.clumpHeight * 1.4)
  }

  /** A hue taken modulo 360 after shifting the base hue stays congruent to the shifted
      direction. */
  lemma HueCongruence(hue: real, base: real, direction: real, shift: real)
    requires CongruentMod(base, direction, 360.0)
    requires CongruentMod(hue, base + shift, 360.0)
    ensures CongruentMod(hue, direction + shift, 360.0)
  {
    CongruentShift(base, direction, shift, 360.0);
    CongruentTransitive(hue, base + shift, direction + shift, 360.0);
  }

  // ---------------------------------------------------------------------------
  // The script, line by line

  /** `#define NAME value`. */
  function Define(name: string, value: string): string
  {
    "#define " + name + " " + value
  }

  /** The layout note and the renderer settings. */
  function SettingsLines(layout: Layout, maxdepth: int, seed: int): seq<string>
  {
    [ "",
      "// Layout: " + LayoutName(layout),
      "",
      "set maxdepth " + IntToDecimal(maxdepth),
      "set maxobjects 300000",
      "set seed " + IntToDecimal(seed),
      "set background #000000",
      "" ]
  }

  /** The wind metadata, colour anchors and geometry constants, each a `#define`. */
  function DefineLines(flow: FlowParams, d: Derived): seq<string>
  {
    WindLines(flow, d) + HueLines(d) + GeometryLines(flow, d)
  }

  function WindLines(flow: FlowParams, d: Derived): seq<string>
  {
    [ "// Wind metadata",
      Define("WIND_SPEED_MPS", Fmt3(flow.windSpeedMps)),
      Define("WIND_DIRECTION_DEG", Fmt3(d.direction)) ]
  }

  function HueLines(d: Derived): seq<string>
  {
    [ "",
      "// Derived color anchors",
      Define("BASE_HUE", Fmt3(d.baseHue)),
      Define("HUE_VARIANT_1", Fmt3(d.hue1)),
      Define("HUE_VARIANT_2", Fmt3(d.hue2)) ]
  }

  function GeometryLines(flow: FlowParams, d: Derived): seq<string>
  {
    [ "",
      "// Clump geometry",
      Define("CLUMP_COUNT", IntToDecimal(d.clumpCount)),
      Define("SPIKES_PER_CLUMP", IntToDecimal(flow.spikesPerClump)),
      Define("SPIKE_LENGTH", Fmt3(flow.spikeLength)),
      Define("SPIKE_RADIUS", Fmt3(flow.spikeRadius)),
      Define("CLUMP_RADIUS", Fmt3(flow.clumpRadius)),
      Define("CLUMP_HEIGHT", Fmt3(flow.clumpHeight)),
      Define("GLOBAL_TWIST", Fmt3(flow.globalTwist)),
      Define("ANGLE_STEP", Fmt3(d.angleStep)),
      Define("VERTICAL_STEP", Fmt3(d.verticalStep)) ]
  }

  /** The step each copy of a clump takes in the start rule. */
  function SceneStep(layout: Layout): string
  {
    match layout
    case Ring => "    ry ANGLE_STEP"
    case Tower => "    y VERTICAL_STEP"
  }

  /** A grammar rule: an optional comment line, the head `rule NAME [w WEIGHT] {`, the
      body lines and a closing brace. */
  datatype Rule = Rule(comment: Option<string>, name: string, weight: Option<int>, body: seq<string>)

  function RuleHead(rule: Rule): string
  {
    "rule " + rule.name
      + (match rule.weight case None => "" case Some(w) => " w " + IntToDecimal(w))
      + " {"
  }

  function RuleText(rule: Rule): seq<string>
  {
    (match rule.comment case None => [] case Some(c) => [c]) + [RuleHead(rule)] + rule.body + ["}"]
  }

  /** Rules one after another, with a blank line between neighbours. */
  function JoinRules(rules: seq<Rule>): seq<string>
  {
    if |rules| == 0 then []
    else if |rules| == 1 then RuleText(rules[0])
    else RuleText(rules[0]) + [""] + JoinRules(rules[1..])
  }

  /** The start rule: clumps repeated around a ring or up a tower. */
  function SceneRule(layout: Layout): Rule
  {
    var comment := match layout
      case Ring => "// Start rule: a ring of clumps, wrapped around the origin."
      case Tower => "// Start rule: a vertical tower of clumps, rising with the flow.";
    Rule(Some(comment), "scene", None, ["  CLUMP_COUNT * {", SceneStep(layout), "  } clump"])
  }

  /** The rules every script carries: a clump, its spike cluster and three weighted spike
      variants. */
  function FixedRules(): seq<Rule>
  {
    [ Rule(Some("// Each clump is pushed outward and twisted with the flow."), "clump", None,
        [ "  {",
          "    ry WIND_DIRECTION_DEG",
          "    rz GLOBAL_TWIST",
          "    x CLUMP_RADIUS",
          "  } spike_cluster" ]),
      Rule(Some("// A clump is a dense cluster of slender spikes."), "spike_cluster", None,
        [ "  SPIKES_PER_CLUMP * {",
          "    y CLUMP_HEIGHT",
          "    s SPIKE_RADIUS SPIKE_RADIUS SPIKE_LENGTH",
          "  } spike" ]),
      Rule(Some("// Pointy spikes: three slight variations, randomly chosen."), "spike", None,
        ["  { hue BASE_HUE sat 90 b 90 a 90 } box"]),
      Rule(None, "spike", Some(2),
        ["  { ry 10 hue HUE_VARIANT_1 sat 80 b 95 a 85 } box"]),
      Rule(None, "spike", Some(2),
        ["  { ry -10 hue HUE_VARIANT_2 sat 80 b 80 a 80 } box"]) ]
  }

  /** The rules of a script, start rule first. */
  function ScriptRules(layout: Layout): seq<Rule>
  {
    [SceneRule(layout)] + FixedRules()
  }

  /** All lines of the script for a normalised layout and a fixed seed. */
  function ScriptLines(flow: FlowParams, maxdepth: int, seed: int, layout: Layout): seq<string>
  {
    HeaderLines() + SettingsLines(layout, maxdepth, seed) + DefineLines(flow, Derive(flow))
      + [""] + JoinRules(ScriptRules(layout))
  }

  /** The seed written to the script: the one supplied, otherwise the draw standing in
      for `random.randint(0, 2**31 - 1)`. */
  function SeedValue(seed: Option<int>, draw: int): (s: int)
    ensures seed.Some? ==> s == seed.value
    ensures seed.None? ==> s == draw
  {
    match seed
    case Some(v) => v
    case None => draw
  }

  /** `build_eisenscript`: the script text, every line ending in a newline. The settings
      and every `#define` appear with the values derived from the flow parameters. */
  function BuildEisenscript(flow: FlowParams, maxdepth: int, seed: Option<int>, draw: int,
                            layout: string): (script: string)
    ensures IsInfix("// Layout: " + LayoutName(NormalizeLayout(layout)) + "\n", script)
    ensures IsInfix("set maxdepth " + IntToDecimal(maxdepth) + "\n", script)
    ensures IsInfix("set seed " + IntToDecimal(SeedValue(seed, draw)) + "\n", script)
    ensures forall x :: x in DefineLines(flow, Derive(flow)) ==> IsInfix(x + "\n", script)
    ensures forall r :: r in ScriptRules(NormalizeLayout(layout)) ==> IsInfix(RuleHead(r) + "\n", script)
  {
    var l := NormalizeLayout(layout);
    var s := SeedValue(seed, draw);
    var lines := ScriptLines(flow, maxdepth, s, l);
    BlocksInScript(flow, maxdepth, s, l);
    MemberInUnlines("// Layout: " + LayoutName(l), lines);
    MemberInUnlines("set maxdepth " + IntToDecimal(maxdepth), lines);
    MemberInUnlines("set seed " + IntToDecimal(s), lines);
    forall x | x in DefineLines(flow, Derive(flow))
      ensures IsInfix(x + "\n", Unlines(lines))
    {
      MemberInUnlines(x, lines);
    }
    forall r | r in ScriptRules(l)
      ensures IsInfix(RuleHead(r) + "\n", Unlines(lines))
    {
      MemberInUnlines(RuleHead(r), lines);
    }
    Unlines(lines)
  }

  /** The lines `BuildEisenscript` promises are whole lines of the script: each stands
      between two newlines, so none is only the tail of a longer line. */
  lemma WholeLinesInScript(flow: FlowParams, maxdepth: int, seed: Option<int>, draw: int, layout: string)
    ensures IsInfix("\n" + ("// Layout: " + LayoutName(NormalizeLayout(layout))) + "\n",
      BuildEisenscript(flow, maxdepth, seed, draw, layout))
    ensures IsInfix("\n" + ("set maxdepth " + IntToDecimal(maxdepth)) + "\n",
      BuildEisenscript(flow, maxdepth, seed, draw, layout))
    ensures IsInfix("\n" + ("set seed " + IntToDecimal(SeedValue(seed, draw))) + "\n",
      BuildEisenscript(flow, maxdepth, seed, draw, layout))
    ensures forall x :: x in DefineLines(flow, Derive(flow)) ==>
      IsInfix("\n" + x + "\n", BuildEisenscript(flow, maxdepth, seed, draw, layout))
    ensures forall r :: r in ScriptRules(NormalizeLayout(layout)) ==>
      IsInfix("\n" + RuleHead(r) + "\n", BuildEisenscript(flow, maxdepth, seed, draw, layout))
  {
    var l := NormalizeLayout(layout);
    var s := SeedValue(seed, draw);
    var lines := ScriptLines(flow, maxdepth, s, l);
    assert BuildEisenscript(flow, maxdepth, seed, draw, layout) == Unlines(lines);
    LinesAfterHeader(flow, maxdepth, s, l);
    SettingsWhole(lines, "// Layout: " + LayoutName(l));
    SettingsWhole(lines, "set maxdepth " + IntToDecimal(maxdepth));
    SettingsWhole(lines, "set seed " + IntToDecimal(s));
    forall x | x in DefineLines(flow, Derive(flow))
      ensures IsInfix("\n" + x + "\n", Unlines(lines))
    {
      MemberBetweenNewlines(x, lines);
    }
    forall r | r in ScriptRules(l)
      ensures IsInfix("\n" + RuleHead(r) + "\n", Unlines(lines))
    {
      MemberBetweenNewlines(RuleHead(r), lines);
    }
  }

  /** A settings line, whole, written with its leading newline attached. */
  lemma SettingsWhole(lines: seq<string>, x: string)
    requires |lines| >= 1 && x in lines[1..]
    ensures IsInfix("\n" + x + "\n", Unlines(lines))
  {
    MemberBetweenNewlines(x, lines);
  }

  /** Everything after the header, in particular the settings, the defines and each
      rule's head, comes after the script's first line. */
  lemma LinesAfterHeader(flow: FlowParams, maxdepth: int, seed: int, layout: Layout)
    ensures |ScriptLines(flow, maxdepth, seed, layout)| >= 1
    ensures "// Layout: " + LayoutName(layout) in ScriptLines(flow, maxdepth, seed, layout)[1..]
    ensures "set maxdepth " + IntToDecimal(maxdepth) in ScriptLines(flow, maxdepth, seed, layout)[1..]
    ensures "set seed " + IntToDecimal(seed) in ScriptLines(flow, maxdepth, seed, layout)[1..]
    ensures forall x :: x in DefineLines(flow, Derive(flow)) ==> x in ScriptLines(flow, maxdepth, seed, layout)[1..]
    ensures forall r :: r in ScriptRules(layout) ==> RuleHead(r) in ScriptLines(flow, maxdepth, seed, layout)[1..]
  {
    var h, st, d, j := HeaderLines(), SettingsLines(layout, maxdepth, seed), DefineLines(flow, Derive(flow)),
      JoinRules(ScriptRules(layout));
    assert ScriptLines(flow, maxdepth, seed, layout) == h + st + d + [""] + j;
    PartsAfterFirst(h, st, d, j);
    assert "// Layout: " + LayoutName(layout) in st;
    assert "set maxdepth " + IntToDecimal(maxdepth) in st;
    assert "set seed " + IntToDecimal(seed) in st;
    RulesInJoin(ScriptRules(layout));
    forall r | r in ScriptRules(layout)
      ensures RuleHead(r) in j
    {
      assert RuleHead(r) in RuleText(r);
    }
  }

  lemma PartsAfterFirst(h: seq<string>, st: seq<string>, d: seq<string>, j: seq<string>)
    requires |h| >= 1
    ensures forall x :: x in st || x in d || x in j ==> x in (h + st + d + [""] + j)[1..]
  {
    var whole := h + st + d + [""] + j;
    assert whole[1..] == h[1..] + st + d + [""] + j;
  }

  // ---------------------------------------------------------------------------
  // Properties

  /** The settings, the defines and every rule's lines are lines of the script. */
  lemma BlocksInScript(flow: FlowParams, maxdepth: int, seed: int, layout: Layout)
    ensures forall x :: x in SettingsLines(layout, maxdepth, seed) ==> x in ScriptLines(flow, maxdepth, seed, layout)
    ensures forall x :: x in DefineLines(flow, Derive(flow)) ==> x in ScriptLines(flow, maxdepth, seed, layout)
    ensures forall r :: r in ScriptRules(layout) ==>
      forall x :: x in RuleText(r) ==> x in ScriptLines(flow, maxdepth, seed, layout)
  {
    var h, st, d, j := HeaderLines(), SettingsLines(layout, maxdepth, seed), DefineLines(flow, Derive(flow)),
      JoinRules(ScriptRules(layout));
    assert ScriptLines(flow, maxdepth, seed, layout) == h + st + d + [""] + j;
    PartsInWhole(h, st, d, j);
    RulesInJoin(ScriptRules(layout));
  }

  lemma PartsInWhole(h: seq<string>, st: seq<string>, d: seq<string>, j: seq<string>)
    ensures forall x :: x in st || x in d || x in j ==> x in h + st + d + [""] + j
  {
  }

  lemma RulesInJoin(rules: seq<Rule>)
    ensures forall r :: r in rules ==> forall x :: x in RuleText(r) ==> x in JoinRules(rules)
  {
    forall r | r in rules
      ensures forall x :: x in RuleText(r) ==> x in JoinRules(rules)
    {
      var i :| 0 <= i < |rules| && rules[i] == r;
      RuleInJoin(rules, i);
    }
  }

  /** Every line of every rule is among the joined lines. */
  lemma {:induction false} RuleInJoin(rules: seq<Rule>, i: nat)
    requires i < |rules|
    ensures forall x :: x in RuleText(rules[i]) ==> x in JoinRules(rules)
  {
    if |rules| > 1 {
      if i > 0 {
        RuleInJoin(rules[1..], i - 1);
        assert rules[1..][i - 1] == rules[i];
      }
    }
  }

  /** Naming a layout and normalising the name gives the layout back. */
  lemma LayoutRoundTrip(layout: Layout)
    ensures NormalizeLayout(LayoutName(layout)) == layout
  {
    assert Lower("ring") == "ring";
    assert Lower("tower") == "tower";
  }

  /** Case does not matter, and an unknown layout falls back to a ring. */
  lemma LayoutExamples()
    ensures NormalizeLayout("Tower") == Tower
    ensures NormalizeLayout("RING") == Ring
    ensures NormalizeLayout("spiral") == Ring
  {
    assert Lower("Tower") == "tower";
  }

  /** The weights of the rules with a given name, in order (`None` for the implicit 1). */
  function Variants(rules: seq<Rule>, name: string): (ws: seq<Option<int>>)
    ensures |ws| <= |rules|
  {
    if |rules| == 0 then []
    else (if rules[0].name == name then [rules[0].weight] else []) + Variants(rules[1..], name)
  }

  /** The rule names in order: the start rule, a clump, a spike cluster and three spikes,
      whatever the layout; the spikes are weighted 1 (implicitly), 2 and 2. */
  lemma RuleOrder(layout: Layout)
    ensures |ScriptRules(layout)| == 6
    ensures ScriptRules(layout)[0].name == "scene"
    ensures ScriptRules(layout)[1].name == "clump" && ScriptRules(layout)[2].name == "spike_cluster"
    ensures forall i :: 3 <= i < 6 ==> ScriptRules(layout)[i].name == "spike"
    ensures forall i :: 0 <= i < 4 ==> ScriptRules(layout)[i].weight == None
    ensures ScriptRules(layout)[4].weight == Some(2) && ScriptRules(layout)[5].weight == Some(2)
  {
    FixedOrder();
    SixRules(ScriptRules(layout), SceneRule(layout), FixedRules());
  }

  lemma SixRules(rules: seq<Rule>, first: Rule, rest: seq<Rule>)
    requires rules == [first] + rest && first.name == "scene" && first.weight == None
    requires |rest| == 5
    requires rest[0].name == "clump" && rest[1].name == "spike_cluster"
    requires rest[2].name == "spike" && rest[3].name == "spike" && rest[4].name == "spike"
    requires rest[0].weight == None && rest[1].weight == None && rest[2].weight == None
    requires rest[3].weight == Some(2) && rest[4].weight == Some(2)
    ensures |rules| == 6
    ensures rules[0].name == "scene"
    ensures rules[1].name == "clump" && rules[2].name == "spike_cluster"
    ensures forall i :: 3 <= i < 6 ==> rules[i].name == "spike"
    ensures forall i :: 0 <= i < 4 ==> rules[i].weight == None
    ensures rules[4].weight == Some(2) && rules[5].weight == Some(2)
  {
    ShiftedByOne(first, rest);
  }

  /** The fixed rules: clump, spike cluster and three spikes, the last two weighted 2. */
  lemma FixedOrder()
    ensures |FixedRules()| == 5
    ensures FixedRules()[0].name == "clump" && FixedRules()[1].name == "spike_cluster"
    ensures FixedRules()[2].name == "spike" && FixedRules()[3].name == "spike" && FixedRules()[4].name == "spike"
    ensures FixedRules()[0].weight == None && FixedRules()[1].weight == None && FixedRules()[2].weight == None
    ensures FixedRules()[3].weight == Some(2) && FixedRules()[4].weight == Some(2)
  {
  }

  lemma ShiftedByOne(first: Rule, rest: seq<Rule>)
    ensures forall i :: 0 <= i < |rest| ==> ([first] + rest)[i + 1] == rest[i]
  {
  }

  /** The weight list of a rule alone. */
  function Variant(rule: Rule, name: string): seq<Option<int>>
  {
    if rule.name == name then [rule.weight] else []
  }

  lemma VariantsOfSix(rules: seq<Rule>, name: string)
    requires |rules| == 6
    ensures Variants(rules, name) == Variant(rules[0], name) + (Variant(rules[1], name)
      + (Variant(rules[2], name) + (Variant(rules[3], name) + (Variant(rules[4], name)
      + Variant(rules[5], name)))))
  {
    var r5, r4, r3, r2, r1 := rules[5..], rules[4..], rules[3..], rules[2..], rules[1..];
    assert r5[1..] == [] && r4[1..] == r5 && r3[1..] == r4 && r2[1..] == r3 && r1[1..] == r2;
    assert Variants(r5, name) == Variant(rules[5], name);
    assert Variants(r4, name) == Variant(rules[4], name) + Variants(r5, name);
    assert Variants(r3, name) == Variant(rules[3], name) + Variants(r4, name);
    assert Variants(r2, name) == Variant(rules[2], name) + Variants(r3, name);
    assert Variants(r1, name) == Variant(rules[1], name) + Variants(r2, name);
    assert Variants(rules, name) == Variant(rules[0], name) + Variants(r1, name);
  }

  /** Exactly three spike variants, weighted 1 (implicitly), 2 and 2; exactly one clump rule
      and one spike-cluster rule, both unweighted. */
  lemma RuleVariants(layout: Layout)
    ensures Variants(ScriptRules(layout), "spike") == [None, Some(2), Some(2)]
    ensures Variants(ScriptRules(layout), "clump") == [None]
    ensures Variants(ScriptRules(layout), "spike_cluster") == [None]
  {
    RuleOrder(layout);
    VariantsInOrder(ScriptRules(layout));
  }

  lemma VariantsInOrder(rules: seq<Rule>)
    requires |rules| == 6
    requires rules[0].name == "scene" && rules[1].name == "clump" && rules[2].name == "spike_cluster"
    requires forall i :: 3 <= i < 6 ==> rules[i].name == "spike"
    requires forall i :: 0 <= i < 4 ==> rules[i].weight == None
    requires rules[4].weight == Some(2) && rules[5].weight == Some(2)
    ensures Variants(rules, "spike") == [None, Some(2), Some(2)]
    ensures Variants(rules, "clump") == [None]
    ensures Variants(rules, "spike_cluster") == [None]
  {
    VariantNames();
    VariantsOfSix(rules, "spike");
    VariantsOfSix(rules, "clump");
    VariantsOfSix(rules, "spike_cluster");
  }

  /** The rule names are pairwise different. */
  lemma VariantNames()
    ensures "scene" != "spike" && "clump" != "spike" && "spike_cluster" != "spike"
    ensures "scene" != "clump" && "spike_cluster" != "clump"
    ensures "scene" != "spike_cluster"
  {
    assert "scene"[1] != "spike"[1];
    assert "clump"[0] != "spike"[0];
    assert |"spike_cluster"| != |"spike"|;
    assert "scene"[0] != "clump"[0];
    assert "spike_cluster"[0] != "clump"[0];
    assert "scene"[1] != "spike_cluster"[1];
  }

  /** The start rule steps by the angle in a ring and by the vertical step in a tower, and
      never by the other one. */
  lemma SceneChoice(layout: Layout)
    ensures layout == Ring ==> "    ry ANGLE_STEP" in SceneRule(layout).body
    ensures layout == Ring ==> "    y VERTICAL_STEP" !in SceneRule(layout).body
    ensures layout == Tower ==> "    y VERTICAL_STEP" in SceneRule(layout).body
    ensures layout == Tower ==> "    ry ANGLE_STEP" !in SceneRule(layout).body
  {
  }

  /** The chosen step line is in the script. */
  lemma StepInScript(flow: FlowParams, maxdepth: int, seed: Option<int>, draw: int, layout: string)
    ensures IsInfix(SceneStep(NormalizeLayout(layout)) + "\n", BuildEisenscript(flow, maxdepth, seed, draw, layout))
  {
    var l := NormalizeLayout(layout);
    var sv := SeedValue(seed, draw);
    StepLine(flow, maxdepth, sv, l);
    MemberInUnlines(SceneStep(l), ScriptLines(flow, maxdepth, sv, l));
  }

  lemma StepLine(flow: FlowParams, maxdepth: int, seed: int, layout: Layout)
    ensures SceneStep(layout) in ScriptLines(flow, maxdepth, seed, layout)
  {
    BlocksInScript(flow, maxdepth, seed, layout);
    StepInSceneRule(layout);
  }

  lemma StepInSceneRule(layout: Layout)
    ensures SceneRule(layout) in ScriptRules(layout)
    ensures SceneStep(layout) in RuleText(SceneRule(layout))
  {
    HeadIn(SceneRule(layout), FixedRules());
    StepInBody(SceneRule(layout), SceneStep(layout));
  }

  lemma HeadIn(first: Rule, rest: seq<Rule>)
    ensures first in [first] + rest
  {
    assert ([first] + rest)[0] == first;
  }

  lemma StepInBody(rule: Rule, step: string)
    requires rule.comment.Some? && |rule.body| == 3 && rule.body[1] == step
    ensures step in RuleText(rule)
  {
    assert RuleText(rule)[3] == step;
  }

  /** Both step constants are defined whichever layout is chosen. */
  lemma StepsDefined(flow: FlowParams, maxdepth: int, seed: Option<int>, draw: int, layout: string)
    ensures IsInfix("#define ANGLE_STEP", BuildEisenscript(flow, maxdepth, seed, draw, layout))
    ensures IsInfix("#define VERTICAL_STEP", BuildEisenscript(flow, maxdepth, seed, draw, layout))
  {
    var d := Derive(flow);
    var script := BuildEisenscript(flow, maxdepth, seed, draw, layout);
    var angle, vertical := Define("ANGLE_STEP", Fmt3(d.angleStep)), Define("VERTICAL_STEP", Fmt3(d.verticalStep));
    assert angle in GeometryLines(flow, d) && vertical in GeometryLines(flow, d);
    assert IsInfix(angle + "\n", script);
    assert IsInfix(vertical + "\n", script);
    DefinedIn("ANGLE_STEP", Fmt3(d.angleStep), script);
    DefinedIn("VERTICAL_STEP", Fmt3(d.verticalStep), script);
    StepDefineHeads();
  }

  lemma StepDefineHeads()
    ensures "#define " + "ANGLE_STEP" == "#define ANGLE_STEP"
    ensures "#define " + "VERTICAL_STEP" == "#define VERTICAL_STEP"
  {
  }

  /** A `#define` line in a script shows its name, and its name with its value. */
  lemma DefinedIn(name: string, value: string, script: string)
    requires IsInfix(Define(name, value) + "\n", script)
    ensures IsInfix("#define " + name, script)
    ensures IsInfix(name + " " + value, script)
  {
    var line := Define(name, value);
    InfixOfConcat("", "#define " + name, " " + value);
    assert "" + ("#define " + name) + (" " + value) == line;
    InfixOfLine("#define " + name, line, script);
    InfixOfConcat("#define ", name + " " + value, "");
    assert "#define " + (name + " " + value) + "" == line;
    InfixOfLine(name + " " + value, line, script);
  }

  /** With a seed supplied, the draw that would replace it plays no part. */
  lemma SeededIsDeterministic(flow: FlowParams, maxdepth: int, seed: int, draw1: int, draw2: int, layout: string)
    ensures BuildEisenscript(flow, maxdepth, Some(seed), draw1, layout)
      == BuildEisenscript(flow, maxdepth, Some(seed), draw2, layout)
  {
  }

  // ---------------------------------------------------------------------------
  // Examples

  /** A line of the script, shown without its newline, once its text is known. */
  lemma ShownLine(line: string, text: string, script: string)
    requires IsInfix(line + "\n", script) && line == text
    ensures IsInfix(text, script)
  {
    WithoutNewline(text, script);
  }

  /** A piece of a line of the script, once the line is known to end with it. */
  lemma ShownTail(line: string, head: string, tail: string, script: string)
    requires IsInfix(line + "\n", script) && line == head + tail
    ensures IsInfix(tail, script)
  {
    InfixOfConcat(head, tail, "");
    assert head + tail + "" == line;
    InfixOfLine(tail, line, script);
  }

  lemma RingTexts()
    ensures "set maxdepth " + IntToDecimal(42) == "set maxdepth 42"
    ensures "set seed " + IntToDecimal(123) == "set seed 123"
    ensures "// Layout: " + LayoutName(NormalizeLayout("ring")) == "// Layout: ring"
    ensures SceneStep(NormalizeLayout("ring")) == "    " + "ry ANGLE_STEP"
  {
    RingNumbers();
    RingLayoutTexts();
  }

  lemma RingNumbers()
    ensures "set maxdepth " + IntToDecimal(42) == "set maxdepth 42"
    ensures "set seed " + IntToDecimal(123) == "set seed 123"
  {
    assert NatToDecimal(4) == "4";
    assert NatToDecimal(12) == "12";
  }

  lemma RingLayoutTexts()
    ensures "// Layout: " + LayoutName(NormalizeLayout("ring")) == "// Layout: ring"
    ensures SceneStep(NormalizeLayout("ring")) == "    " + "ry ANGLE_STEP"
  {
    LayoutRoundTrip(Ring);
  }

  lemma TowerTexts()
    ensures "set maxdepth " + IntToDecimal(30) == "set maxdepth 30"
    ensures "set seed " + IntToDecimal(999) == "set seed 999"
    ensures "// Layout: " + LayoutName(NormalizeLayout("tower")) == "// Layout: tower"
    ensures SceneStep(NormalizeLayout("tower")) == "    " + "y VERTICAL_STEP"
  {
    TowerDepthText();
    TowerSeedText();
    TowerLayoutTexts();
  }

  lemma TowerDepthText()
    ensures "set maxdepth " + IntToDecimal(30) == "set maxdepth 30"
  {
    assert NatToDecimal(3) == "3";
  }

  lemma TowerSeedText()
    ensures "set seed " + IntToDecimal(999) == "set seed 999"
  {
    assert NatToDecimal(9) == "9";
    assert NatToDecimal(99) == "99";
  }

  lemma TowerLayoutTexts()
    ensures "// Layout: " + LayoutName(NormalizeLayout("tower")) == "// Layout: tower"
    ensures SceneStep(NormalizeLayout("tower")) == "    " + "y VERTICAL_STEP"
  {
    LayoutRoundTrip(Tower);
  }

  /** A ring script with depth 42 and seed 123 carries its settings and steps around the
      ring, while still defining the vertical step. */
  lemma RingExample(flow: FlowParams, draw: int)
    ensures IsInfix("set maxdepth 42", BuildEisenscript(flow, 42, Some(123), draw, "ring"))
    ensures IsInfix("set seed 123", BuildEisenscript(flow, 42, Some(123), draw, "ring"))
    ensures IsInfix("// Layout: ring", BuildEisenscript(flow, 42, Some(123), draw, "ring"))
    ensures IsInfix("ry ANGLE_STEP", BuildEisenscript(flow, 42, Some(123), draw, "ring"))
    ensures IsInfix("#define VERTICAL_STEP", BuildEisenscript(flow, 42, Some(123), draw, "ring"))
  {
    var script := BuildEisenscript(flow, 42, Some(123), draw, "ring");
    RingTexts();
    ShownLine("set maxdepth " + IntToDecimal(42), "set maxdepth 42", script);
    ShownLine("set seed " + IntToDecimal(123), "set seed 123", script);
    ShownLine("// Layout: " + LayoutName(NormalizeLayout("ring")), "// Layout: ring", script);
    StepInScript(flow, 42, Some(123), draw, "ring");
    ShownTail(SceneStep(NormalizeLayout("ring")), "    ", "ry ANGLE_STEP", script);
    StepsDefined(flow, 42, Some(123), draw, "ring");
  }

  /** A tower script with depth 30 and seed 999 carries its settings and steps upwards,
      while still defining the angle step. */
  lemma TowerExample(flow: FlowParams, draw: int)
    ensures IsInfix("set maxdepth 30", BuildEisenscript(flow, 30, Some(999), draw, "tower"))
    ensures IsInfix("set seed 999", BuildEisenscript(flow, 30, Some(999), draw, "tower"))
    ensures IsInfix("// Layout: tower", BuildEisenscript(flow, 30, Some(999), draw, "tower"))
    ensures IsInfix("y VERTICAL_STEP", BuildEisenscript(flow, 30, Some(999), draw, "tower"))
    ensures IsInfix("#define ANGLE_STEP", BuildEisenscript(flow, 30, Some(999), draw, "tower"))
  {
    var script := BuildEisenscript(flow, 30, Some(999), draw, "tower");
    TowerTexts();
    ShownLine("set maxdepth " + IntToDecimal(30), "set maxdepth 30", script);
    ShownLine("set seed " + IntToDecimal(999), "set seed 999", script);
    ShownLine("// Layout: " + LayoutName(NormalizeLayout("tower")), "// Layout: tower", script);
    StepInScript(flow, 30, Some(999), draw, "tower");
    ShownTail(SceneStep(NormalizeLayout("tower")), "    ", "y VERTICAL_STEP", script);
    StepsDefined(flow, 30, Some(999), draw, "tower");
  }

  /** Speed 5 and direction 90 are printed with three decimals. */
  lemma MetadataExample(flow: FlowParams, draw: int)
    requires flow.windSpeedMps == 5.0 && flow.windDirectionDeg == Some(90.0)
    ensures IsInfix("WIND_SPEED_MPS 5.000", BuildEisenscript(flow, 10, Some(1), draw, "ring"))
    ensures IsInfix("WIND_DIRECTION_DEG 90.000", BuildEisenscript(flow, 10, Some(1), draw, "ring"))
  {
    var script := BuildEisenscript(flow, 10, Some(1), draw, "ring");
    var speed := Define("WIND_SPEED_MPS", Fmt3(flow.windSpeedMps));
    var direction := Define("WIND_DIRECTION_DEG", Fmt3(Derive(flow).direction));
    WindDefinesShown(flow, 10, Some(1), draw, "ring");
    MetadataTexts(flow.windSpeedMps, Derive(flow).direction);
    ShownTail(speed, "#define ", "WIND_SPEED_MPS 5.000", script);
    ShownTail(direction, "#define ", "WIND_DIRECTION_DEG 90.000", script);
  }

  /** The wind speed and the defaulted direction are defined in every script. */
  lemma WindDefinesShown(flow: FlowParams, maxdepth: int, seed: Option<int>, draw: int, layout: string)
    ensures IsInfix(Define("WIND_SPEED_MPS", Fmt3(flow.windSpeedMps)) + "\n",
      BuildEisenscript(flow, maxdepth, seed, draw, layout))
    ensures IsInfix(Define("WIND_DIRECTION_DEG", Fmt3(Derive(flow).direction)) + "\n",
      BuildEisenscript(flow, maxdepth, seed, draw, layout))
  {
    var d := Derive(flow);
    var script := BuildEisenscript(flow, maxdepth, seed, draw, layout);
    var speed, direction := Define("WIND_SPEED_MPS", Fmt3(flow.windSpeedMps)), Define("WIND_DIRECTION_DEG", Fmt3(d.direction));
    assert speed in WindLines(flow, d) && direction in WindLines(flow, d);
    assert IsInfix(speed + "\n", script);
    assert IsInfix(direction + "\n", script);
  }

  lemma MetadataTexts(speed: real, direction: real)
    requires speed == 5.0 && direction == 90.0
    ensures Define("WIND_SPEED_MPS", Fmt3(speed)) == "#define " + "WIND_SPEED_MPS 5.000"
    ensures Define("WIND_DIRECTION_DEG", Fmt3(direction)) == "#define " + "WIND_DIRECTION_DEG 90.000"
  {
    Fmt3Five();
    Fmt3Ninety();
  }
}
