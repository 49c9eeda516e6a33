# pointy-clumps in Dafny

A Dafny model of the pure core of *pointy-clumps*. That project turns a wind reading into a
Structure Synth (EisenScript) grammar of spiky clumps. The model covers:

- **WindApi** (`wind_api.dfy`): the part of the OpenWeatherMap fetch that runs once the HTTP
  exchange is over. It covers unit conversion, the shape checks on the decoded JSON (each with
  its own error), the speed floor, the lenient direction, and the message for a failed request.
- **FlowMapping** (`flow_mapping.dfy`): `map_wind_to_flow`. The speed is floored at zero and
  sorted into one of four Beaufort-like bands. Its position inside the band interpolates seven
  geometry fields from the band's table; the two counts go through Python's half-to-even `round`.
- **NoaaSignals** (`noaa_signals.dfy`): the optional NOAA-style atmosphere signals, `_norm`,
  and the two blends. Each blend takes the signals that are present, with weights renormalised
  over them: humidity and precipitation give the moisture factor, pressure and lightning the
  gradient.
- **NoaaShape** (`noaa_shape.dfy`): the two atmosphere adjustments. Moisture rescales the spike
  radius and the gradient remaps the clump count; with no signal each is the identity.
- **NoaaExamples** (`noaa_examples.dfy`): the adjustments worked through on the parameters used
  in tests/test_noaa_shape_generators.py.
- **EisenScript** (`eisenscript.dfy`): `build_eisenscript`. It covers:
  - the defaulted direction;
  - the hues modulo 360;
  - the clump count floored at one, and the angle and vertical steps;
  - layout normalisation;
  - the settings and `#define` lines;
  - the rule blocks, held as a `Rule` datatype.

  The script is the list of its lines, each followed by a newline.
- **ClimateNormal** (`climate_normal.dfy`): the anomaly normaliser of the climate helper, the
  default tag, and the suggested `--climate-anomaly … --climate-tag "…"` flags. It also covers
  the check that both bounds are given with an anomaly raster.
- **RegenExamples** (`regen_examples.dfy`): the four curated example scenarios, the scene slug,
  the output file name, and the script written from a scenario's fallback wind.
- Shared helpers:
  - **Numbers**: clamp, interpolation, Python `round`, and Python float `%` with a positive divisor.
  - **Text**: decimal printing, `format(x, ".3f")` with a reader for it, lines, substrings,
    ASCII lower-casing, and `str.strip`.
  - **Wrappers**: `Option` and `Result`.

All arithmetic is over Dafny's `real`. Python's `round` is round-half-to-even on reals. The
`:.3f` formatting rounds to thousandths (half to even) and prints sign, digits, a point and three
digits. A negative value that rounds to zero keeps its sign, as in Python (`-0.000`).

The test file for the script builder also calls `build_eisenscript` with `hue_shift_deg`,
`climate_tag` and `climate_anomaly` and expects the corresponding `#define` lines
(tests/test_eisenscript_generator.py:42-54). The builder's signature accepts none of these
arguments (wind_clump/eisenscript_generator.py:23-28), so the model follows the code and has no
hue shift or climate metadata in the script.

## Model

| member | source | states |
|---|---|---|
| Numbers.Clamp | wind_clump/flow_mapping.py:34-35 | the result is at least the lower bound, at most the upper one when the bounds are ordered, equals the value inside the bounds and the violated bound outside |
| Numbers.Clamp01 | wind_clump/noaa_shape_generators.py:18-19 | the result lies in [0,1], is the value inside it, 0 below and 1 above |
| Numbers.LerpBetween | wind_clump/flow_mapping.py:38-39 | for t in [0,1] the interpolant lies between the two endpoints, in either order |
| Numbers.LerpMonotone | wind_clump/flow_mapping.py:38-39 | the interpolant moves towards the second endpoint as t grows |
| Numbers.RoundHalfEven | wind_clump/flow_mapping.py:107-108 | Python `round`: the result is within one half of x, and an exact tie goes to the even neighbour |
| Numbers.RoundMonotone | wind_clump/flow_mapping.py:107-108 | rounding preserves order |
| Numbers.RoundBetween | wind_clump/flow_mapping.py:107-108 | a number between two integers rounds to a value between them |
| Numbers.FloorMod | wind_clump/eisenscript_generator.py:34-36 | Python float `%` by a positive divisor: the result lies in [0, m) and differs from the input by a whole multiple of m |
| Numbers.CongruentTransitive | wind_clump/eisenscript_generator.py:34-36 | congruence modulo m is transitive, which carries the hue shifts through two `%` operations |
| Text.DecimalRoundTrip | wind_clump/eisenscript_generator.py:71-73 | reading back the decimal digits printed for a natural number gives the number |
| Text.NatToDecimalInjective | wind_clump/eisenscript_generator.py:86-87 | different numbers print differently |
| Text.Fmt3RoundTrip | wind_clump/eisenscript_generator.py:77-94 | a value printed with three decimals reads back as exactly its half-to-even rounding to thousandths |
| Text.Fmt3Accuracy | wind_clump/eisenscript_generator.py:77-94 | the printed value is within half a thousandth of the number |
| Text.Fmt3Exact | wind_clump/eisenscript_generator.py:77-94 | a number with at most three decimals is printed exactly |
| Text.Fmt3Five | tests/test_eisenscript_generator.py:60 | 5.0 prints as `5.000` |
| Text.Fmt3Ninety | tests/test_eisenscript_generator.py:61 | 90.0 prints as `90.000` |
| Text.MemberInUnlines | wind_clump/eisenscript_generator.py:67-125 | every line of the template, followed by its newline, occurs in the script text |
| Text.LineBetweenNewlines | wind_clump/eisenscript_generator.py:67-125 | every line after the first stands between two newlines in the joined text |
| Text.Lower | wind_clump/eisenscript_generator.py:44 | lower-casing keeps the length and lower-cases each character on its own |
| Text.Strip | wind_clump/wind_api.py:68 | the stripped text starts and ends with a non-space and is a slice of the input with only whitespace removed on either side |
| WindApi.ConvertSpeedToMps | wind_clump/wind_api.py:24-28 | the converted speed has the sign of the reading, is zero exactly when the reading is, and is never larger in magnitude |
| WindApi.ConvertScaling | wind_clump/wind_api.py:24-28 | each unit system converts by one fixed factor in (0, 1]: 0.44704 for `imperial`, 1 for every other unit system, which leaves the speed unchanged |
| WindApi.ConvertMonotone | wind_clump/wind_api.py:24-28 | a faster reading converts to a strictly faster speed |
| WindApi.ConvertFloorCommutes | wind_clump/wind_api.py:95 | flooring at zero after the conversion equals flooring the reading before it |
| WindApi.Snippet | wind_clump/wind_api.py:68-70 | the snippet is at most 120 characters: the stripped body when it fits, else its first 117 characters followed by `...` |
| WindApi.ExtractWind | wind_clump/wind_api.py:80-106 | a reading extracted from a payload never has a negative speed |
| WindApi.FetchWind | wind_clump/wind_api.py:38-106 | an empty key fails with the missing-key error before any request; a transport error gives the contact error, a non-200 status the request-failed error with `FailureMessage`, an undecodable 200 body the invalid-JSON error, and a decoded 200 body the outcome of `ExtractWind`; a success has a non-negative speed |
| WindApi.FetchSucceeds | wind_clump/wind_api.py:38-106 | a fetch succeeds exactly when a key is given, the answer is 200 with decodable JSON, and the payload passes the shape checks |
| WindApi.PayloadErrors | wind_clump/wind_api.py:80-93 | each shape error (not an object, no wind object, no speed, non-numeric speed) is reported exactly when its check is the first to fail |
| WindApi.SpeedExtraction | wind_clump/wind_api.py:87-95 | a numeric speed always succeeds and yields the converted speed floored at zero |
| WindApi.DirectionIsLenient | wind_clump/wind_api.py:97-104 | whatever `wind.deg` holds, success and speed are unaffected and the direction is its float value or None |
| WindApi.DirectionNone | wind_clump/wind_api.py:97-104 | a missing, unparsable or container direction gives None; a float is passed through |
| WindApi.FailureMessageFromApi | wind_clump/wind_api.py:59-63 | a truthy API message is used as `str(message)`, prefixed with `str(cod): ` when the code is truthy, whatever the code's type |
| WindApi.UnauthorisedMessage | wind_clump/wind_api.py:59-63 | the usual `{"cod": 401, "message": m}` rejection reads `401: m` |
| WindApi.ErrorText | wind_clump/wind_api.py:38-93 | the kind of error can be read back from its message alone, and a contact error's detail or a failed request's message ends the text |
| WindApi.ErrorTextIdentifies | wind_clump/wind_api.py:38-93 | two equal messages come from the same error, except non-numeric speeds whose `repr` texts coincide |
| WindApi.FailureMessageFallback | wind_clump/wind_api.py:67-71 | without an API message the text is `HTTP <status>: ` and the snippet, or `unknown error` for a blank body |
| WindApi.ImperialExample | wind_clump/wind_api.py:24-28 | 10 mph under imperial units is read as 4.4704 m/s with no direction |
| FlowMapping.LargerFirst | wind_clump/flow_mapping.py:74-75 | the radius pair is reordered so the first entry is the larger, without changing the pair |
| FlowMapping.LocalNorm | wind_clump/flow_mapping.py:63-68 | the position inside the band is in [0,1] |
| FlowMapping.MapWindToFlow | wind_clump/flow_mapping.py:42-128 | the speed is floored at zero (a negative speed gives 0) and otherwise kept; the direction is passed through; every field lies within the table's overall bounds (counts 3–18 and 12–190, radius 0.06–0.32, twist -5–50) |
| FlowMapping.BandPartition | wind_clump/flow_mapping.py:50-61 | the four bands cover all non-negative speeds without overlap and the chosen band is the one whose interval holds the speed |
| FlowMapping.BandOfMonotone | wind_clump/flow_mapping.py:50-61 | a faster wind never falls in a lower band |
| FlowMapping.TableChain | wind_clump/flow_mapping.py:70-105 | neighbouring bands meet at their edges: a lower band's end never passes a higher band's start |
| FlowMapping.TableDirection | wind_clump/flow_mapping.py:70-105 | inside every band each field rises strictly with the wind, except the spike radius, which falls |
| FlowMapping.LocalNormMonotone | wind_clump/flow_mapping.py:63-68 | within one band the local position grows with the speed |
| FlowMapping.InterpolateWithinBand | wind_clump/flow_mapping.py:107-116 | each interpolated field lies between its band's two table entries |
| FlowMapping.AttributeBounds | wind_clump/flow_mapping.py:107-116 | each interpolated field lies between its overall floor (calm start) and ceiling (gale end) |
| FlowMapping.InterpolateMonotone | wind_clump/flow_mapping.py:47-116 | across all speeds and band changes, rising fields never decrease and the spike radius never increases |
| FlowMapping.BandOrdering | wind_clump/flow_mapping.py:70-116 | at the same position inside the band, a higher band gives strictly larger rising fields and a strictly thinner radius |
| FlowMapping.MapMonotone | wind_clump/flow_mapping.py:42-128 | a faster wind gives fields at least as large, and a spike radius at most as large |
| FlowMapping.NegativeSpeedIsCalm | wind_clump/flow_mapping.py:47 | a negative speed maps exactly like speed 0 |
| FlowMapping.GaleSaturates | wind_clump/flow_mapping.py:59-66 | from 20 m/s on the geometry equals that of 20 m/s; only the reported speed differs |
| FlowMapping.ZeroWind | tests/test_flow_mapping.py:7-22 | no wind gives the calm minimums (3, 12, 0.6, 0.32, 1.0, 0.4, -5) and keeps the direction |
| FlowMapping.GaleMaximum | wind_clump/flow_mapping.py:97-116 | from 20 m/s on the fields are the gale maximums (18, 190, 4.2, 0.06, 7.0, 3.2, 50) |
| FlowMapping.CalmVersusGale | tests/test_flow_mapping.py:25-41 | 100 m/s keeps its raw speed and beats speed 0 strictly on every field, with a strictly thinner radius |
| NoaaSignals.Norm | wind_clump/noaa_shape_generators.py:22-27 | None exactly for a missing signal or an empty range; otherwise a value in [0,1], 0 at or below the range and 1 at or above it |
| NoaaSignals.NormInverts | wind_clump/noaa_shape_generators.py:22-27 | inside the range nothing is lost: mapping the result back onto the range gives the signal |
| NoaaSignals.MoistureBlend | wind_clump/noaa_shape_generators.py:37-49 | None exactly when humidity and precipitation are both missing; otherwise in [0,1]. A lone signal comes through unchanged because its weight cancels in the renormalisation, and two signals blend to a value between them |
| NoaaSignals.MoistureFactor | wind_clump/noaa_shape_generators.py:46-50 | the radius factor is absent exactly when no moisture signal is present, and lies in [0.75, 1.45] otherwise |
| NoaaSignals.PressureNorm | wind_clump/noaa_shape_generators.py:58-61 | a present pressure gives min(abs(p − 1013.25)/35, 1): within 35 hPa the value times 35 is the deviation, beyond it the value is 1; a missing pressure gives None |
| NoaaSignals.PressureGradient | wind_clump/noaa_shape_generators.py:58-74 | None exactly when pressure and lightning are both missing; otherwise in [0,1]. A lone signal comes through unchanged, and two signals blend to a value between them |
| NoaaSignals.GradientSymmetric | wind_clump/noaa_shape_generators.py:59-61 | pressures mirrored around 1013.25 hPa give the same gradient |
| NoaaSignals.GradientSaturates | wind_clump/noaa_shape_generators.py:60-61 | deviations of 35 hPa or more all give the gradient of a 35 hPa deviation |
| NoaaShape.ApplyMoisturePuffiness | wind_clump/noaa_shape_generators.py:34-52 | only the spike radius changes; with no moisture signal the input comes back |
| NoaaShape.ScaleRadius | wind_clump/noaa_shape_generators.py:51-52 | the radius is multiplied by the factor and no other field changes; without a factor nothing changes |
| NoaaShape.ScaleRadiusBounds | wind_clump/noaa_shape_generators.py:50-52 | a factor in [0.75, 1.45] keeps a non-negative radius between 0.75 and 1.45 times itself |
| NoaaShape.PuffinessBounds | wind_clump/noaa_shape_generators.py:49-52 | a non-negative radius stays between 0.75 and 1.45 times itself, with or without a moisture signal |
| NoaaShape.ClumpRangeOrdered | wind_clump/noaa_shape_generators.py:76-77 | 1 ≤ max(1, round(0.6c)) ≤ max(1, round(1.6c)) for every count c, negative ones included |
| NoaaShape.ApplyPressureClumping | wind_clump/noaa_shape_generators.py:55-79 | only the clump count changes; with no signal the input comes back; otherwise the count lies between the rounded 0.6 and 1.6 multiples and is at least 1 |
| NoaaShape.PressureSymmetric | wind_clump/noaa_shape_generators.py:59-61 | pressures mirrored around 1013.25 hPa give the same result |
| NoaaShape.PressureSaturates | wind_clump/noaa_shape_generators.py:60-61 | deviations of 35 hPa or more all act like a 35 hPa deviation |
| NoaaExamples.SoggyFactor | tests/test_noaa_shape_generators.py:27 | humidity 95 % with 12 mm/h of rain gives the radius factor 1.317 |
| NoaaExamples.DryFactor | tests/test_noaa_shape_generators.py:28 | humidity 15 % with no rain gives the radius factor 0.813 |
| NoaaExamples.MoistureExamples | tests/test_noaa_shape_generators.py:25-34 | the soggy air swells a 0.2 radius and the dry air shrinks it |
| NoaaExamples.StormGradient | tests/test_noaa_shape_generators.py:39 | 970 hPa with 8 strikes/h gives the gradient 0.9 |
| NoaaExamples.FlatGradient | tests/test_noaa_shape_generators.py:40 | 1013 hPa with no lightning gives the gradient 0.005 |
| NoaaExamples.StormClumps | tests/test_noaa_shape_generators.py:37-45 | the storm turns 8 clumps into 12 |
| NoaaExamples.FlatClumps | tests/test_noaa_shape_generators.py:37-46 | the flat pressure turns 8 clumps into 5 |
| NoaaExamples.PressureExamples | tests/test_noaa_shape_generators.py:37-46 | from 8 clumps, the storm gives more clumps and the flat pressure at most 8 |
| EisenScript.NormalizeLayout | wind_clump/eisenscript_generator.py:44-46 | tower exactly when the lower-cased argument is `tower`, otherwise ring; a recognised name is kept as written in lower case |
| EisenScript.LayoutRoundTrip | wind_clump/eisenscript_generator.py:44-46 | normalising a layout's own name gives that layout back |
| EisenScript.LayoutExamples | wind_clump/eisenscript_generator.py:44-46 | `Tower` is a tower, `RING` a ring, and an unknown `spiral` falls back to a ring |
| EisenScript.Derive | wind_clump/eisenscript_generator.py:30-40 | the direction defaults to 0; the three hues lie in [0,360) and are congruent modulo 360 to the direction, +15 and -15; the clump count is `max(count, 1)`; the angle step lies in (0,360] and fills a full turn over the clumps; the vertical step is 1.4 times the clump height |
| EisenScript.HueCongruence | wind_clump/eisenscript_generator.py:35-36 | a hue reduced modulo 360 after shifting the base hue stays congruent to the shifted direction |
| EisenScript.BuildEisenscript | wind_clump/eisenscript_generator.py:23-125 | the script holds the `// Layout:` line naming the normalised layout, `set maxdepth`, `set seed` with the seed in use, every `#define` line with its derived value, and the head of every rule, each ending a line |
| EisenScript.WholeLinesInScript | wind_clump/eisenscript_generator.py:67-125 | the layout, `set maxdepth` and `set seed` lines, every `#define` line and every rule head stand between two newlines, so each is a whole line and not the tail of a longer one |
| EisenScript.BlocksInScript | wind_clump/eisenscript_generator.py:67-125 | the settings, the defines and every line of every rule are lines of the script |
| EisenScript.RuleInJoin | wind_clump/eisenscript_generator.py:95-124 | every line of every rule survives joining the rules with blank lines |
| EisenScript.RuleOrder | wind_clump/eisenscript_generator.py:48-124 | whatever the layout, the rules are scene, clump, spike_cluster and three spikes, with the last two spikes weighted 2 |
| EisenScript.RuleVariants | wind_clump/eisenscript_generator.py:113-124 | there are exactly three `spike` variants weighted 1 (implicit), 2 and 2, and one unweighted `clump` and `spike_cluster` rule each |
| EisenScript.SceneChoice | wind_clump/eisenscript_generator.py:48-65 | the ring start rule steps by `ry ANGLE_STEP` and never by the vertical step; the tower rule the other way round |
| EisenScript.StepInScript | wind_clump/eisenscript_generator.py:48-65 | the chosen layout's step line is a line of the script |
| EisenScript.StepsDefined | wind_clump/eisenscript_generator.py:93-94 | `#define ANGLE_STEP` and `#define VERTICAL_STEP` are both in every script, whichever layout is used |
| EisenScript.WindDefinesShown | wind_clump/eisenscript_generator.py:77-78 | the speed and the defaulted direction are defined with three decimals in every script |
| EisenScript.SeededIsDeterministic | wind_clump/eisenscript_generator.py:42 | with a seed supplied, the script does not depend on the random draw |
| EisenScript.RingExample | tests/test_eisenscript_generator.py:21-29 | depth 42, seed 123, `ring`: the script shows `set maxdepth 42`, `set seed 123`, `// Layout: ring`, `ry ANGLE_STEP` and `#define VERTICAL_STEP` |
| EisenScript.TowerExample | tests/test_eisenscript_generator.py:32-40 | depth 30, seed 999, `tower`: the script shows `set maxdepth 30`, `set seed 999`, `// Layout: tower`, `y VERTICAL_STEP` and `#define ANGLE_STEP` |
| EisenScript.MetadataExample | tests/test_eisenscript_generator.py:56-61 | speed 5 and direction 90 show as `WIND_SPEED_MPS 5.000` and `WIND_DIRECTION_DEG 90.000` |
| ClimateNormal.NormalizeAnomaly | scripts/sample_climate_normal.py:34-39 | the result is in [-1,1], and 0 for a degenerate range |
| ClimateNormal.NormalizeRoundTrip | scripts/sample_climate_normal.py:37-39 | for an increasing range, normalising loses nothing inside the range: reading back gives the raw value, and every point of [-1,1] is reached |
| ClimateNormal.NormalizeEndpoints | scripts/sample_climate_normal.py:35-38 | for a non-degenerate range, the minimum gives -1, the maximum +1 and the midpoint 0 |
| ClimateNormal.NormalizeMonotone | scripts/sample_climate_normal.py:37-39 | non-decreasing in the value for an increasing range, non-increasing for a reversed one |
| ClimateNormal.NormalizeSaturates | scripts/sample_climate_normal.py:39 | values at or beyond the range's ends give exactly -1 or +1 |
| ClimateNormal.TagOrDefault | scripts/sample_climate_normal.py:91 | the label is never empty, is either the given tag or `CLIMATE_NORMAL`, and a non-empty tag is kept |
| ClimateNormal.TagIdempotent | scripts/sample_climate_normal.py:91 | defaulting an already defaulted label changes nothing, and an empty tag acts like a missing one |
| ClimateNormal.Fmt3HasNoSpace | scripts/sample_climate_normal.py:92 | the printed anomaly contains no space, so it ends where the tag flag begins |
| ClimateNormal.SnippetRoundTrip | scripts/sample_climate_normal.py:92 | the flags read back as exactly the printed anomaly and the tag, whatever the tag contains |
| ClimateNormal.ClimateHint | scripts/sample_climate_normal.py:83-92 | a usage error exactly when an anomaly raster is named without both bounds; with a raster the hint carries the sampled value and its normalisation over the bounds, without one no value and 0; the tag is the defaulted one, and the flags read back as the anomaly and the tag |
| ClimateNormal.HintRoundTrip | scripts/sample_climate_normal.py:83-92 | with a raster and both bounds the flags read back as the normalised sample, to the thousandth, and the defaulted tag |
| ClimateNormal.NoAnomalyHint | scripts/sample_climate_normal.py:83-92 | with no raster and no tag the flags are `--climate-anomaly 0.000 --climate-tag "CLIMATE_NORMAL"` |
| RegenExamples.ReplaceChar | scripts/regen_examples.py:77-78 | `str.replace` of one character keeps the length and rewrites exactly the matching positions |
| RegenExamples.SlugCharwise | scripts/regen_examples.py:74-79 | the three passes amount to one per-character rewrite, so the slug has the location's length |
| RegenExamples.SlugAlphabet | scripts/regen_examples.py:74-79 | a slug holds no comma, no space and no ASCII capital |
| RegenExamples.SlugFixedPoint | scripts/regen_examples.py:74-79 | a string is its own slug exactly when it is already in the slug alphabet |
| RegenExamples.SlugIdempotent | scripts/regen_examples.py:74-79 | slugging twice equals slugging once |
| RegenExamples.ExampleFilename | scripts/regen_examples.py:144-145 | the file name reads back as the location's slug, `_`, the layout and `.es`, in that order |
| RegenExamples.FilenameDeterminesParts | scripts/regen_examples.py:144-145 | for locations of the same length, equal file names mean equal slugs and equal layouts |
| RegenExamples.FilenameStart | scripts/regen_examples.py:145 | a file name starts with the slug of the location's first character |
| RegenExamples.LabelsMatchBands | scripts/regen_examples.py:42-71 | every scenario has a fallback wind whose speed lies in the band its label names |
| RegenExamples.LayoutsAreCanonical | scripts/regen_examples.py:42-71 | every scenario's layout is `ring` or `tower` as spelled by the builder, which keeps it unchanged |
| RegenExamples.FilenamesDistinct | scripts/regen_examples.py:42-71 | the four scenarios are written to four different files |
| RegenExamples.FallbackScript | scripts/regen_examples.py:180-186 | a script exists exactly when the scenario has a fallback wind; it carries depth 60, the scenario's seed and its layout, and defines `WIND_SPEED_MPS` as the fallback speed floored at zero |
| RegenExamples.FallbackScriptBuilt | scripts/regen_examples.py:180-186 | the fallback file is exactly the script built from the mapped fallback wind, depth 60 and the scenario's seed and layout; the seed is always supplied, so no random draw enters |
| RegenExamples.ScenarioLines | scripts/regen_examples.py:180-186 | a script built with depth 60 and a scenario's seed and layout shows those settings and the speed of the flow it was built from |

## Left out

- The HTTP request and JSON decoding (`requests.get`, `response.json()`). The model starts from the outcome of the exchange: a transport error, or a status with body text and optionally-decoded JSON.
- Python's `float()` on strings and `str()`/`repr()` of floats and containers. These are library behaviour, passed in as the functions of a `Conversions` value.
- `random.randint` when no seed is supplied. It is nondeterministic, so the drawn value is a parameter (`draw`).
- NoaaSignals.MoistureBlend and NoaaSignals.PressureGradient: `apply_moisture_puffiness` and `apply_pressure_clumping` in wind_clump/noaa_shape_generators.py build a list of (value, weight) pairs and divides `sum(v * w)` by `sum(w)`. With two signals, each blend is written as the four cases that list can take, with the weights as literals.
- NoaaShape.ApplyMoisturePuffiness: its contract leaves the radius's new value to `NoaaShape.ScaleRadius`, which it delegates to and which states the product, and to `NoaaShape.PuffinessBounds`.
- NoaaSignals.MoistureFactor: its contract states the range [0.75, 1.45], not the exact `_lerp` image of the blend. The exact value is the body, and the worked examples rely on it.
- IEEE double behaviour: binary rounding of inputs and intermediate results, NaN and infinities. All arithmetic is over exact reals.
- Numbers.FloorMod: states `0 <= r < m`, which exact reals guarantee. With IEEE doubles a tiny negative input yields exactly 360.0, which this model does not capture.
- Text.Fmt3RoundTrip: the printed value is the half-to-even rounding of the exact real. CPython rounds the binary double, which can differ on values such as 0.0005 that are not representable.
- Text.Lower: lower-cases ASCII letters only; Python's `str.lower` also maps non-ASCII letters. For layout names this makes no difference; for slugs of non-ASCII locations it does.
- EisenScript.BuildEisenscript: the contract states which lines the script contains, not their complete order. The full text is the body, built line by line with every template line and blank line in place.
- The hue shift and climate metadata that the builder's tests expect. The builder's code does not accept them.
- wind_clump/cli.py, and `generate_script_for_location` in wind_clump/__init__.py. These are argument parsing, environment lookup and file output, and a wrapper that begins with the network fetch.
- The preview renderer and the live-API branch of the example regeneration. These cover matplotlib drawing, file writes and the network. Only the fallback branch is modelled, as `FallbackScript`.
- Raster sampling with rasterio (including the masked-pixel error) and the JSON/file/console output of the climate helper. The sampled anomaly is a parameter of `ClimateHint`, and argparse's exit on a usage error is a `Failure` value.
