/** The climate helper: a sampled anomaly is rescaled from the dataset's
    `[min, max]` range onto `[-1, 1]`, and the result is printed as a pair of
    command-line flags for the generator. */
module ClimateNormal {
  import opened Wrappers
  import opened Numbers
  import opened Text

  // ---------------------------------------------------------------------------
  // The normaliser

  /** `_normalize_anomaly`: 0 for a degenerate range; otherwise `value` is placed on
      the range (`lo` at -1, `hi` at +1) and clamped to `[-1, 1]`. */
  function NormalizeAnomaly(value: real, lo: real, hi: real): (r: real)
    ensures -1.0 <= r <= 1.0
    ensures hi == lo ==> r == 0.0
  {
    if hi == lo then 0.0
    else
      var t := (value - lo) / (hi - lo);
      Clamp(t * 2.0 - 1.0, -1.0, 1.0)
  }

  /** The inverse reading: the raw anomaly that a normalised value in `[-1, 1]` stands for. */
  function Denormalize(r: real, lo: real, hi: real): real
  {
    lo + (r + 1.0) / 2.0 * (hi - lo)
  }

  /** Inside the range, normalising forgets nothing: reading the result back gives the
      raw value, and every point of `[-1, 1]` is reached by exactly the value
      `Denormalize` names. */
  lemma NormalizeRoundTrip(value: real, lo: real, hi: real, r: real)
    requires lo < hi
    ensures lo <= value <= hi ==> Denormalize(NormalizeAnomaly(value, lo, hi), lo, hi) == value
    ensures -1.0 <= r <= 1.0 ==> NormalizeAnomaly(Denormalize(r, lo, hi), lo, hi) == r
  {
    var w := hi - lo;
    if lo <= value <= hi {
      var t := (value - lo) / w;
      QuotientBounds(value - lo, w);
      assert 0.0 <= t <= 1.0;
      assert NormalizeAnomaly(value, lo, hi) == t * 2.0 - 1.0;
      assert (t * 2.0 - 1.0 + 1.0) / 2.0 == t;
      assert t * w == value - lo;
    }
    if -1.0 <= r <= 1.0 {
      var v := Denormalize(r, lo, hi);
      var c := (r + 1.0) / 2.0;
      assert v - lo == c * w;
      QuotientOfProduct(c, w);
    }
  }

  /** With a non-degenerate range, the range's own ends map to -1 and +1, whichever way
      round they are given, and the midpoint maps to 0. */
  lemma NormalizeEndpoints(lo: real, hi: real)
    requires lo != hi
    ensures NormalizeAnomaly(lo, lo, hi) == -1.0
    ensures NormalizeAnomaly(hi, lo, hi) == 1.0
    ensures NormalizeAnomaly((lo + hi) / 2.0, lo, hi) == 0.0
  {
    var w := hi - lo;
    QuotientOfProduct(0.0, w);
    QuotientOfProduct(1.0, w);
    assert (lo + hi) / 2.0 - lo == 0.5 * w;
    QuotientOfProduct(0.5, w);
  }

  /** For an increasing range the result never decreases as the value grows; for a range
      given backwards it never increases. */
  lemma NormalizeMonotone(v1: real, v2: real, lo: real, hi: real)
    requires v1 <= v2
    ensures lo < hi ==> NormalizeAnomaly(v1, lo, hi) <= NormalizeAnomaly(v2, lo, hi)
    ensures hi < lo ==> NormalizeAnomaly(v2, lo, hi) <= NormalizeAnomaly(v1, lo, hi)
  {
    if lo != hi {
      var t1, t2 := (v1 - lo) / (hi - lo), (v2 - lo) / (hi - lo);
      if lo < hi {
        QuotientMonotone(v1 - lo, v2 - lo, hi - lo);
        ClampMonotone(t1 * 2.0 - 1.0, t2 * 2.0 - 1.0);
      } else {
        QuotientAntitone(v1 - lo, v2 - lo, hi - lo);
        ClampMonotone(t2 * 2.0 - 1.0, t1 * 2.0 - 1.0);
      }
    }
  }

  lemma ClampMonotone(x: real, y: real)
    requires x <= y
    ensures Clamp(x, -1.0, 1.0) <= Clamp(y, -1.0, 1.0)
  {
  }

  /** Values beyond the range saturate: at or below `lo` gives -1, at or above `hi`
      gives +1 (for an increasing range). */
  lemma NormalizeSaturates(value: real, lo: real, hi: real)
    requires lo < hi
    ensures value <= lo ==> NormalizeAnomaly(value, lo, hi) == -1.0
    ensures value >= hi ==> NormalizeAnomaly(value, lo, hi) == 1.0
  {
    QuotientBounds(value - lo, hi - lo);
  }

  // ---------------------------------------------------------------------------
  // The command-line hint

  /** The label used when `--tag` is absent or empty (`args.tag or ...`). */
  const DefaultTag := "CLIMATE_NORMAL"

  /** `args.tag or "CLIMATE_NORMAL"`: the label is never empty, and a non-empty tag is kept
      as given. */
  function TagOrDefault(tag: Option<string>): (t: string)
    ensures t != ""
    ensures t == DefaultTag || (tag.Some? && t == tag.value)
    ensures tag.Some? && tag.value != "" ==> t == tag.value
  {
    if tag.Some? && tag.value != "" then tag.value else DefaultTag
  }

  /** Defaulting is idempotent: a label already produced passes through unchanged, and the
      empty tag is treated like a missing one. */
  lemma TagIdempotent(tag: Option<string>)
    ensures TagOrDefault(Some(TagOrDefault(tag))) == TagOrDefault(tag)
    ensures TagOrDefault(Some("")) == TagOrDefault(None)
  {
  }

  const AnomalyFlag := "--climate-anomaly "
  const TagFlag := " --climate-tag \""

  /** The suggested flags: the normalised anomaly with three decimals and the tag in
      double quotes (the tag is not escaped). */
  function CliSnippet(normalized: real, tag: string): string
  {
    AnomalyFlag + Fmt3(normalized) + TagFlag + tag + "\""
  }

  /** Index of the first space in `s`, or its length. */
  function FirstSpace(s: string): (k: nat)
    ensures k <= |s|
    ensures forall i :: 0 <= i < k ==> s[i] != ' '
    ensures k == |s| || s[k] == ' '
  {
    if |s| == 0 || s[0] == ' ' then 0 else 1 + FirstSpace(s[1..])
  }

  /** Reads a snippet back: the anomaly in thousandths, and the tag. */
  function ParseSnippet(s: string): Option<(int, string)>
  {
    if |s| < |AnomalyFlag| || s[..|AnomalyFlag|] != AnomalyFlag then None
    else
      var rest := s[|AnomalyFlag|..];
      var k := FirstSpace(rest);
      match ParseFixed3(rest[..k])
      case None => None
      case Some(n) =>
        var tail := rest[k..];
        if |tail| < |TagFlag| + 1 || tail[..|TagFlag|] != TagFlag || tail[|tail| - 1] != '"' then None
        else Some((n, tail[|TagFlag|..|tail| - 1]))
  }

  /** `s` holds no space. */
  predicate SpaceFree(s: string)
  {
    forall i :: 0 <= i < |s| ==> s[i] != ' '
  }

  lemma SpaceFreeConcat(a: string, b: string)
    requires SpaceFree(a) && SpaceFree(b)
    ensures SpaceFree(a + b)
  {
    forall i | 0 <= i < |a + b|
      ensures (a + b)[i] != ' '
    {
      if i >= |a| {
        assert (a + b)[i] == b[i - |a|];
      }
    }
  }

  /** A printed number holds digits, a point and possibly a minus sign; no space. */
  lemma Fmt3HasNoSpace(x: real)
    ensures SpaceFree(Fmt3(x))
  {
    var n := Thousandths(x);
    var a: nat := if n < 0 then -n else n;
    var whole, frac := NatToDecimal(a / 1000), Pad3(a % 1000);
    SpaceFreeConcat(whole, ".");
    SpaceFreeConcat(whole + ".", frac);
    assert UnsignedFixed3(a) == whole + "." + frac;
    var sign := if x < 0.0 then "-" else "";
    SpaceFreeConcat(sign, UnsignedFixed3(a));
  }

  /** The snippet can be read back: it carries exactly the printed anomaly and the tag,
      whatever characters the tag holds. */
  lemma SnippetRoundTrip(normalized: real, tag: string)
    ensures ParseSnippet(CliSnippet(normalized, tag)) == Some((Thousandths(normalized), tag))
  {
    Fmt3HasNoSpace(normalized);
    Fmt3RoundTrip(normalized);
    ParseOfParts(Fmt3(normalized), Thousandths(normalized), tag);
  }

  /** Any spaceless number text followed by the tag flag is read back part by part. */
  lemma ParseOfParts(num: string, n: int, tag: string)
    requires SpaceFree(num)
    requires ParseFixed3(num) == Some(n)
    ensures ParseSnippet(AnomalyFlag + num + TagFlag + tag + "\"") == Some((n, tag))
  {
    var flag, tagFlag := AnomalyFlag, TagFlag;
    var tail := tagFlag + tag + "\"";
    var rest := num + tail;
    var s := flag + rest;
    assert s == AnomalyFlag + num + TagFlag + tag + "\"";
    assert s[..|flag|] == flag;
    assert s[|flag|..] == rest;
    RestSplit(num, tail);
    TailSplit(tag);
  }

  /** The number ends at the first space of the tag flag. */
  lemma RestSplit(num: string, tail: string)
    requires SpaceFree(num)
    requires |tail| > 0 && tail[0] == ' '
    ensures FirstSpace(num + tail) == |num|
    ensures (num + tail)[..|num|] == num && (num + tail)[|num|..] == tail
  {
    var rest := num + tail;
    var k := FirstSpace(rest);
    assert rest[|num|] == ' ';
    assert forall i :: 0 <= i < |num| ==> rest[i] == num[i];
  }

  /** The tag sits between the tag flag and the closing quote. */
  lemma TailSplit(tag: string)
    ensures var tail := TagFlag + tag + "\"";
      |tail| >= |TagFlag| + 1 && tail[..|TagFlag|] == TagFlag && tail[|tail| - 1] == '"'
      && tail[|TagFlag|..|tail| - 1] == tag
  {
  }

  // ---------------------------------------------------------------------------
  // The helper's decision

  /** The usage error the argument parser reports (and exits with). */
  datatype UsageError = UsageError(message: string)

  /** What the helper prints: the raw anomaly if one was sampled, its normalised value,
      the tag and the suggested flags. */
  datatype Hint = Hint(anomalyValue: Option<real>, normalized: real, tag: string, snippet: string)

  /** The anomaly branch of `main` and the snippet built from it. `anomalyPath` is the
      `--anomaly` argument (taken when non-empty), `sampled` the value read from that
      raster at the requested point. The bounds are checked with `is None`, so a bound of
      0 is accepted. */
  function ClimateHint(anomalyPath: Option<string>, anomalyMin: Option<real>, anomalyMax: Option<real>,
                       sampled: real, tag: Option<string>): (h: Result<Hint, UsageError>)
    ensures h.Failure? <==> anomalyPath.Some? && anomalyPath.value != "" && (anomalyMin.None? || anomalyMax.None?)
    ensures h.Success? ==> -1.0 <= h.value.normalized <= 1.0
    ensures h.Success? ==> h.value.anomalyValue.Some? == (anomalyPath.Some? && anomalyPath.value != "")
    ensures h.Success? && h.value.anomalyValue.None? ==> h.value.normalized == 0.0
    ensures h.Success? ==> ParseSnippet(h.value.snippet) == Some((Thousandths(h.value.normalized), h.value.tag))
    ensures h.Success? ==> h.value.tag == TagOrDefault(tag)
    ensures h.Success? && anomalyPath.Some? && anomalyPath.value != "" ==>
      h.value.anomalyValue == Some(sampled)
      && h.value.normalized == NormalizeAnomaly(sampled, anomalyMin.value, anomalyMax.value)
  {
    if anomalyPath.Some? && anomalyPath.value != "" then
      if anomalyMin.None? || anomalyMax.None? then
        Failure(UsageError("--anomaly-min and --anomaly-max are required when --anomaly is used."))
      else
        var n := NormalizeAnomaly(sampled, anomalyMin.value, anomalyMax.value);
        var t := TagOrDefault(tag);
        SnippetRoundTrip(n, t);
        Success(Hint(Some(sampled), n, t, CliSnippet(n, t)))
    else
      var t := TagOrDefault(tag);
      SnippetRoundTrip(0.0, t);
      Success(Hint(None, 0.0, t, CliSnippet(0.0, t)))
  }

  /** The suggested flags read back as the sampled anomaly normalised over the bounds, to
      the thousandth, and the tag after defaulting. */
  lemma HintRoundTrip(path: string, lo: real, hi: real, sampled: real, tag: Option<string>)
    requires path != ""
    ensures ClimateHint(Some(path), Some(lo), Some(hi), sampled, tag).Success?
    ensures ParseSnippet(ClimateHint(Some(path), Some(lo), Some(hi), sampled, tag).value.snippet)
      == Some((Thousandths(NormalizeAnomaly(sampled, lo, hi)), TagOrDefault(tag)))
  {
  }

  /** Without an anomaly raster the hint is always `--climate-anomaly 0.000` with the tag,
      which defaults to `CLIMATE_NORMAL`. */
  lemma NoAnomalyHint(sampled: real)
    ensures ClimateHint(None, None, None, sampled, None)
         == Success(Hint(None, 0.0, DefaultTag, "--climate-anomaly 0.000 --climate-tag \"CLIMATE_NORMAL\""))
  {
    Fmt3Zero();
    assert TagOrDefault(None) == DefaultTag;
    assert CliSnippet(0.0, DefaultTag) == AnomalyFlag + "0.000" + TagFlag + DefaultTag + "\"";
    DefaultSnippetText();
  }

  lemma DefaultSnippetText()
    ensures AnomalyFlag + "0.000" + TagFlag + DefaultTag + "\"" == "--climate-anomaly 0.000 --climate-tag \"CLIMATE_NORMAL\""
  {
    assert AnomalyFlag + "0.000" == "--climate-anomaly 0.000";
    assert "--climate-anomaly 0.000" + TagFlag == "--climate-anomaly 0.000 --climate-tag \"";
    assert "--climate-anomaly 0.000 --climate-tag \"" + DefaultTag == "--climate-anomaly 0.000 --climate-tag \"CLIMATE_NORMAL";
  }
}
