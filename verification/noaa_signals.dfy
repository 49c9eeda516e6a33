/** The NOAA-style atmosphere signals and how they are folded into one number each: a
    moisture level from humidity and precipitation, and a gradient from barometric pressure
    and lightning. Each signal is optional; the present ones are blended with fixed weights
    re-normalised over what is present. */
module NoaaSignals {
  import opened Wrappers
  import opened Numbers

  /** The optional fields used to warp the geometry. */
  datatype NoaaAtmosphere = NoaaAtmosphere(
    precipitationRateMmHr: Option<real>,
    humidityPercent: Option<real>,
    barometricPressureHpa: Option<real>,
    lightningStrikesPerHr: Option<real>)

  /** `_norm`: the signal's position in [lo, hi], clamped to [0,1]; nothing for a missing
      signal or an empty range. */
  function Norm(value: Option<real>, lo: real, hi: real): (r: Option<real>)
    ensures r.None? <==> value.None? || hi <= lo
    ensures r.Some? ==> 0.0 <= r.value <= 1.0
    ensures r.Some? && value.value <= lo ==> r.value == 0.0
    ensures r.Some? && value.value >= hi ==> r.value == 1.0
  {
    if value.None? then None
    else if hi <= lo then None
    else
      var t := (value.value - lo) / (hi - lo);
      QuotientBounds(value.value - lo, hi - lo);
      Some(Clamp01(t))
  }

  /** Inside the range, normalising loses nothing: mapping the result back onto [lo, hi]
      gives the signal again. */
  lemma NormInverts(value: real, lo: real, hi: real)
    requires lo < hi && lo <= value <= hi
    ensures Norm(Some(value), lo, hi).Some? && lo + Norm(Some(value), lo, hi).value * (hi - lo) == value
  {
    var t := (value - lo) / (hi - lo);
    assert t * (hi - lo) == value - lo;
    QuotientBounds(value - lo, hi - lo);
    assert Norm(Some(value), lo, hi).value == t;
  }

  // ---------------------------------------------------------------------------
  // Moisture

  /** Humidity (0–100 %) weighs 0.6 and precipitation (0–20 mm/h) weighs 0.4; the blend is
      `sum(v * w) / sum(w)` over the signals that are present. Nothing when both are
      missing; a lone signal comes through as it is, since its weight cancels; two signals
      blend to a value between them. */
  function MoistureBlend(atmosphere: NoaaAtmosphere): (b: Option<real>)
    ensures b.None? <==> atmosphere.humidityPercent.None? && atmosphere.precipitationRateMmHr.None?
    ensures b.Some? ==> 0.0 <= b.value <= 1.0
    ensures atmosphere.humidityPercent.Some? && atmosphere.precipitationRateMmHr.None? ==>
      b.value == Norm(atmosphere.humidityPercent, 0.0, 100.0).value
    ensures atmosphere.humidityPercent.None? && atmosphere.precipitationRateMmHr.Some? ==>
      b.value == Norm(atmosphere.precipitationRateMmHr, 0.0, 20.0).value
    ensures atmosphere.humidityPercent.Some? && atmosphere.precipitationRateMmHr.Some? ==>
      Between(b.value, Norm(atmosphere.humidityPercent, 0.0, 100.0).value,
        Norm(atmosphere.precipitationRateMmHr, 0.0, 20.0).value)
  {
    var humidity := Norm(atmosphere.humidityPercent, 0.0, 100.0);
    var precipitation := Norm(atmosphere.precipitationRateMmHr, 0.0, 20.0);
    if humidity.Some? && precipitation.Some? then
      Some((humidity.value * 0.6 + precipitation.value * 0.4) / (0.6 + 0.4))
    else if humidity.Some? then Some(humidity.value * 0.6 / 0.6)
    else if precipitation.Some? then Some(precipitation.value * 0.4 / 0.4)
    else None
  }

  /** `m` lies between `x` and `y`, whichever is larger. */
  predicate Between(m: real, x: real, y: real)
  {
    Min(x, y) <= m <= Max(x, y)
  }

  /** The factor the spike radius is scaled by, `_lerp(0.75, 1.45, blend)` written out, or
      nothing when no moisture signal is present. */
  function MoistureFactor(atmosphere: NoaaAtmosphere): (f: Option<real>)
    ensures f.None? <==> atmosphere.humidityPercent.None? && atmosphere.precipitationRateMmHr.None?
    ensures f.Some? ==> 0.75 <= f.value <= 1.45
  {
    var blend := MoistureBlend(atmosphere);
    if blend.None? then None else Some(0.75 + (1.45 - 0.75) * blend.value)
  }

  /** Whatever moisture blend an atmosphere has, the factor is its image on [0.75, 1.45]. */
  lemma FactorOfBlend(atmosphere: NoaaAtmosphere, b: real)
    requires MoistureBlend(atmosphere).Some? && MoistureBlend(atmosphere).value == b
    ensures MoistureFactor(atmosphere).Some? && MoistureFactor(atmosphere).value == 0.75 + 0.7 * b
  {
  }

  // ---------------------------------------------------------------------------
  // Pressure

  const StandardPressureHpa: real := 1013.25

  /** Distance from standard pressure over a 35 hPa span, clamped to [0,1]: within 35 hPa
      of 1013.25 the value times 35 is the deviation, and beyond it the value is 1. */
  function PressureNorm(pressure: Option<real>): (r: Option<real>)
    ensures r.None? <==> pressure.None?
    ensures r.Some? ==> 0.0 <= r.value <= 1.0
    ensures r.Some? && Abs(pressure.value - StandardPressureHpa) <= 35.0 ==>
      r.value * 35.0 == Abs(pressure.value - StandardPressureHpa)
    ensures r.Some? && Abs(pressure.value - StandardPressureHpa) >= 35.0 ==> r.value == 1.0
  {
    if pressure.None? then None
    else Some(Clamp01(Abs(pressure.value - StandardPressureHpa) / 35.0))
  }

  /** Pressure weighs 0.7 and lightning (0–12 strikes/h) weighs 0.3, blended like the
      moisture signals. */
  function PressureGradient(atmosphere: NoaaAtmosphere): (g: Option<real>)
    ensures g.None? <==> atmosphere.barometricPressureHpa.None? && atmosphere.lightningStrikesPerHr.None?
    ensures g.Some? ==> 0.0 <= g.value <= 1.0
    ensures atmosphere.barometricPressureHpa.Some? && atmosphere.lightningStrikesPerHr.None? ==>
      g.value == PressureNorm(atmosphere.barometricPressureHpa).value
    ensures atmosphere.barometricPressureHpa.None? && atmosphere.lightningStrikesPerHr.Some? ==>
      g.value == Norm(atmosphere.lightningStrikesPerHr, 0.0, 12.0).value
    ensures atmosphere.barometricPressureHpa.Some? && atmosphere.lightningStrikesPerHr.Some? ==>
      Between(g.value, PressureNorm(atmosphere.barometricPressureHpa).value,
        Norm(atmosphere.lightningStrikesPerHr, 0.0, 12.0).value)
  {
    var pressure := PressureNorm(atmosphere.barometricPressureHpa);
    var lightning := Norm(atmosphere.lightningStrikesPerHr, 0.0, 12.0);
    if pressure.Some? && lightning.Some? then
      Some((pressure.value * 0.7 + lightning.value * 0.3) / (0.7 + 0.3))
    else if pressure.Some? then Some(pressure.value * 0.7 / 0.7)
    else if lightning.Some? then Some(lightning.value * 0.3 / 0.3)
    else None
  }

  /** Pressure acts through its distance from 1013.25 hPa only: mirror images give the
      same gradient. */
  lemma GradientSymmetric(atmosphere: NoaaAtmosphere, p: real)
    ensures PressureGradient(atmosphere.(barometricPressureHpa := Some(p)))
      == PressureGradient(atmosphere.(barometricPressureHpa := Some(2.0 * StandardPressureHpa - p)))
  {
    assert Abs(p - StandardPressureHpa) == Abs(2.0 * StandardPressureHpa - p - StandardPressureHpa);
  }

  /** Deviations of 35 hPa or more all count as the strongest pressure signal. */
  lemma GradientSaturates(atmosphere: NoaaAtmosphere, p: real)
    requires Abs(p - StandardPressureHpa) >= 35.0
    ensures PressureGradient(atmosphere.(barometricPressureHpa := Some(p)))
      == PressureGradient(atmosphere.(barometricPressureHpa := Some(StandardPressureHpa + 35.0)))
  {
    assert PressureNorm(Some(p)) == Some(1.0);
    assert PressureNorm(Some(StandardPressureHpa + 35.0)) == Some(1.0);
  }
}
