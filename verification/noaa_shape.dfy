/** Secondary adjustments of the flow parameters from NOAA-style atmosphere signals:
    moisture puffs the spikes up, pressure gradients and lightning remap the number of
    clumps. */
module NoaaShape {
  import opened Wrappers
  import opened Numbers
  import opened FlowMapping
  import opened NoaaSignals

  // ---------------------------------------------------------------------------
  // Moisture

  /** `apply_moisture_puffiness`: only the spike radius changes, scaled by the moisture
      factor; with no moisture signal the parameters come back unchanged. */
  function ApplyMoisturePuffiness(flow: FlowParams, atmosphere: NoaaAtmosphere): (r: FlowParams)
    ensures r.(spikeRadius := flow.spikeRadius) == flow
    ensures atmosphere.humidityPercent.None? && atmosphere.precipitationRateMmHr.None? ==> r == flow
  {
    ScaleRadius(flow, MoistureFactor(atmosphere))
  }

  /** The spike radius multiplied by the factor, when there is one. */
  function ScaleRadius(flow: FlowParams, factor: Option<real>): (r: FlowParams)
    ensures r.(spikeRadius := flow.spikeRadius) == flow
    ensures factor.None? ==> r == flow
    ensures factor.Some? ==> r.spikeRadius == flow.spikeRadius * factor.value
  {
    if factor.None? then flow else flow.(spikeRadius := flow.spikeRadius * factor.value)
  }

  /** A factor in [0.75, 1.45] keeps a non-negative radius between 0.75 and 1.45 times
      itself. */
  lemma ScaleRadiusBounds(flow: FlowParams, factor: Option<real>)
    requires flow.spikeRadius >= 0.0
    requires factor.Some? ==> 0.75 <= factor.value <= 1.45
    ensures 0.75 * flow.spikeRadius <= ScaleRadius(flow, factor).spikeRadius <= 1.45 * flow.spikeRadius
  {
    if factor.Some? {
      FactorScales(flow.spikeRadius, factor.value);
    } else {
      assert ScaleRadius(flow, factor).spikeRadius == flow.spikeRadius;
    }
  }

  /** A non-negative radius ends up between 0.75 and 1.45 times itself. */
  lemma PuffinessBounds(flow: FlowParams, atmosphere: NoaaAtmosphere)
    requires flow.spikeRadius >= 0.0
    ensures 0.75 * flow.spikeRadius <= ApplyMoisturePuffiness(flow, atmosphere).spikeRadius
    ensures ApplyMoisturePuffiness(flow, atmosphere).spikeRadius <= 1.45 * flow.spikeRadius
  {
    ScaleRadiusBounds(flow, MoistureFactor(atmosphere));
  }

  lemma FactorScales(x: real, f: real)
    ensures x >= 0.0 && 0.75 <= f <= 1.45 ==> 0.75 * x <= x * f <= 1.45 * x
  {
    if x >= 0.0 && 0.75 <= f <= 1.45 {
      ProductNonNegative(f - 0.75, x);
      ProductNonNegative(1.45 - f, x);
      assert x * f - 0.75 * x == (f - 0.75) * x;
      assert 1.45 * x - x * f == (1.45 - f) * x;
    }
  }

  // ---------------------------------------------------------------------------
  // Pressure

  /** Fewest clumps the pressure adjustment can produce from `count`. */
  function MinClumps(count: int): int
  {
    MaxInt(1, RoundHalfEven(count as real * 0.6))
  }

  /** Most clumps the pressure adjustment can produce from `count`. */
  function MaxClumps(count: int): int
  {
    MaxInt(1, RoundHalfEven(count as real * 1.6))
  }

  lemma ClumpRangeOrdered(count: int)
    ensures 1 <= MinClumps(count) <= MaxClumps(count)
  {
    if count >= 0 {
      RoundMonotone(count as real * 0.6, count as real * 1.6);
    } else {
      RoundOfInteger(0);
      RoundMonotone(count as real * 0.6, 0.0);
      RoundMonotone(count as real * 1.6, 0.0);
    }
  }

  /** `apply_pressure_clumping`: only the clump count changes, to a value between 0.6 and
      1.6 times the old count (each rounded, at least one); with neither pressure nor
      lightning present the parameters come back unchanged. */
  function ApplyPressureClumping(flow: FlowParams, atmosphere: NoaaAtmosphere): (r: FlowParams)
    ensures r.(clumpCount := flow.clumpCount) == flow
    ensures atmosphere.barometricPressureHpa.None? && atmosphere.lightningStrikesPerHr.None? ==> r == flow
    ensures PressureGradient(atmosphere).Some? ==>
      MinClumps(flow.clumpCount) <= r.clumpCount <= MaxClumps(flow.clumpCount)
    ensures PressureGradient(atmosphere).Some? ==> r.clumpCount >= 1
  {
    if PressureGradient(atmosphere).None? then flow
    else
      ClumpRangeOrdered(flow.clumpCount);
      LerpBetween(MinClumps(flow.clumpCount) as real, MaxClumps(flow.clumpCount) as real, PressureGradient(atmosphere).value);
      RoundBetween(Lerp(MinClumps(flow.clumpCount) as real, MaxClumps(flow.clumpCount) as real, PressureGradient(atmosphere).value),
        MinClumps(flow.clumpCount), MaxClumps(flow.clumpCount));
      flow.(clumpCount := RoundHalfEven(Lerp(MinClumps(flow.clumpCount) as real, MaxClumps(flow.clumpCount) as real, PressureGradient(atmosphere).value)))
  }

  /** Whatever gradient an atmosphere has, the count is the rounded point that far between
      the two extremes. */
  lemma ClumpsOfGradient(flow: FlowParams, atmosphere: NoaaAtmosphere, g: real)
    requires PressureGradient(atmosphere).Some? && PressureGradient(atmosphere).value == g
    ensures ApplyPressureClumping(flow, atmosphere).clumpCount ==
      RoundHalfEven(Lerp(MinClumps(flow.clumpCount) as real, MaxClumps(flow.clumpCount) as real, g))
  {
  }

  /** Mirror-image pressures around 1013.25 hPa give the same geometry. */
  lemma PressureSymmetric(flow: FlowParams, atmosphere: NoaaAtmosphere, p: real)
    ensures ApplyPressureClumping(flow, atmosphere.(barometricPressureHpa := Some(p)))
      == ApplyPressureClumping(flow, atmosphere.(barometricPressureHpa := Some(2.0 * StandardPressureHpa - p)))
  {
    GradientSymmetric(atmosphere, p);
  }

  /** Deviations of 35 hPa or more all give the geometry of the strongest gradient. */
  lemma PressureSaturates(flow: FlowParams, atmosphere: NoaaAtmosphere, p: real)
    requires Abs(p - StandardPressureHpa) >= 35.0
    ensures ApplyPressureClumping(flow, atmosphere.(barometricPressureHpa := Some(p)))
      == ApplyPressureClumping(flow, atmosphere.(barometricPressureHpa := Some(StandardPressureHpa + 35.0)))
  {
    GradientSaturates(atmosphere, p);
  }
}
