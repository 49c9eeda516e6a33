/** Worked examples of the two atmosphere adjustments on one set of base parameters. */
module NoaaExamples {
  import opened Wrappers
  import opened Numbers
  import opened FlowMapping
  import opened NoaaSignals
  import opened NoaaShape

  /** The base parameters of the examples. */
  function ExampleFlow(): FlowParams
  {
    FlowParams(5.0, Some(180.0), 8, 60, 1.5, 0.2, 2.5, 1.2, 10.0)
  }

  const Soggy: NoaaAtmosphere := NoaaAtmosphere(Some(12.0), Some(95.0), None, None)
  const Dry: NoaaAtmosphere := NoaaAtmosphere(Some(0.0), Some(15.0), None, None)
  const Storm: NoaaAtmosphere := NoaaAtmosphere(None, None, Some(970.0), Some(8.0))
  const Flat: NoaaAtmosphere := NoaaAtmosphere(None, None, Some(1013.0), Some(0.0))

  /** With both moisture signals present the blend is their weighted mean. */
  lemma MoistureOfBoth(atmosphere: NoaaAtmosphere, h: real, p: real)
    requires Norm(atmosphere.humidityPercent, 0.0, 100.0).Some?
    requires Norm(atmosphere.humidityPercent, 0.0, 100.0).value == h
    requires Norm(atmosphere.precipitationRateMmHr, 0.0, 20.0).Some?
    requires Norm(atmosphere.precipitationRateMmHr, 0.0, 20.0).value == p
    ensures MoistureBlend(atmosphere).Some? && MoistureBlend(atmosphere).value == h * 0.6 + p * 0.4
  {
  }

  lemma SoggyFactor()
    ensures MoistureFactor(Soggy).Some? && MoistureFactor(Soggy).value == 1.317
  {
    assert Norm(Some(95.0), 0.0, 100.0).value == 0.95;
    assert Norm(Some(12.0), 0.0, 20.0).value == 0.6;
    MoistureOfBoth(Soggy, 0.95, 0.6);
    FactorOfBlend(Soggy, 0.81);
  }

  lemma DryFactor()
    ensures MoistureFactor(Dry).Some? && MoistureFactor(Dry).value == 0.813
  {
    assert Norm(Some(15.0), 0.0, 100.0).value == 0.15;
    assert Norm(Some(0.0), 0.0, 20.0).value == 0.0;
    MoistureOfBoth(Dry, 0.15, 0.0);
    FactorOfBlend(Dry, 0.09);
  }

  /** Humid, rainy air swells a 0.2 radius; dry air shrinks it. */
  lemma MoistureExamples()
    ensures ApplyMoisturePuffiness(ExampleFlow(), Soggy).spikeRadius > 0.2
    ensures ApplyMoisturePuffiness(ExampleFlow(), Dry).spikeRadius < 0.2
  {
    SoggyFactor();
    DryFactor();
  }

  /** With both pressure and lightning present the gradient is their weighted mean. */
  lemma PressureOfBoth(atmosphere: NoaaAtmosphere, pressure: real, lightning: real)
    requires PressureNorm(atmosphere.barometricPressureHpa).Some?
    requires PressureNorm(atmosphere.barometricPressureHpa).value == pressure
    requires Norm(atmosphere.lightningStrikesPerHr, 0.0, 12.0).Some?
    requires Norm(atmosphere.lightningStrikesPerHr, 0.0, 12.0).value == lightning
    ensures PressureGradient(atmosphere).Some? && PressureGradient(atmosphere).value == pressure * 0.7 + lightning * 0.3
  {
  }

  lemma StormGradient()
    ensures PressureGradient(Storm).Some? && PressureGradient(Storm).value == 0.9
  {
    assert PressureNorm(Some(970.0)).value == 1.0;
    assert Norm(Some(8.0), 0.0, 12.0).value == 2.0 / 3.0;
    PressureOfBoth(Storm, 1.0, 2.0 / 3.0);
  }

  lemma FlatGradient()
    ensures PressureGradient(Flat).Some? && PressureGradient(Flat).value == 0.005
  {
    assert Abs(1013.0 - StandardPressureHpa) == 0.25;
    assert PressureNorm(Some(1013.0)).value == 0.25 / 35.0;
    assert Norm(Some(0.0), 0.0, 12.0).value == 0.0;
    PressureOfBoth(Flat, 0.25 / 35.0, 0.0);
  }

  lemma ExampleClumpRange()
    ensures MinClumps(8) == 5 && MaxClumps(8) == 13
  {
    assert RoundHalfEven(4.8) == 5;
    assert RoundHalfEven(12.8) == 13;
  }

  /** A storm (970 hPa, 8 strikes/h) raises 8 clumps to 12. */
  lemma StormClumps()
    ensures ApplyPressureClumping(ExampleFlow(), Storm).clumpCount == 12
  {
    StormGradient();
    ExampleClumpRange();
    ClumpsOfGradient(ExampleFlow(), Storm, 0.9);
    assert Lerp(5.0, 13.0, 0.9) == 12.2;
    assert RoundHalfEven(12.2) == 12;
  }

  /** Calm air (1013 hPa, no lightning) lowers 8 clumps to 5. */
  lemma FlatClumps()
    ensures ApplyPressureClumping(ExampleFlow(), Flat).clumpCount == 5
  {
    FlatGradient();
    ExampleClumpRange();
    ClumpsOfGradient(ExampleFlow(), Flat, 0.005);
    assert Lerp(5.0, 13.0, 0.005) == 5.04;
    assert RoundHalfEven(5.04) == 5;
  }

  /** A storm raises the clump count of the example flow and calm air does not. */
  lemma PressureExamples()
    ensures ApplyPressureClumping(ExampleFlow(), Storm).clumpCount > 8
    ensures ApplyPressureClumping(ExampleFlow(), Flat).clumpCount <= 8
  {
    StormClumps();
    FlatClumps();
  }
}
