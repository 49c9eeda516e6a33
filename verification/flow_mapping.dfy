/** `map_wind_to_flow`: a wind reading becomes the geometry of a family of spiky clumps.
    The speed picks one of four Beaufort-like bands; its position inside the band
    interpolates seven attributes between that band's table entries. */
module FlowMapping {
  import opened Wrappers
  import opened Numbers
  import opened WindApi

  /** Geometry parameters derived from the wind. */
  datatype FlowParams = FlowParams(
    windSpeedMps: real,
    windDirectionDeg: Option<real>,
    clumpCount: int,
    spikesPerClump: int,
    spikeLength: real,
    spikeRadius: real,
    clumpRadius: real,
    clumpHeight: real,
    globalTwist: real)

  datatype Band = Calm | Breeze | Fresh | Gale

  function BandName(b: Band): string
  {
    match b
    case Calm => "calm"
    case Breeze => "breeze"
    case Fresh => "fresh"
    case Gale => "gale"
  }

  /** Position of a band in order of increasing wind. */
  function BandIndex(b: Band): nat
  {
    match b
    case Calm => 0
    case Breeze => 1
    case Fresh => 2
    case Gale => 3
  }

  /** The band a (sanitised) speed falls in, by the thresholds 1.5, 7.5 and 13.5 m/s. */
  function BandOf(speed: real): Band
  {
    if speed < 1.5 then Calm
    else if speed < 7.5 then Breeze
    else if speed < 13.5 then Fresh
    else Gale
  }

  /** Lower edge of a band, in m/s. */
  function BandMin(b: Band): real
  {
    match b
    case Calm => 0.0
    case Breeze => 1.5
    case Fresh => 7.5
    case Gale => 13.5
  }

  /** Upper edge of a band used for shaping; the gale band stops shaping at 20 m/s. */
  function BandMax(b: Band): real
  {
    match b
    case Calm => 1.5
    case Breeze => 7.5
    case Fresh => 13.5
    case Gale => 20.0
  }

  /** The speeds a band covers: its half-open interval, with no upper edge for gales. */
  predicate InBand(b: Band, speed: real)
  {
    BandMin(b) <= speed && (b == Gale || speed < BandMax(b))
  }

  /** The seven interpolated attributes. */
  datatype Attribute =
    | ClumpCount | SpikesPerClump | SpikeLength | SpikeRadius | ClumpRadius | ClumpHeight | GlobalTwist

  /** An attribute's value at the bottom (`start`) and top (`end`) of a band. */
  datatype Range = Range(start: real, end: real)

  /** The radius pair is reordered to (larger, smaller) so spikes thin as wind rises. */
  function LargerFirst(a: real, b: real): (r: Range)
    ensures r.start >= r.end
    ensures (r.start == a && r.end == b) || (r.start == b && r.end == a)
  {
    Range(Max(a, b), Min(a, b))
  }

  /** The per-band table. */
  function TableRange(b: Band, a: Attribute): Range
  {
    match b
    case Calm =>
      (match a
       case ClumpCount => Range(3.0, 5.0)
       case SpikesPerClump => Range(12.0, 40.0)
       case SpikeLength => Range(0.6, 1.2)
       case SpikeRadius => LargerFirst(0.32, 0.24)
       case ClumpRadius => Range(1.0, 2.0)
       case ClumpHeight => Range(0.4, 0.8)
       case GlobalTwist => Range(-5.0, 5.0))
    case Breeze =>
      (match a
       case ClumpCount => Range(5.0, 9.0)
       case SpikesPerClump => Range(40.0, 80.0)
       case SpikeLength => Range(1.2, 2.0)
       case SpikeRadius => LargerFirst(0.24, 0.18)
       case ClumpRadius => Range(2.0, 3.5)
       case ClumpHeight => Range(0.8, 1.5)
       case GlobalTwist => Range(5.0, 15.0))
    case Fresh =>
      (match a
       case ClumpCount => Range(9.0, 13.0)
       case SpikesPerClump => Range(80.0, 130.0)
       case SpikeLength => Range(2.0, 3.0)
       case SpikeRadius => LargerFirst(0.18, 0.11)
       case ClumpRadius => Range(3.5, 5.0)
       case ClumpHeight => Range(1.5, 2.3)
       case GlobalTwist => Range(15.0, 30.0))
    case Gale =>
      (match a
       case ClumpCount => Range(13.0, 18.0)
       case SpikesPerClump => Range(130.0, 190.0)
       case SpikeLength => Range(3.0, 4.2)
       case SpikeRadius => LargerFirst(0.11, 0.06)
       case ClumpRadius => Range(5.0, 7.0)
       case ClumpHeight => Range(2.3, 3.2)
       case GlobalTwist => Range(30.0, 50.0))
  }

  /** Every attribute but the spike radius grows with the wind. */
  predicate Rising(a: Attribute) { a != SpikeRadius }

  /** Position of the speed inside its band, with the speed clamped to the band first. */
  function LocalNorm(speed: real): (t: real)
    ensures 0.0 <= t <= 1.0
  {
    var b := BandOf(speed);
    var shapeSpeed := Clamp(speed, BandMin(b), BandMax(b));
    if BandMax(b) > BandMin(b) then (shapeSpeed - BandMin(b)) / (BandMax(b) - BandMin(b)) else 0.0
  }

  /** An attribute's interpolated value, before any rounding. */
  function Interpolate(speed: real, a: Attribute): real
  {
    var r := TableRange(BandOf(speed), a);
    Lerp(r.start, r.end, LocalNorm(speed))
  }

  /** Lowest value an attribute takes over all speeds. */
  function Floor(a: Attribute): real
  {
    if Rising(a) then TableRange(Calm, a).start else TableRange(Gale, a).end
  }

  /** Highest value an attribute takes over all speeds. */
  function Ceiling(a: Attribute): real
  {
    if Rising(a) then TableRange(Gale, a).end else TableRange(Calm, a).start
  }

  /** `map_wind_to_flow`. */
  function MapWindToFlow(wind: WindData): (r: FlowParams)
    ensures r.windSpeedMps >= 0.0
    ensures wind.speedMps >= 0.0 ==> r.windSpeedMps == wind.speedMps
    ensures wind.speedMps < 0.0 ==> r.windSpeedMps == 0.0
    ensures r.windDirectionDeg == wind.directionDeg
    ensures 3 <= r.clumpCount <= 18
    ensures 12 <= r.spikesPerClump <= 190
    ensures 0.6 <= r.spikeLength <= 4.2
    ensures 0.06 <= r.spikeRadius <= 0.32
    ensures 1.0 <= r.clumpRadius <= 7.0
    ensures 0.4 <= r.clumpHeight <= 3.2
    ensures -5.0 <= r.globalTwist <= 50.0
  {
    var speed := Max(0.0, wind.speedMps);
    AttributeBounds(speed, ClumpCount);
    AttributeBounds(speed, SpikesPerClump);
    AttributeBounds(speed, SpikeLength);
    AttributeBounds(speed, SpikeRadius);
    AttributeBounds(speed, ClumpRadius);
    AttributeBounds(speed, ClumpHeight);
    AttributeBounds(speed, GlobalTwist);
    RoundBetween(Interpolate(speed, ClumpCount), 3, 18);
    RoundBetween(Interpolate(speed, SpikesPerClump), 12, 190);
    FlowParams(
      windSpeedMps := speed,
      windDirectionDeg := wind.directionDeg,
      clumpCount := RoundHalfEven(Interpolate(speed, ClumpCount)),
      spikesPerClump := RoundHalfEven(Interpolate(speed, SpikesPerClump)),
      spikeLength := Interpolate(speed, SpikeLength),
      spikeRadius := Interpolate(speed, SpikeRadius),
      clumpRadius := Interpolate(speed, ClumpRadius),
      clumpHeight := Interpolate(speed, ClumpHeight),
      globalTwist := Interpolate(speed, GlobalTwist))
  }

  // ---------------------------------------------------------------------------
  // Bands

  /** The four bands cover all non-negative speeds without overlapping, and `BandOf`
      picks the band whose interval holds the speed. */
  lemma BandPartition(speed: real)
    requires speed >= 0.0
    ensures forall b :: InBand(b, speed) <==> BandOf(speed) == b
  {
  }

  /** A faster wind never falls in a lower band. */
  lemma BandOfMonotone(s1: real, s2: real)
    requires s1 <= s2
    ensures BandIndex(BandOf(s1)) <= BandIndex(BandOf(s2))
  {
  }

  /** Neighbouring bands share their edge values, and each rising attribute grows inside
      its band (the radius shrinks), so a lower band never overtakes a higher one. */
  lemma TableChain(b1: Band, b2: Band, a: Attribute)
    requires BandIndex(b1) < BandIndex(b2)
    ensures Rising(a) ==> TableRange(b1, a).end <= TableRange(b2, a).start
    ensures !Rising(a) ==> TableRange(b1, a).end >= TableRange(b2, a).start
  {
  }

  /** Inside every band the rising attributes go up strictly and the radius goes down. */
  lemma TableDirection(b: Band, a: Attribute)
    ensures Rising(a) ==> TableRange(b, a).start < TableRange(b, a).end
    ensures !Rising(a) ==> TableRange(b, a).start > TableRange(b, a).end
  {
  }

  // ---------------------------------------------------------------------------
  // Interpolation

  /** Inside one band, the local position grows with the speed. */
  lemma LocalNormMonotone(s1: real, s2: real)
    requires s1 <= s2 && BandOf(s1) == BandOf(s2)
    ensures LocalNorm(s1) <= LocalNorm(s2)
  {
    var b := BandOf(s1);
    var lo, hi := BandMin(b), BandMax(b);
    var c1, c2 := Clamp(s1, lo, hi), Clamp(s2, lo, hi);
    assert c1 <= c2;
    var w := hi - lo;
    assert w > 0.0;
    assert (c2 - lo) / w - (c1 - lo) / w == (c2 - c1) / w;
  }

  /** An interpolated value lies between its band's table entries. */
  lemma InterpolateWithinBand(speed: real, a: Attribute)
    ensures var r := TableRange(BandOf(speed), a);
      (Rising(a) ==> r.start <= Interpolate(speed, a) <= r.end)
      && (!Rising(a) ==> r.end <= Interpolate(speed, a) <= r.start)
  {
    var r := TableRange(BandOf(speed), a);
    TableDirection(BandOf(speed), a);
    LerpBetween(r.start, r.end, LocalNorm(speed));
  }

  /** Every interpolated value lies between the attribute's overall floor and ceiling. */
  lemma AttributeBounds(speed: real, a: Attribute)
    ensures Floor(a) <= Interpolate(speed, a) <= Ceiling(a)
  {
    var b := BandOf(speed);
    InterpolateWithinBand(speed, a);
    if b != Calm {
      TableChain(Calm, b, a);
    }
    if b != Gale {
      TableChain(b, Gale, a);
    }
    TableDirection(Calm, a);
    TableDirection(Gale, a);
  }

  /** Faster wind: every rising attribute is at least as large, the radius at most as large,
      across band boundaries as well as within a band. */
  lemma {:induction false} InterpolateMonotone(s1: real, s2: real, a: Attribute)
    requires s1 <= s2
    ensures Rising(a) ==> Interpolate(s1, a) <= Interpolate(s2, a)
    ensures !Rising(a) ==> Interpolate(s1, a) >= Interpolate(s2, a)
  {
    var b1, b2 := BandOf(s1), BandOf(s2);
    BandOfMonotone(s1, s2);
    if b1 == b2 {
      LocalNormMonotone(s1, s2);
      var r := TableRange(b1, a);
      TableDirection(b1, a);
      LerpMonotone(r.start, r.end, LocalNorm(s1), LocalNorm(s2));
    } else {
      InterpolateWithinBand(s1, a);
      InterpolateWithinBand(s2, a);
      TableChain(b1, b2, a);
    }
  }

  /** For the same position inside the band, a higher band gives strictly larger rising
      attributes and a strictly thinner spike radius. */
  lemma BandOrdering(b1: Band, b2: Band, a: Attribute, t: real)
    requires BandIndex(b1) < BandIndex(b2) && 0.0 <= t <= 1.0
    ensures var r1, r2 := TableRange(b1, a), TableRange(b2, a);
      (Rising(a) ==> Lerp(r1.start, r1.end, t) < Lerp(r2.start, r2.end, t))
      && (!Rising(a) ==> Lerp(r1.start, r1.end, t) > Lerp(r2.start, r2.end, t))
  {
    var r1, r2 := TableRange(b1, a), TableRange(b2, a);
    TableChain(b1, b2, a);
    TableDirection(b1, a);
    TableDirection(b2, a);
    LerpBetween(r1.start, r1.end, t);
    LerpBetween(r2.start, r2.end, t);
    if t < 1.0 {
      LerpStrictBelowEnd(r1.start, r1.end, t);
    } else {
      LerpStrictAboveStart(r2.start, r2.end, t);
    }
  }

  // ---------------------------------------------------------------------------
  // Properties of the mapping

  /** A faster wind gives at least as many and as long spikes, as wide and tall clumps and
      as much twist, and spikes at most as thick. */
  lemma MapMonotone(w1: WindData, w2: WindData)
    requires w1.speedMps <= w2.speedMps
    ensures var p1, p2 := MapWindToFlow(w1), MapWindToFlow(w2);
      && p1.clumpCount <= p2.clumpCount
      && p1.spikesPerClump <= p2.spikesPerClump
      && p1.spikeLength <= p2.spikeLength
      && p1.spikeRadius >= p2.spikeRadius
      && p1.clumpRadius <= p2.clumpRadius
      && p1.clumpHeight <= p2.clumpHeight
      && p1.globalTwist <= p2.globalTwist
  {
    var s1, s2 := Max(0.0, w1.speedMps), Max(0.0, w2.speedMps);
    InterpolateMonotone(s1, s2, ClumpCount);
    InterpolateMonotone(s1, s2, SpikesPerClump);
    InterpolateMonotone(s1, s2, SpikeLength);
    InterpolateMonotone(s1, s2, SpikeRadius);
    InterpolateMonotone(s1, s2, ClumpRadius);
    InterpolateMonotone(s1, s2, ClumpHeight);
    InterpolateMonotone(s1, s2, GlobalTwist);
    RoundMonotone(Interpolate(s1, ClumpCount), Interpolate(s2, ClumpCount));
    RoundMonotone(Interpolate(s1, SpikesPerClump), Interpolate(s2, SpikesPerClump));
  }

  /** A negative speed maps exactly like a still day. */
  lemma NegativeSpeedIsCalm(speed: real, direction: Option<real>)
    requires speed < 0.0
    ensures MapWindToFlow(WindData(speed, direction)) == MapWindToFlow(WindData(0.0, direction))
  {
  }

  /** Past 20 m/s the geometry stops changing; only the reported speed keeps growing. */
  lemma GaleSaturates(speed: real, direction: Option<real>)
    requires speed >= 20.0
    ensures MapWindToFlow(WindData(speed, direction))
      == MapWindToFlow(WindData(20.0, direction)).(windSpeedMps := speed)
  {
    assert LocalNorm(speed) == 1.0;
    assert LocalNorm(20.0) == 1.0;
  }

  /** No wind gives the calm band's starting values. */
  lemma ZeroWind(direction: Option<real>)
    ensures MapWindToFlow(WindData(0.0, direction))
      == FlowParams(0.0, direction, 3, 12, 0.6, 0.32, 1.0, 0.4, -5.0)
  {
    assert LocalNorm(0.0) == 0.0;
    RoundOfInteger(3);
    RoundOfInteger(12);
  }

  /** From 20 m/s on, the gale band's top values. */
  lemma GaleMaximum(speed: real, direction: Option<real>)
    requires speed >= 20.0
    ensures MapWindToFlow(WindData(speed, direction))
      == FlowParams(speed, direction, 18, 190, 4.2, 0.06, 7.0, 3.2, 50.0)
  {
    assert LocalNorm(speed) == 1.0;
    RoundOfInteger(18);
    RoundOfInteger(190);
  }

  /** A 100 m/s gale keeps its raw speed and beats a still day on every attribute. */
  lemma CalmVersusGale(d1: Option<real>, d2: Option<real>)
    ensures var calm, gale := MapWindToFlow(WindData(0.0, d1)), MapWindToFlow(WindData(100.0, d2));
      && gale.windSpeedMps == 100.0
      && gale.clumpCount > calm.clumpCount
      && gale.spikesPerClump > calm.spikesPerClump
      && gale.spikeLength > calm.spikeLength
      && gale.spikeRadius < calm.spikeRadius
      && gale.clumpRadius > calm.clumpRadius
      && gale.clumpHeight > calm.clumpHeight
      && gale.globalTwist > calm.globalTwist
  {
    ZeroWind(d1);
    GaleMaximum(100.0, d2);
  }
}
