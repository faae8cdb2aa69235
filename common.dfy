/**
 * Shared numeric helpers of Source/ScuddleCommon.cpp: angle conversion,
 * quadrant binning, tolerant comparison, the quality/real mappings and the
 * pseudo-random draws.
 *
 * The C library generator is not modelled: every call of `rand()` is one raw
 * non-negative value supplied by the caller, and each helper below is the
 * exact arithmetic the source applies to that value.
 */
module Common {
  import opened DataTypes

  type Positive = r: real | r > 0.0 witness 1.0
  type Tolerance = r: real | 0.0 < r < 0.5 witness 0.25

  /** The ratio of a circle's circumference to its diameter; only its sign is relied on. */
  const Pi: Positive

  /** The comparison tolerance (the float machine epsilon); only 0 < Epsilon < 1/2 is relied on. */
  const Epsilon: Tolerance

  /** Clip range applied to every raw draw. */
  const Modulus: nat := 1000

  /** Largest value `rand()` returns: at least 32767 on every C library, 2147483647 with glibc. */
  type RandLimit = n: nat | n >= 32767 witness 32767
  const RandMax: RandLimit

  function Abs(x: real): (r: real)
    ensures r >= 0.0 && (r == x || r == -x)
  {
    if x < 0.0 then -x else x
  }

  function DegreesToRadians(degrees: real): (r: real)
    ensures degrees >= 0.0 ==> r >= 0.0
  {
    Pi * degrees / 180.0
  }

  function RadiansToDegrees(radians: real): (r: real)
    ensures radians >= 0.0 ==> r >= 0.0
  {
    180.0 * radians / Pi
  }

  /** Converting to radians and back gives the original angle, in both directions. */
  lemma DegreesRadiansRoundTrip(x: real)
    ensures RadiansToDegrees(DegreesToRadians(x)) == x
    ensures DegreesToRadians(RadiansToDegrees(x)) == x
  {
  }

  /** Conversion to radians preserves order, so degree bounds carry over. */
  lemma DegreesToRadiansMonotone(x: real, y: real)
    ensures x <= y <==> DegreesToRadians(x) <= DegreesToRadians(y)
  {
    assert Pi * y - Pi * x == Pi * (y - x);
  }

  /**
   * Quadrant of an angle given in radians, against thresholds given in
   * degrees: the first threshold at or above the angle (shifted down by the
   * tolerance) selects its quadrant; past the third threshold the fourth
   * quadrant is used.
   */
  function MapAngleToQuadrant(angle: real,
                              firstAngle: real, firstQuadrant: int,
                              secondAngle: real, secondQuadrant: int,
                              thirdAngle: real, thirdQuadrant: int,
                              fourthQuadrant: int): (r: int)
    ensures r == firstQuadrant || r == secondQuadrant || r == thirdQuadrant || r == fourthQuadrant
  {
    var asDegrees := RadiansToDegrees(angle) - Epsilon;
    if firstAngle >= asDegrees then firstQuadrant
    else if secondAngle >= asDegrees then secondQuadrant
    else if thirdAngle >= asDegrees then thirdQuadrant
    else fourthQuadrant
  }

  /**
   * For an angle of `x` degrees and ascending thresholds, the quadrant is the
   * one of the band that holds `x - Epsilon`; in particular an angle lying
   * exactly on a threshold belongs to the band below it.
   */
  lemma MapAngleToQuadrantBands(x: real, a1: real, q1: int, a2: real, q2: int, a3: real, q3: int, q4: int)
    requires a1 <= a2 <= a3
    ensures var r := MapAngleToQuadrant(DegreesToRadians(x), a1, q1, a2, q2, a3, q3, q4);
            && (x - Epsilon <= a1 ==> r == q1)
            && (a1 < x - Epsilon <= a2 ==> r == q2)
            && (a2 < x - Epsilon <= a3 ==> r == q3)
            && (a3 < x - Epsilon ==> r == q4)
            && (x == a1 ==> r == q1)
  {
    DegreesRadiansRoundTrip(x);
  }

  /** Tolerant equality: the two values differ by less than Epsilon. */
  predicate ReallyClose(first: real, second: real)
  {
    Abs(first - second) < Epsilon
  }

  /** Tolerant equality is reflexive and symmetric, and on whole numbers it is equality. */
  lemma ReallyCloseProperties(x: real, y: real, m: int, n: int)
    ensures ReallyClose(x, x)
    ensures ReallyClose(x, y) == ReallyClose(y, x)
    ensures ReallyClose(m as real, n as real) <==> m == n
  {
    if m != n {
      assert m - n >= 1 || n - m >= 1;
    }
  }

  function MapFlowToReal(f: Flow): (r: real)
    ensures r == 0.0 || r == 1.0
    ensures r == 1.0 <==> f == FlowBound
  {
    match f
    case FlowFree => 0.0
    case FlowBound => 1.0
  }

  function MapSpaceToReal(s: Space): (r: real)
    ensures r == 0.0 || r == 1.0
    ensures r == 1.0 <==> s == SpaceDirect
  {
    match s
    case SpaceIndirect => 0.0
    case SpaceDirect => 1.0
  }

  function MapTimeToReal(t: Time): (r: real)
    ensures r == 0.0 || r == 1.0
    ensures r == 1.0 <==> t == TimeSudden
  {
    match t
    case TimeSustained => 0.0
    case TimeSudden => 1.0
  }

  function MapWeightToReal(w: Weight): (r: real)
    ensures r == 0.0 || r == 1.0
    ensures r == 1.0 <==> w == WeightStrong
  {
    match w
    case WeightLight => 0.0
    case WeightStrong => 1.0
  }

  function MapHeightToReal(h: Height): (r: real)
    ensures r == HeightRank(h) as real
  {
    match h
    case HeightLow => 0.0
    case HeightMidLow => 1.0
    case HeightMiddle => 2.0
    case HeightMidHigh => 3.0
    case HeightHigh => 4.0
  }

  function MapRealToFlow(v: real): (f: Flow)
  {
    if ReallyClose(v, 1.0) then FlowBound else FlowFree
  }

  function MapRealToSpace(v: real): (s: Space)
  {
    if ReallyClose(v, 1.0) then SpaceDirect else SpaceIndirect
  }

  function MapRealToTime(v: real): (t: Time)
  {
    if ReallyClose(v, 1.0) then TimeSudden else TimeSustained
  }

  function MapRealToWeight(v: real): (w: Weight)
  {
    if ReallyClose(v, 1.0) then WeightStrong else WeightLight
  }

  function MapRealToHeight(v: real): (h: Height)
  {
    if ReallyClose(v, 4.0) then HeightHigh
    else if ReallyClose(v, 3.0) then HeightMidHigh
    else if ReallyClose(v, 2.0) then HeightMiddle
    else if ReallyClose(v, 1.0) then HeightMidLow
    else HeightLow
  }

  /** Every quality survives the trip to a real and back. */
  lemma QualityRoundTrips(f: Flow, s: Space, t: Time, w: Weight, h: Height)
    ensures MapRealToFlow(MapFlowToReal(f)) == f
    ensures MapRealToSpace(MapSpaceToReal(s)) == s
    ensures MapRealToTime(MapTimeToReal(t)) == t
    ensures MapRealToWeight(MapWeightToReal(w)) == w
    ensures MapRealToHeight(MapHeightToReal(h)) == h
  {
  }

  /**
   * A two-valued quality read back from a real is the "1" quality exactly
   * when the real is within tolerance of 1, and a height is read as the level
   * whose rank is within tolerance of the real, the highest such level first.
   */
  lemma RealToQualityCharacterised(v: real)
    ensures MapRealToFlow(v) == FlowBound <==> ReallyClose(v, 1.0)
    ensures MapRealToSpace(v) == SpaceDirect <==> ReallyClose(v, 1.0)
    ensures MapRealToTime(v) == TimeSudden <==> ReallyClose(v, 1.0)
    ensures MapRealToWeight(v) == WeightStrong <==> ReallyClose(v, 1.0)
    ensures forall h: Height :: h != HeightLow && ReallyClose(v, MapHeightToReal(h)) ==> MapRealToHeight(v) == h
    ensures MapRealToHeight(v) == HeightLow <==>
              !ReallyClose(v, 1.0) && !ReallyClose(v, 2.0) && !ReallyClose(v, 3.0) && !ReallyClose(v, 4.0)
  {
  }

  /** A fraction of a span lies between zero and the span. */
  lemma FractionScales(fraction: real, span: real)
    requires 0.0 <= fraction <= 1.0
    ensures span >= 0.0 ==> 0.0 <= fraction * span <= span
    ensures span <= 0.0 ==> span <= fraction * span <= 0.0
  {
    assert span - fraction * span == (1.0 - fraction) * span;
  }

  /** `lo + (raw mod Modulus) / (Modulus - 1) * (hi - lo)`: a value between the two bounds, both included. */
  function RandRealInRange(lowValue: real, highValue: real, raw: nat): (r: real)
    ensures lowValue <= highValue ==> lowValue <= r <= highValue
    ensures highValue <= lowValue ==> highValue <= r <= lowValue
  {
    var fraction := (raw % Modulus) as real / (Modulus - 1) as real;
    var span := highValue - lowValue;
    FractionScales(fraction, span);
    assert lowValue + span == highValue;
    lowValue + fraction * span
  }

  /** Both ends of the range can be drawn. */
  lemma RandRealInRangeEnds(lowValue: real, highValue: real)
    ensures RandRealInRange(lowValue, highValue, 0) == lowValue
    ensures RandRealInRange(lowValue, highValue, Modulus - 1) == highValue
  {
  }

  /** `(raw / Modulus) mod (high + 1)`: an index between 0 and `high`, both included. */
  function RandUnsignedInRange(highValue: nat, raw: nat): (r: nat)
    ensures r <= highValue
  {
    (raw / Modulus) % (highValue + 1)
  }

  /**
   * Every index up to `RandMax / Modulus` (32 where `rand()` stops at 32767)
   * is drawn by some value `rand()` can return.
   */
  lemma RandUnsignedInRangeCovers(highValue: nat, v: nat)
    requires v <= highValue && v <= RandMax / Modulus
    ensures v * Modulus <= RandMax
    ensures RandUnsignedInRange(highValue, v * Modulus) == v
  {
    assert v * Modulus / Modulus == v;
  }

  /** No value `rand()` can return draws an index above `RandMax / Modulus`, whatever the range. */
  lemma RandUnsignedInRangeCap(highValue: nat, raw: nat)
    requires raw <= RandMax
    ensures RandUnsignedInRange(highValue, raw) <= RandMax / Modulus
  {
    assert raw / Modulus <= RandMax / Modulus;
  }

  /** A random angle, in radians, between 0 and `maxAngle` degrees, both included. */
  function RandomAngle(maxAngle: real, raw: nat): (r: real)
    ensures maxAngle >= 0.0 ==> 0.0 <= r <= DegreesToRadians(maxAngle)
    ensures maxAngle >= 0.0 ==> 0.0 <= RadiansToDegrees(r) <= maxAngle
  {
    var degrees := RandRealInRange(0.0, maxAngle, raw);
    DegreesRadiansRoundTrip(degrees);
    DegreesToRadiansMonotone(degrees, maxAngle);
    DegreesToRadians(degrees)
  }
}
