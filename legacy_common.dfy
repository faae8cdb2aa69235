/**
 * The older helpers of the top-level ScuddleCommon.cpp where they differ from
 * the Source/ tree: qualities are read back from reals by thresholds rather
 * than by tolerant equality, and the random real is drawn from a half-open
 * range with a larger clip modulus. The angle conversions and the
 * quality-to-real mappings are the same formulas as in `Common`.
 */
module LegacyCommon {
  import opened DataTypes
  import opened Common

  /** Clip range applied to every raw draw. */
  const LegacyModulus: nat := 100000

  function MapRealToFlow(v: real): (f: Flow)
  {
    if 1.0 <= v + Epsilon then FlowBound else FlowFree
  }

  function MapRealToSpace(v: real): (s: Space)
  {
    if 1.0 <= v + Epsilon then SpaceDirect else SpaceIndirect
  }

  function MapRealToTime(v: real): (t: Time)
  {
    if 1.0 <= v + Epsilon then TimeSudden else TimeSustained
  }

  function MapRealToWeight(v: real): (w: Weight)
  {
    if 1.0 <= v + Epsilon then WeightStrong else WeightLight
  }

  function MapRealToHeight(v: real): (h: Height)
  {
    if 4.0 <= v + Epsilon then HeightHigh
    else if 3.0 <= v + Epsilon then HeightMidHigh
    else if 2.0 <= v + Epsilon then HeightMiddle
    else if 1.0 <= v + Epsilon then HeightMidLow
    else HeightLow
  }

  /** The threshold readings also invert the quality-to-real mappings. */
  lemma LegacyRoundTrips(f: Flow, s: Space, t: Time, w: Weight, h: Height)
    ensures MapRealToFlow(MapFlowToReal(f)) == f
    ensures MapRealToSpace(MapSpaceToReal(s)) == s
    ensures MapRealToTime(MapTimeToReal(t)) == t
    ensures MapRealToWeight(MapWeightToReal(w)) == w
    ensures MapRealToHeight(MapHeightToReal(h)) == h
  {
  }

  /**
   * The height read from a real is the whole part of `v + Epsilon`, capped at
   * the highest level and floored at the lowest.
   */
  lemma LegacyHeightIsCappedFloor(v: real)
    ensures var k := (v + Epsilon).Floor;
            HeightRank(MapRealToHeight(v)) == if k < 0 then 0 else if k > 4 then 4 else k
  {
  }

  /** Unlike tolerant equality, the threshold reading is monotone in the real. */
  lemma LegacyHeightMonotone(v: real, w: real)
    requires v <= w
    ensures HeightRank(MapRealToHeight(v)) <= HeightRank(MapRealToHeight(w))
  {
  }

  /** The tolerant-equality reading of `Common` and the threshold reading agree on the exact level values. */
  lemma ReadingsAgreeOnLevels(h: Height)
    ensures MapRealToHeight(MapHeightToReal(h)) == Common.MapRealToHeight(MapHeightToReal(h))
  {
    QualityRoundTrips(FlowFree, SpaceIndirect, TimeSustained, WeightLight, h);
  }

  /** `lo + (raw mod LegacyModulus) / LegacyModulus * (hi - lo)`: the upper bound is never drawn. */
  function RandInRange(lowValue: real, highValue: real, raw: nat): (r: real)
    ensures lowValue <= highValue ==> lowValue <= r <= highValue
    ensures lowValue < highValue ==> r < highValue
  {
    var fraction := (raw % LegacyModulus) as real / LegacyModulus as real;
    var span := highValue - lowValue;
    FractionScales(fraction, span);
    assert span > 0.0 ==> fraction * span < span by {
      assert span - fraction * span == (1.0 - fraction) * span;
    }
    lowValue + fraction * span
  }

  /** The lower bound is drawn by a raw value that is a multiple of the modulus. */
  lemma RandInRangeLowEnd(lowValue: real, highValue: real)
    ensures RandInRange(lowValue, highValue, LegacyModulus) == lowValue
  {
  }
}
