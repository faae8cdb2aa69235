/**
 * The fitness function of Source/ScuddleSkeleton.cpp: a Bartenieff
 * body-pattern factor, a Laban Effort factor and a height factor, summed
 * and scaled by the height-adjusted quadrant score.
 */
module SkeletonFitness {
  import opened DataTypes
  import opened Common
  import opened SkeletonLayout

  /** Current values of the nine tunable weights the Skeleton fitness function reads. */
  datatype Coefficients = Coefficients(
    bartenieffContralateral: real,
    bartenieffDistal: real,
    bartenieffHomolateral: real,
    bartenieffHomologous: real,
    bartenieffMedial: real,
    effortHigh: real,
    effortLow: real,
    effortMedium: real,
    unextendedLegs: real)

  /** Every weight ranges over [0, 10]. */
  const MinimumCoefficient: real := 0.0
  const MaximumCoefficient: real := 10.0

  /** The weights a Skeleton starts with and returns to on reset. */
  const InitialCoefficients: Coefficients := Coefficients(1.3, 0.4, 0.5, 0.4, 0.7, 1.4, 0.6, 1.2, 0.3)

  predicate InRange(x: real)
  {
    MinimumCoefficient <= x <= MaximumCoefficient
  }

  predicate CoefficientsInRange(c: Coefficients)
  {
    && InRange(c.bartenieffContralateral) && InRange(c.bartenieffDistal) && InRange(c.bartenieffHomolateral)
    && InRange(c.bartenieffHomologous) && InRange(c.bartenieffMedial)
    && InRange(c.effortHigh) && InRange(c.effortLow) && InRange(c.effortMedium)
    && InRange(c.unextendedLegs)
  }

  /** The Bartenieff body patterns, in the order they are tested. */
  datatype Pattern = Distal | Medial | Homolateral | Contralateral | Homologous | NoPattern

  /** Threshold, in radians, beyond which two limbs count as apart. */
  function CriticalAngle(): (r: real)
    ensures r > 0.0
  {
    DegreesToRadians(30.0)
  }

  /** Each upper limb segment lies in the same quadrant as the segment it carries. */
  predicate LimbsAligned(q: seq<int>)
    requires |q| == NumCalculatedAngles
  {
    && q[LeftShoulderToElbow] == q[LeftElbowToWrist]
    && q[RightShoulderToElbow] == q[RightElbowToWrist]
    && q[LeftHipToKnee] == q[LeftKneeToFoot]
    && q[RightHipToKnee] == q[RightKneeToFoot]
  }

  /** Two limbs are apart when both of their segments differ by more than the critical angle. */
  predicate Apart(angles: seq<real>, upperA: nat, lowerA: nat, upperB: nat, lowerB: nat)
    requires upperA < |angles| && lowerA < |angles| && upperB < |angles| && lowerB < |angles|
  {
    Abs(angles[upperA] - angles[upperB]) > CriticalAngle() && Abs(angles[lowerA] - angles[lowerB]) > CriticalAngle()
  }

  /** The first Bartenieff pattern whose test the posture passes. */
  function Classify(q: seq<int>, quadrantScore: int, angles: seq<real>): Pattern
    requires |q| == NumCalculatedAngles && |angles| == NumCalculatedAngles
  {
    if quadrantScore == 8 && LimbsAligned(q) then Distal
    else if quadrantScore == 12 && LimbsAligned(q) then Medial
    else if Apart(angles, LeftShoulderToElbow, LeftElbowToWrist, LeftHipToKnee, LeftKneeToFoot)
         || Apart(angles, RightShoulderToElbow, RightElbowToWrist, RightHipToKnee, RightKneeToFoot)
    then Homolateral
    else if Apart(angles, LeftShoulderToElbow, LeftElbowToWrist, RightHipToKnee, RightKneeToFoot)
         || Apart(angles, RightShoulderToElbow, RightElbowToWrist, LeftHipToKnee, LeftKneeToFoot)
    then Contralateral
    else if (q[LeftShoulderToElbow] == q[RightShoulderToElbow] && q[LeftElbowToWrist] == q[RightElbowToWrist])
         || (q[LeftHipToKnee] == q[RightHipToKnee] && q[LeftKneeToFoot] == q[RightKneeToFoot])
    then Homologous
    else NoPattern
  }

  function BartenieffFactor(p: Pattern, c: Coefficients): real
  {
    match p
    case Distal => c.bartenieffDistal
    case Medial => c.bartenieffMedial
    case Homolateral => c.bartenieffHomolateral
    case Contralateral => c.bartenieffContralateral
    case Homologous => c.bartenieffHomologous
    case NoPattern => 0.0
  }

  /** The Laban Effort tiers. */
  datatype EffortTier = EffortLow | EffortMedium | EffortHigh

  /**
   * Effort tier of four qualities: all four at the same end of their scales
   * is low; otherwise, if they split into two pairs with equal values
   * (compared as reals within tolerance), medium; otherwise high.
   */
  function EffortOf(w: Weight, s: Space, t: Time, f: Flow): EffortTier
  {
    if (w == WeightLight && s == SpaceIndirect && t == TimeSustained && f == FlowFree)
       || (w == WeightStrong && s == SpaceDirect && t == TimeSudden && f == FlowBound)
    then EffortLow
    else if (ReallyClose(MapWeightToReal(w), MapSpaceToReal(s)) && ReallyClose(MapTimeToReal(t), MapFlowToReal(f)))
         || (ReallyClose(MapWeightToReal(w), MapTimeToReal(t)) && ReallyClose(MapSpaceToReal(s), MapFlowToReal(f)))
         || (ReallyClose(MapWeightToReal(w), MapFlowToReal(f)) && ReallyClose(MapSpaceToReal(s), MapTimeToReal(t)))
    then EffortMedium
    else EffortHigh
  }

  function EffortFactor(tier: EffortTier, c: Coefficients): real
  {
    match tier
    case EffortLow => c.effortLow
    case EffortMedium => c.effortMedium
    case EffortHigh => c.effortHigh
  }

  /** How many of the four qualities sit at the "1" end of their scale. */
  function StrongQualities(w: Weight, s: Space, t: Time, f: Flow): (n: nat)
    ensures n <= 4
  {
    (if w == WeightStrong then 1 else 0) + (if s == SpaceDirect then 1 else 0)
    + (if t == TimeSudden then 1 else 0) + (if f == FlowBound then 1 else 0)
  }

  /** On the two values 0 and 1, tolerant equality is equality. */
  lemma CloseOnBits(a: real, b: real)
    requires (a == 0.0 || a == 1.0) && (b == 0.0 || b == 1.0)
    ensures ReallyClose(a, b) <==> a == b
  {
    ReallyCloseProperties(a, b, a.Floor, b.Floor);
  }

  /**
   * The Effort tier depends only on how many qualities are at their "1" end:
   * none or all four is low, exactly two is medium, one or three is high.
   */
  lemma EffortTierByCount(w: Weight, s: Space, t: Time, f: Flow)
    ensures var n := StrongQualities(w, s, t, f);
            EffortOf(w, s, t, f) == (if n == 0 || n == 4 then EffortLow else if n == 2 then EffortMedium else EffortHigh)
  {
    var rw, rs, rt, rf := MapWeightToReal(w), MapSpaceToReal(s), MapTimeToReal(t), MapFlowToReal(f);
    CloseOnBits(rw, rs);
    CloseOnBits(rt, rf);
    CloseOnBits(rw, rt);
    CloseOnBits(rs, rf);
    CloseOnBits(rw, rf);
    CloseOnBits(rs, rt);
  }

  /** Low, Middle and High heights add 1 to the quadrant score, the two in-between heights 3. */
  function HeightAdjustment(h: Height): int
  {
    if h == HeightLow || h == HeightMiddle || h == HeightHigh then 1 else 3
  }

  /** Crouched heights (neither lowest nor highest) earn the unextended-legs weight. */
  function HeightFactor(h: Height, c: Coefficients): real
  {
    if h == HeightMidLow || h == HeightMiddle || h == HeightMidHigh then c.unextendedLegs else 0.0
  }

  /** The quadrant score after the height adjustment. */
  function AdjustedScore(g: Genome): (score: int)
    requires |g.angles| == NumCalculatedAngles
    ensures 9 <= score <= 35
  {
    QuadrantScoreBounds(g.angles);
    Sum(Quadrants(g.angles)) + HeightAdjustment(g.height)
  }

  /** The Bartenieff pattern a genome shows. */
  function PatternOf(g: Genome): Pattern
    requires |g.angles| == NumCalculatedAngles
  {
    var q := Quadrants(g.angles);
    Classify(q, Sum(q), g.angles)
  }

  /** A sum of factors scaled by a quadrant score. */
  function Scaled(factorSum: real, quadrantScore: int): real
  {
    factorSum * quadrantScore as real
  }

  /** Sum of the three factors scaled by the adjusted quadrant score. */
  function Score(p: Pattern, tier: EffortTier, h: Height, adjusted: int, c: Coefficients): real
  {
    Scaled(BartenieffFactor(p, c) + EffortFactor(tier, c) + HeightFactor(h, c), adjusted)
  }

  /** The fitness score `updateFitness` stores for a genome. */
  function Fitness(g: Genome, c: Coefficients): real
    requires |g.angles| == NumCalculatedAngles
  {
    Score(PatternOf(g), EffortOf(g.weight, g.space, g.time, g.flow), g.height, AdjustedScore(g), c)
  }

  /** A posture is distal exactly when every limb lies in quadrant 1. */
  lemma DistalIffAllQuadrantsOne(g: Genome)
    requires |g.angles| == NumCalculatedAngles
    ensures PatternOf(g) == Distal <==> forall k :: 0 <= k < NumCalculatedAngles ==> Quadrants(g.angles)[k] == 1
  {
    SumMinimalIffAllOnes(Quadrants(g.angles));
  }

  /** A posture with a quadrant score of 12 and aligned limbs is medial, never distal. */
  lemma MedialNeedsScoreTwelve(g: Genome)
    requires |g.angles| == NumCalculatedAngles
    ensures PatternOf(g) == Medial ==> Sum(Quadrants(g.angles)) == 12 && LimbsAligned(Quadrants(g.angles))
    ensures PatternOf(g) == Medial ==> exists k :: 0 <= k < NumCalculatedAngles && Quadrants(g.angles)[k] != 1
  {
    if PatternOf(g) == Medial {
      DistalIffAllQuadrantsOne(g);
      SumMinimalIffAllOnes(Quadrants(g.angles));
    }
  }

  /** A factor sum between 0 and 30 scaled by a positive score. */
  lemma ScaledBounds(sum: real, adjusted: int)
    requires 0.0 <= sum <= 30.0 && adjusted > 0
    ensures 0.0 <= Scaled(sum, adjusted) <= 30.0 * adjusted as real
    ensures sum > 0.0 ==> Scaled(sum, adjusted) > 0.0
  {
    var a := adjusted as real;
    assert 30.0 * a - sum * a == (30.0 - sum) * a;
  }

  /** Each of the three factors is one of the weights or zero, so it lies in the weights' range. */
  lemma FactorsInRange(p: Pattern, tier: EffortTier, h: Height, c: Coefficients)
    requires CoefficientsInRange(c)
    ensures InRange(BartenieffFactor(p, c)) && InRange(EffortFactor(tier, c)) && InRange(HeightFactor(h, c))
    ensures c.effortLow > 0.0 && c.effortMedium > 0.0 && c.effortHigh > 0.0 ==> EffortFactor(tier, c) > 0.0
  {
  }

  /** With weights in their ranges a score lies between 0 and 30 times the adjusted quadrant score. */
  lemma ScoreBounds(p: Pattern, tier: EffortTier, h: Height, adjusted: int, c: Coefficients)
    requires CoefficientsInRange(c) && adjusted > 0
    ensures 0.0 <= Score(p, tier, h, adjusted, c) <= 30.0 * adjusted as real
    ensures c.effortLow > 0.0 && c.effortMedium > 0.0 && c.effortHigh > 0.0 ==> Score(p, tier, h, adjusted, c) > 0.0
  {
    FactorsInRange(p, tier, h, c);
    ScaledBounds(BartenieffFactor(p, c) + EffortFactor(tier, c) + HeightFactor(h, c), adjusted);
  }

  /** With weights in their ranges the fitness lies between 0 and 30 times the adjusted quadrant score. */
  lemma FitnessBounds(g: Genome, c: Coefficients)
    requires |g.angles| == NumCalculatedAngles && CoefficientsInRange(c)
    ensures 0.0 <= Fitness(g, c) <= 30.0 * AdjustedScore(g) as real
  {
    ScoreBounds(PatternOf(g), EffortOf(g.weight, g.space, g.time, g.flow), g.height, AdjustedScore(g), c);
  }

  /** When every Effort weight is positive and no weight is negative, every genome scores above zero. */
  lemma FitnessPositive(g: Genome, c: Coefficients)
    requires |g.angles| == NumCalculatedAngles && CoefficientsInRange(c)
    requires c.effortLow > 0.0 && c.effortMedium > 0.0 && c.effortHigh > 0.0
    ensures Fitness(g, c) > 0.0
  {
    ScoreBounds(PatternOf(g), EffortOf(g.weight, g.space, g.time, g.flow), g.height, AdjustedScore(g), c);
  }

  /** The initial weights are in range and give every genome a positive score. */
  lemma InitialCoefficientsScorePositive(g: Genome)
    requires |g.angles| == NumCalculatedAngles
    ensures CoefficientsInRange(InitialCoefficients)
    ensures Fitness(g, InitialCoefficients) > 0.0
  {
    FitnessPositive(g, InitialCoefficients);
  }
}
