/**
 * The Body individual of Source/ScuddleBody.cpp: the same genome as a
 * Skeleton, held in eight named angle fields and eight named quadrant
 * fields, with a three-tier leg-extension height factor and thirteen
 * crossover slots numbered angles first.
 */
module Body {
  import opened DataTypes
  import opened Common
  import opened SkeletonLayout
  import opened SkeletonFitness
  import opened SlotSwap
  import opened Skeleton

  /** Number of angles `mutate` chooses from. */
  const NumAngles: nat := 8
  /** Number of crossover slots: the eight angles, then weight, space, time, flow and height. */
  const NumAttributes: nat := 13

  /** The nine Skeleton weights plus the two extended-leg weights of a Body. */
  datatype BodyCoefficients = BodyCoefficients(base: Coefficients, fullyExtendedLeg: real, lowerLegExtended: real)

  const InitialBodyCoefficients: BodyCoefficients := BodyCoefficients(InitialCoefficients, 1.1, 1.3)

  predicate BodyCoefficientsInRange(c: BodyCoefficients)
  {
    CoefficientsInRange(c.base) && InRange(c.fullyExtendedLeg) && InRange(c.lowerLegExtended)
  }

  /**
   * Body code numbers the angles shoulder first (left shoulder, left elbow,
   * right shoulder, right elbow, left hip, left knee, right hip, right knee);
   * this is the position of Body angle `i` in the Skeleton angle layout.
   */
  function LayoutIndex(i: nat): (k: nat)
    requires i < NumAngles
    ensures k < NumCalculatedAngles && AngleDraw(k) == i
    ensures k == if i < 4 then i + 4 else i - 4
  {
    (i + 4) % NumCalculatedAngles
  }

  /** The Skeleton crossover slot that Body slot `b` exchanges. */
  function SkeletonSlot(b: nat): (s: nat)
    requires b < NumAttributes
    ensures s < NumFixedAttributes + NumCalculatedAngles
  {
    if b < NumAngles then NumFixedAttributes + LayoutIndex(b) else b - NumAngles
  }

  /** The Skeleton slot numbering is a bijection of the thirteen Body slots. */
  lemma SkeletonSlotBijective(b1: nat, b2: nat, s: nat)
    requires b1 < NumAttributes && b2 < NumAttributes && s < NumFixedAttributes + NumCalculatedAngles
    ensures SkeletonSlot(b1) == SkeletonSlot(b2) ==> b1 == b2
    ensures exists b :: 0 <= b < NumAttributes && SkeletonSlot(b) == s
  {
    if s < NumFixedAttributes {
      assert SkeletonSlot(s + NumAngles) == s;
    } else {
      var b := AngleDraw(s - NumFixedAttributes);
      assert SkeletonSlot(b) == s;
    }
  }

  function SkeletonSlots(slots: seq<nat>): (r: seq<nat>)
    requires forall i :: 0 <= i < |slots| ==> slots[i] < NumAttributes
    ensures |r| == |slots|
  {
    seq(|slots|, i requires 0 <= i < |slots| => SkeletonSlot(slots[i]))
  }

  lemma SkeletonSlotsSnoc(slots: seq<nat>, ii: nat)
    requires ii < |slots| && forall i :: 0 <= i < |slots| ==> slots[i] < NumAttributes
    ensures SkeletonSlots(slots[..ii + 1]) == SkeletonSlots(slots[..ii]) + [SkeletonSlot(slots[ii])]
  {
  }

  /** Distinct Body slots name distinct Skeleton slots. */
  lemma SkeletonSlotsDistinct(slots: seq<nat>)
    requires forall i :: 0 <= i < |slots| ==> slots[i] < NumAttributes
    requires Distinct(slots)
    ensures Distinct(SkeletonSlots(slots))
  {
    forall i, j | 0 <= i < j < |slots| ensures SkeletonSlots(slots)[i] != SkeletonSlots(slots)[j] {
      SkeletonSlotBijective(slots[i], slots[j], 0);
    }
  }

  /** The genome after a Body `mutate` from three draws: the 180-degree value, the 360-degree value, the angle. */
  function MutateBodyGenome(g: Genome, distalRaw: nat, medialRaw: nat, whichRaw: nat): Genome
    requires |g.angles| == NumCalculatedAngles
  {
    var which := RandUnsignedInRange(NumAngles - 1, whichRaw);
    var value := if which % 2 == 0 then RandomAngle(360.0, medialRaw) else RandomAngle(180.0, distalRaw);
    g.(angles := g.angles[LayoutIndex(which) := value])
  }

  /**
   * A Body mutation rewrites exactly one angle: an even case a shoulder or
   * hip with the full-circle value, an odd case an elbow or knee with the
   * half-circle value, each within the range of that limb.
   */
  lemma MutateBodyChangesOneAngle(g: Genome, distalRaw: nat, medialRaw: nat, whichRaw: nat)
    requires |g.angles| == NumCalculatedAngles
    ensures var m := MutateBodyGenome(g, distalRaw, medialRaw, whichRaw);
            var k := LayoutIndex(RandUnsignedInRange(NumAngles - 1, whichRaw));
            && |m.angles| == NumCalculatedAngles
            && m.weight == g.weight && m.space == g.space && m.time == g.time && m.flow == g.flow && m.height == g.height
            && (forall j :: 0 <= j < NumCalculatedAngles && j != k ==> m.angles[j] == g.angles[j])
            && 0.0 <= m.angles[k] <= DegreesToRadians(AngleLimit(k))
  {
    var which := RandUnsignedInRange(NumAngles - 1, whichRaw);
    assert AngleLimit(LayoutIndex(which)) == if which % 2 == 0 then 360.0 else 180.0;
  }

  /** A crouched height: neither the lowest nor the highest. */
  predicate Crouched(h: Height)
  {
    h == HeightMidLow || h == HeightMiddle || h == HeightMidHigh
  }

  /** The leg test exactly as written, where `&&` binds only the right-hip/left-knee pair. */
  predicate LegFullyExtended(q: seq<int>)
    requires |q| == NumCalculatedAngles
  {
    1 == q[LeftHipToKnee] || 2 == q[LeftHipToKnee] || 1 == q[RightHipToKnee]
    || (2 == q[RightHipToKnee] && 1 == q[LeftKneeToFoot]) || 2 == q[LeftKneeToFoot]
    || 1 == q[RightKneeToFoot] || 2 == q[RightKneeToFoot]
  }

  predicate LowerLegExtended(q: seq<int>)
    requires |q| == NumCalculatedAngles
  {
    1 == q[LeftKneeToFoot] || 2 == q[LeftKneeToFoot] || 1 == q[RightKneeToFoot] || 2 == q[RightKneeToFoot]
  }

  /**
   * The height factor of a Body. Only crouched heights assign one; for the
   * lowest and highest heights the source reads an unassigned local, so the
   * factor is undefined (None).
   */
  function BodyHeightFactor(h: Height, q: seq<int>, c: BodyCoefficients): (r: Option<real>)
    requires |q| == NumCalculatedAngles
    ensures r.Some? <==> Crouched(h)
  {
    if Crouched(h) then
      Some(if LegFullyExtended(q) then c.fullyExtendedLeg
           else if LowerLegExtended(q) then c.lowerLegExtended
           else c.base.unextendedLegs)
    else None
  }

  /**
   * The three leg tiers in plain terms. The lower-leg weight applies exactly
   * when the left knee-to-foot quadrant is 1 and no hip and no other
   * knee-to-foot quadrant is 1 or 2. The unextended weight applies exactly
   * when neither knee-to-foot quadrant, the left hip-to-knee quadrant nor the
   * right hip-to-knee quadrant is 1 or 2, except that a right hip in quadrant
   * 2 still counts as unextended.
   */
  lemma LegTiers(q: seq<int>)
    requires |q| == NumCalculatedAngles
    ensures !LegFullyExtended(q) && LowerLegExtended(q) <==>
            && q[LeftKneeToFoot] == 1
            && q[LeftHipToKnee] != 1 && q[LeftHipToKnee] != 2
            && q[RightHipToKnee] != 1 && q[RightHipToKnee] != 2
            && q[RightKneeToFoot] != 1 && q[RightKneeToFoot] != 2
    ensures !LegFullyExtended(q) && !LowerLegExtended(q) <==>
            && q[LeftKneeToFoot] != 1 && q[LeftKneeToFoot] != 2
            && q[RightKneeToFoot] != 1 && q[RightKneeToFoot] != 2
            && q[LeftHipToKnee] != 1 && q[LeftHipToKnee] != 2
            && q[RightHipToKnee] != 1
  {
  }

  /** Sum of the three Body factors scaled by the adjusted quadrant score. */
  function BodyScore(p: Pattern, tier: EffortTier, heightFactor: real, adjusted: int, c: BodyCoefficients): real
  {
    Scaled(BartenieffFactor(p, c.base) + EffortFactor(tier, c.base) + heightFactor, adjusted)
  }

  /** With weights in range a Body score lies between 0 and 30 times the adjusted quadrant score. */
  lemma BodyScoreBounds(p: Pattern, tier: EffortTier, heightFactor: real, adjusted: int, c: BodyCoefficients)
    requires BodyCoefficientsInRange(c) && InRange(heightFactor) && adjusted > 0
    ensures 0.0 <= BodyScore(p, tier, heightFactor, adjusted, c) <= 30.0 * adjusted as real
  {
    FactorsInRange(p, tier, HeightLow, c.base);
    ScaledBounds(BartenieffFactor(p, c.base) + EffortFactor(tier, c.base) + heightFactor, adjusted);
  }

  /** The fitness of a Body genome; None where the height factor is undefined. */
  function BodyFitness(g: Genome, c: BodyCoefficients): (r: Option<real>)
    requires |g.angles| == NumCalculatedAngles
    ensures r.Some? <==> Crouched(g.height)
  {
    match BodyHeightFactor(g.height, Quadrants(g.angles), c)
    case None => None
    case Some(heightFactor) =>
      Some(BodyScore(PatternOf(g), EffortOf(g.weight, g.space, g.time, g.flow), heightFactor, AdjustedScore(g), c))
  }

  /** The Body fitness of `g` assembled from its three factors and its adjusted quadrant score. */
  lemma BodyFitnessOfFactors(g: Genome, c: BodyCoefficients, bf: real, ef: real, hf: real, adjusted: int)
    requires |g.angles| == NumCalculatedAngles
    requires bf == BartenieffFactor(PatternOf(g), c.base)
    requires ef == EffortFactor(EffortOf(g.weight, g.space, g.time, g.flow), c.base)
    requires BodyHeightFactor(g.height, Quadrants(g.angles), c) == Some(hf)
    requires adjusted == AdjustedScore(g)
    ensures BodyFitness(g, c) == Some(Scaled(bf + ef + hf, adjusted))
  {
  }

  /**
   * Where it is defined, the Body fitness differs from the Skeleton fitness
   * only through the leg tiers: with no leg extended the two agree.
   */
  lemma BodyFitnessMatchesSkeleton(g: Genome, c: BodyCoefficients)
    requires |g.angles| == NumCalculatedAngles && Crouched(g.height)
    requires !LegFullyExtended(Quadrants(g.angles)) && !LowerLegExtended(Quadrants(g.angles))
    ensures BodyFitness(g, c) == Some(Fitness(g, c.base))
  {
  }

  /** With weights in range a defined Body fitness lies between 0 and 30 times the adjusted quadrant score. */
  lemma BodyFitnessBounds(g: Genome, c: BodyCoefficients)
    requires |g.angles| == NumCalculatedAngles && BodyCoefficientsInRange(c) && Crouched(g.height)
    ensures 0.0 <= BodyFitness(g, c).value <= 30.0 * AdjustedScore(g) as real
  {
    var hf := BodyHeightFactor(g.height, Quadrants(g.angles), c).value;
    BodyScoreBounds(PatternOf(g), EffortOf(g.weight, g.space, g.time, g.flow), hf, AdjustedScore(g), c);
  }

  /** The eleven weights of a Body: the nine shared with the Skeleton and the two leg weights. */
  class BodyParameters {
    const shared: SkeletonParameters
    const fullyExtendedLeg: ConstrainedValue
    const lowerLegExtended: ConstrainedValue

    ghost function Repr(): set<object>
      reads this, shared
    {
      shared.Repr() + {fullyExtendedLeg, lowerLegExtended}
    }

    ghost predicate Valid()
      reads this, shared, Repr()
    {
      && shared.Valid()
      && shared.Holds(fullyExtendedLeg, InitialBodyCoefficients.fullyExtendedLeg)
      && shared.Holds(lowerLegExtended, InitialBodyCoefficients.lowerLegExtended)
    }

    function Current(): BodyCoefficients
      reads this, shared, Repr()
    {
      BodyCoefficients(shared.Current(), fullyExtendedLeg.currentValue, lowerLegExtended.currentValue)
    }

    /** Current weights of a valid set always lie in [0, 10]. */
    lemma CurrentInRange()
      requires Valid()
      ensures BodyCoefficientsInRange(Current())
    {
      shared.CurrentInRange();
    }

    constructor ()
      ensures Valid() && fresh(Repr()) && fresh(shared)
      ensures Current() == InitialBodyCoefficients
    {
      shared := new SkeletonParameters();
      fullyExtendedLeg := new ConstrainedValue(MinimumCoefficient, MaximumCoefficient, InitialBodyCoefficients.fullyExtendedLeg);
      lowerLegExtended := new ConstrainedValue(MinimumCoefficient, MaximumCoefficient, InitialBodyCoefficients.lowerLegExtended);
    }

    /** All eleven weights return to their initial settings. */
    method ResetParameters()
      requires Valid()
      modifies Repr()
      ensures Valid()
      ensures Current() == InitialBodyCoefficients
    {
      shared.ResetParameters();
      fullyExtendedLeg.ResetValue();
      lowerLegExtended.ResetValue();
    }
  }

  class Body {
    var leftElbowToWristAngle: real
    var leftHipToKneeAngle: real
    var leftKneeToFootAngle: real
    var leftShoulderToElbowAngle: real
    var rightElbowToWristAngle: real
    var rightHipToKneeAngle: real
    var rightKneeToFootAngle: real
    var rightShoulderToElbowAngle: real
    var leftElbowToWristQuadrant: int
    var leftHipToKneeQuadrant: int
    var leftKneeToFootQuadrant: int
    var leftShoulderToElbowQuadrant: int
    var rightElbowToWristQuadrant: int
    var rightHipToKneeQuadrant: int
    var rightKneeToFootQuadrant: int
    var rightShoulderToElbowQuadrant: int
    var accumulatedScore: real
    var quadrantScore: int
    var flow: Flow
    var height: Height
    var space: Space
    var time: Time
    var weight: Weight
    var marked: bool
    /** Whether `accumulatedScore` holds a defined fitness. */
    ghost var scored: bool

    /** The named angles in the Skeleton layout. */
    function Angles(): (a: seq<real>)
      reads this`leftHipToKneeAngle, this`leftKneeToFootAngle, this`rightHipToKneeAngle, this`rightKneeToFootAngle
      reads this`leftShoulderToElbowAngle, this`leftElbowToWristAngle, this`rightShoulderToElbowAngle
      reads this`rightElbowToWristAngle
      ensures |a| == NumCalculatedAngles
    {
      [leftHipToKneeAngle, leftKneeToFootAngle, rightHipToKneeAngle, rightKneeToFootAngle,
       leftShoulderToElbowAngle, leftElbowToWristAngle, rightShoulderToElbowAngle, rightElbowToWristAngle]
    }

    /** The named quadrants in the Skeleton layout. */
    function QuadrantValues(): (q: seq<int>)
      reads this`leftHipToKneeQuadrant, this`leftKneeToFootQuadrant, this`rightHipToKneeQuadrant
      reads this`rightKneeToFootQuadrant, this`leftShoulderToElbowQuadrant, this`leftElbowToWristQuadrant
      reads this`rightShoulderToElbowQuadrant, this`rightElbowToWristQuadrant
      ensures |q| == NumCalculatedAngles
    {
      [leftHipToKneeQuadrant, leftKneeToFootQuadrant, rightHipToKneeQuadrant, rightKneeToFootQuadrant,
       leftShoulderToElbowQuadrant, leftElbowToWristQuadrant, rightShoulderToElbowQuadrant, rightElbowToWristQuadrant]
    }

    function Genes(): (g: Genome)
      reads this`leftHipToKneeAngle, this`leftKneeToFootAngle, this`rightHipToKneeAngle, this`rightKneeToFootAngle
      reads this`leftShoulderToElbowAngle, this`leftElbowToWristAngle, this`rightShoulderToElbowAngle
      reads this`rightElbowToWristAngle, this`weight, this`space, this`time, this`flow, this`height
      ensures |g.angles| == NumCalculatedAngles
    {
      Genome(weight, space, time, flow, height, Angles())
    }

    ghost function State(): SkeletonState
      reads this
    {
      SkeletonState(Genes(), QuadrantValues(), if scored then Some(accumulatedScore) else None, marked)
    }

    /** Neither the quadrants, nor the scores, nor the mark of `b` have changed. */
    twostate predicate NonGenomeUnchanged(b: Body)
      reads b
    {
      unchanged(b`leftHipToKneeQuadrant, b`leftKneeToFootQuadrant, b`rightHipToKneeQuadrant, b`rightKneeToFootQuadrant)
      && unchanged(b`leftShoulderToElbowQuadrant, b`leftElbowToWristQuadrant, b`rightShoulderToElbowQuadrant)
      && unchanged(b`rightElbowToWristQuadrant, b`quadrantScore, b`accumulatedScore, b`scored, b`marked)
    }

    /** Everything but the genome is as in `before`. */
    ghost predicate Unscathed(before: SkeletonState)
      reads this
    {
      State() == before.(genome := Genes())
    }

    /** A new body with randomly drawn attributes, in the same draw order as a Skeleton. */
    constructor (rng: seq<nat>)
      requires |rng| >= AttributeDraws
      ensures Genes() == NewGenome(rng)
      ensures State().score == None && !marked
    {
      leftShoulderToElbowAngle := RandomAngle(360.0, rng[0]);
      leftElbowToWristAngle := RandomAngle(180.0, rng[1]);
      rightShoulderToElbowAngle := RandomAngle(360.0, rng[2]);
      rightElbowToWristAngle := RandomAngle(180.0, rng[3]);
      leftHipToKneeAngle := RandomAngle(360.0, rng[4]);
      leftKneeToFootAngle := RandomAngle(180.0, rng[5]);
      rightHipToKneeAngle := RandomAngle(360.0, rng[6]);
      rightKneeToFootAngle := RandomAngle(180.0, rng[7]);
      flow := if 0.5 <= RandRealInRange(0.0, 1.0, rng[8]) then FlowBound else FlowFree;
      space := if 0.5 <= RandRealInRange(0.0, 1.0, rng[9]) then SpaceDirect else SpaceIndirect;
      time := if 0.5 <= RandRealInRange(0.0, 1.0, rng[10]) then TimeSudden else TimeSustained;
      weight := if 0.5 <= RandRealInRange(0.0, 1.0, rng[11]) then WeightStrong else WeightLight;
      var aNumb := RandRealInRange(0.0, 1.0, rng[12]);
      if 0.8 <= aNumb {
        height := HeightHigh;
      } else if 0.6 <= aNumb {
        height := HeightMidHigh;
      } else if 0.4 <= aNumb {
        height := HeightMiddle;
      } else if 0.2 <= aNumb {
        height := HeightMidLow;
      } else {
        height := HeightLow;
      }
      marked := false;
      scored := false;
      new;
      assert Angles() == NewGenome(rng).angles;
    }

    /** A copy of `other`'s angles, Effort qualities and height, unmarked and unscored; quadrants are not copied. */
    constructor Copy(other: Body)
      ensures Genes() == other.Genes()
      ensures State().score == None && !marked
    {
      leftElbowToWristAngle := other.leftElbowToWristAngle;
      leftHipToKneeAngle := other.leftHipToKneeAngle;
      leftKneeToFootAngle := other.leftKneeToFootAngle;
      leftShoulderToElbowAngle := other.leftShoulderToElbowAngle;
      rightElbowToWristAngle := other.rightElbowToWristAngle;
      rightHipToKneeAngle := other.rightHipToKneeAngle;
      rightKneeToFootAngle := other.rightKneeToFootAngle;
      rightShoulderToElbowAngle := other.rightShoulderToElbowAngle;
      flow, height, space, time, weight := other.flow, other.height, other.space, other.time, other.weight;
      marked := false;
      scored := false;
    }

    /** Bins each named angle with the same table as the Skeleton and sums the eight quadrants. */
    method DetermineQuadrants()
      modifies this`leftHipToKneeQuadrant, this`leftKneeToFootQuadrant, this`rightHipToKneeQuadrant, this`rightKneeToFootQuadrant
      modifies this`leftShoulderToElbowQuadrant, this`leftElbowToWristQuadrant, this`rightShoulderToElbowQuadrant, this`rightElbowToWristQuadrant, this`quadrantScore
      ensures QuadrantValues() == Quadrants(Angles()) && quadrantScore == Sum(QuadrantValues())
    {
      var lse := MapAngleToQuadrant(leftShoulderToElbowAngle, 90.0, 1, 180.0, 2, 270.0, 1, 4);
      var rse := MapAngleToQuadrant(rightShoulderToElbowAngle, 90.0, 2, 180.0, 1, 270.0, 4, 1);
      var lew := MapAngleToQuadrant(leftElbowToWristAngle, 45.0, 1, 90.0, 2, 135.0, 1, 4);
      var rew := MapAngleToQuadrant(rightElbowToWristAngle, 45.0, 2, 90.0, 1, 135.0, 4, 1);
      var lhk := MapAngleToQuadrant(leftHipToKneeAngle, 90.0, 4, 180.0, 1, 270.0, 2, 1);
      var rhk := MapAngleToQuadrant(rightHipToKneeAngle, 90.0, 1, 180.0, 4, 270.0, 1, 2);
      var lkf := MapAngleToQuadrant(leftKneeToFootAngle, 45.0, 4, 90.0, 1, 135.0, 2, 1);
      var rkf := MapAngleToQuadrant(rightKneeToFootAngle, 45.0, 1, 90.0, 4, 135.0, 1, 2);
      QuadrantsOfFields(leftHipToKneeAngle, leftKneeToFootAngle, rightHipToKneeAngle, rightKneeToFootAngle,
                        leftShoulderToElbowAngle, leftElbowToWristAngle, rightShoulderToElbowAngle, rightElbowToWristAngle);
      StoreQuadrants(lse, rse, lew, rew, lhk, rhk, lkf, rkf);
    }

    /** Stores the eight quadrants in the named fields and their sum in `quadrantScore`. */
    method StoreQuadrants(lse: int, rse: int, lew: int, rew: int, lhk: int, rhk: int, lkf: int, rkf: int)
      modifies this`leftHipToKneeQuadrant, this`leftKneeToFootQuadrant, this`rightHipToKneeQuadrant, this`rightKneeToFootQuadrant
      modifies this`leftShoulderToElbowQuadrant, this`leftElbowToWristQuadrant, this`rightShoulderToElbowQuadrant, this`rightElbowToWristQuadrant, this`quadrantScore
      ensures QuadrantValues() == [lhk, lkf, rhk, rkf, lse, lew, rse, rew]
      ensures quadrantScore == lse + rse + lew + rew + lhk + rhk + lkf + rkf
    {
      leftShoulderToElbowQuadrant, rightShoulderToElbowQuadrant, leftElbowToWristQuadrant, rightElbowToWristQuadrant,
        leftHipToKneeQuadrant, rightHipToKneeQuadrant, leftKneeToFootQuadrant, rightKneeToFootQuadrant,
        quadrantScore := lse, rse, lew, rew, lhk, rhk, lkf, rkf, lse + rse + lew + rew + lhk + rhk + lkf + rkf;
    }

    /**
     * Recomputes the quadrants and, for a crouched height, stores the Body
     * fitness. For the lowest and highest heights the stored score is
     * undefined and `defined` is false.
     */
    method UpdateFitness(c: BodyCoefficients) returns (defined: bool)
      modifies this`leftHipToKneeQuadrant, this`leftKneeToFootQuadrant, this`rightHipToKneeQuadrant, this`rightKneeToFootQuadrant
      modifies this`leftShoulderToElbowQuadrant, this`leftElbowToWristQuadrant, this`rightShoulderToElbowQuadrant, this`rightElbowToWristQuadrant
      modifies this`quadrantScore, this`accumulatedScore, this`scored
      ensures defined <==> Crouched(height)
      ensures QuadrantValues() == Quadrants(Angles()) && quadrantScore == AdjustedScore(Genes())
      ensures State().score == BodyFitness(Genes(), c)
    {
      DetermineQuadrants();
      ghost var g := Genes();
      var bartenieffFactor := ChooseBartenieffFactor(c);
      var effortFactor := EffortFactor(EffortOf(weight, space, time, flow), c.base);
      var adjusted := quadrantScore;
      if height == HeightLow || height == HeightMiddle || height == HeightHigh {
        adjusted := adjusted + 1;
      } else {
        adjusted := adjusted + 3;
      }
      defined := height == HeightMidLow || height == HeightMiddle || height == HeightMidHigh;
      if defined {
        var heightFactor := ChooseHeightFactor(c);
        BodyFitnessOfFactors(g, c, bartenieffFactor, effortFactor, heightFactor, adjusted);
        accumulatedScore := Scaled(bartenieffFactor + effortFactor + heightFactor, adjusted);
      }
      quadrantScore := adjusted;
      scored := defined;
    }

    /** The Bartenieff chain on the named fields picks the same factor as the Skeleton chain on the layout. */
    method ChooseBartenieffFactor(c: BodyCoefficients) returns (bartenieffFactor: real)
      ensures bartenieffFactor == BartenieffFactor(Classify(QuadrantValues(), quadrantScore, Angles()), c.base)
    {
      var critAngle := CriticalAngle();
      if 8 == quadrantScore
         && leftShoulderToElbowQuadrant == leftElbowToWristQuadrant
         && rightShoulderToElbowQuadrant == rightElbowToWristQuadrant
         && leftHipToKneeQuadrant == leftKneeToFootQuadrant
         && rightHipToKneeQuadrant == rightKneeToFootQuadrant {
        bartenieffFactor := c.base.bartenieffDistal;
      } else if 12 == quadrantScore
         && leftShoulderToElbowQuadrant == leftElbowToWristQuadrant
         && rightShoulderToElbowQuadrant == rightElbowToWristQuadrant
         && leftHipToKneeQuadrant == leftKneeToFootQuadrant
         && rightHipToKneeQuadrant == rightKneeToFootQuadrant {
        bartenieffFactor := c.base.bartenieffMedial;
      } else if (Abs(leftShoulderToElbowAngle - leftHipToKneeAngle) > critAngle
                 && Abs(leftElbowToWristAngle - leftKneeToFootAngle) > critAngle)
             || (Abs(rightShoulderToElbowAngle - rightHipToKneeAngle) > critAngle
                 && Abs(rightElbowToWristAngle - rightKneeToFootAngle) > critAngle) {
        bartenieffFactor := c.base.bartenieffHomolateral;
      } else if (Abs(leftShoulderToElbowAngle - rightHipToKneeAngle) > critAngle
                 && Abs(leftElbowToWristAngle - rightKneeToFootAngle) > critAngle)
             || (Abs(rightShoulderToElbowAngle - leftHipToKneeAngle) > critAngle
                 && Abs(rightElbowToWristAngle - leftKneeToFootAngle) > critAngle) {
        bartenieffFactor := c.base.bartenieffContralateral;
      } else if (leftShoulderToElbowQuadrant == rightShoulderToElbowQuadrant
                 && leftElbowToWristQuadrant == rightElbowToWristQuadrant)
             || (leftHipToKneeQuadrant == rightHipToKneeQuadrant
                 && leftKneeToFootQuadrant == rightKneeToFootQuadrant) {
        bartenieffFactor := c.base.bartenieffHomologous;
      } else {
        bartenieffFactor := 0.0;
      }
    }

    /** The leg-extension chain for a crouched height. */
    method ChooseHeightFactor(c: BodyCoefficients) returns (heightFactor: real)
      requires Crouched(height)
      ensures Some(heightFactor) == BodyHeightFactor(height, QuadrantValues(), c)
    {
      if 1 == leftHipToKneeQuadrant || 2 == leftHipToKneeQuadrant || 1 == rightHipToKneeQuadrant
         || (2 == rightHipToKneeQuadrant && 1 == leftKneeToFootQuadrant) || 2 == leftKneeToFootQuadrant
         || 1 == rightKneeToFootQuadrant || 2 == rightKneeToFootQuadrant {
        heightFactor := c.fullyExtendedLeg;
      } else if 1 == leftKneeToFootQuadrant || 2 == leftKneeToFootQuadrant
         || 1 == rightKneeToFootQuadrant || 2 == rightKneeToFootQuadrant {
        heightFactor := c.lowerLegExtended;
      } else {
        heightFactor := c.base.unextendedLegs;
      }
    }

    /** Redraws one named angle; consumes three draws (the half-circle value, the full-circle value, the angle). */
    method Mutate(rng: seq<nat>) returns (used: nat)
      requires |rng| >= 3
      modifies this
      ensures used == 3
      ensures Genes() == MutateBodyGenome(old(Genes()), rng[0], rng[1], rng[2])
      ensures NonGenomeUnchanged(this)
    {
      var distalValue := RandomAngle(180.0, rng[0]);
      var medialValue := RandomAngle(360.0, rng[1]);
      var whichAngle := RandUnsignedInRange(NumAngles - 1, rng[2]);
      DisplayUpdate(leftHipToKneeAngle, leftKneeToFootAngle, rightHipToKneeAngle, rightKneeToFootAngle,
                    leftShoulderToElbowAngle, leftElbowToWristAngle, rightShoulderToElbowAngle, rightElbowToWristAngle, medialValue);
      DisplayUpdate(leftHipToKneeAngle, leftKneeToFootAngle, rightHipToKneeAngle, rightKneeToFootAngle,
                    leftShoulderToElbowAngle, leftElbowToWristAngle, rightShoulderToElbowAngle, rightElbowToWristAngle, distalValue);
      if whichAngle == 0 {
        leftShoulderToElbowAngle := medialValue;
      } else if whichAngle == 1 {
        leftElbowToWristAngle := distalValue;
      } else if whichAngle == 2 {
        rightShoulderToElbowAngle := medialValue;
      } else if whichAngle == 3 {
        rightElbowToWristAngle := distalValue;
      } else if whichAngle == 4 {
        leftHipToKneeAngle := medialValue;
      } else if whichAngle == 5 {
        leftKneeToFootAngle := distalValue;
      } else if whichAngle == 6 {
        rightHipToKneeAngle := medialValue;
      } else if whichAngle == 7 {
        rightKneeToFootAngle := distalValue;
      } else {
        // No other index can be drawn from eight angles.
        assert false;
      }
      used := 3;
    }

    /**
     * Crossover with `other` over the thirteen Body slots: draws at least one
     * and at most `numSwap` distinct slots and exchanges them. `ok` is false
     * when the draws run out first; nothing is exchanged then.
     */
    method SwapValues(other: Body, numSwap: nat, rng: seq<nat>) returns (slots: seq<nat>, used: nat, ok: bool)
      requires this != other
      modifies this, other
      ensures used <= |rng|
      ensures slots == Dedup(SlotDraws(NumAttributes, rng[..used]))
      ensures Distinct(slots) && (forall i :: 0 <= i < |slots| ==> slots[i] < NumAttributes)
      ensures ok ==> |slots| == Max(1, Min(numSwap, NumAttributes))
      ensures ok ==> (Genes(), other.Genes()) == SwapSlots((old(Genes()), old(other.Genes())), SkeletonSlots(slots))
      ensures !ok ==> Genes() == old(Genes()) && other.Genes() == old(other.Genes())
      ensures Unscathed(old(State())) && other.Unscathed(old(other.State()))
      ensures NonGenomeUnchanged(this) && NonGenomeUnchanged(other)
    {
      var realSwap := if NumAttributes < numSwap then NumAttributes else numSwap;
      slots, used, ok := CollectSlotIndices(NumAttributes, realSwap, rng);
      if !ok {
        return;
      }
      ghost var start := (Genes(), other.Genes());
      var ii := 0;
      while ii < |slots|
        invariant ii <= |slots|
        invariant (Genes(), other.Genes()) == SwapSlots(start, SkeletonSlots(slots[..ii]))
        invariant NonGenomeUnchanged(this) && NonGenomeUnchanged(other)
      {
        ExchangeSlot(other, slots[ii]);
        SkeletonSlotsSnoc(slots, ii);
        SwapSlotsSnoc(start, SkeletonSlots(slots[..ii]), SkeletonSlot(slots[ii]));
        ii := ii + 1;
      }
      assert slots[..ii] == slots;
    }

    /** Exchanges one Body slot with `other`. */
    method ExchangeSlot(other: Body, anIndex: nat)
      requires this != other && anIndex < NumAttributes
      modifies this, other
      ensures (Genes(), other.Genes()) == SwapSlot((old(Genes()), old(other.Genes())), SkeletonSlot(anIndex))
      ensures NonGenomeUnchanged(this) && NonGenomeUnchanged(other)
    {
      if anIndex < NumAngles {
        ExchangeAngle(other, anIndex);
      } else if anIndex == 8 {
        weight, other.weight := other.weight, weight;
      } else if anIndex == 9 {
        space, other.space := other.space, space;
      } else if anIndex == 10 {
        time, other.time := other.time, time;
      } else if anIndex == 11 {
        flow, other.flow := other.flow, flow;
      } else {
        height, other.height := other.height, height;
      }
    }

    /** Exchanges Body angle `i` with `other`. */
    method ExchangeAngle(other: Body, i: nat)
      requires this != other && i < NumAngles
      modifies this, other
      ensures var k := LayoutIndex(i);
              && Genes() == old(Genes()).(angles := old(Angles())[k := old(other.Angles())[k]])
              && other.Genes() == old(other.Genes()).(angles := old(other.Angles())[k := old(Angles())[k]])
      ensures NonGenomeUnchanged(this) && NonGenomeUnchanged(other)
    {
      var k := LayoutIndex(i);
      DisplaySet(k, leftHipToKneeAngle, leftKneeToFootAngle, rightHipToKneeAngle, rightKneeToFootAngle,
                 leftShoulderToElbowAngle, leftElbowToWristAngle, rightShoulderToElbowAngle, rightElbowToWristAngle, other.Angles()[k]);
      DisplaySet(k, other.leftHipToKneeAngle, other.leftKneeToFootAngle, other.rightHipToKneeAngle, other.rightKneeToFootAngle,
                 other.leftShoulderToElbowAngle, other.leftElbowToWristAngle, other.rightShoulderToElbowAngle, other.rightElbowToWristAngle, Angles()[k]);
      if k == 0 {
        leftHipToKneeAngle, other.leftHipToKneeAngle := other.leftHipToKneeAngle, leftHipToKneeAngle;
      } else if k == 1 {
        leftKneeToFootAngle, other.leftKneeToFootAngle := other.leftKneeToFootAngle, leftKneeToFootAngle;
      } else if k == 2 {
        rightHipToKneeAngle, other.rightHipToKneeAngle := other.rightHipToKneeAngle, rightHipToKneeAngle;
      } else if k == 3 {
        rightKneeToFootAngle, other.rightKneeToFootAngle := other.rightKneeToFootAngle, rightKneeToFootAngle;
      } else if k == 4 {
        leftShoulderToElbowAngle, other.leftShoulderToElbowAngle := other.leftShoulderToElbowAngle, leftShoulderToElbowAngle;
      } else if k == 5 {
        leftElbowToWristAngle, other.leftElbowToWristAngle := other.leftElbowToWristAngle, leftElbowToWristAngle;
      } else if k == 6 {
        rightShoulderToElbowAngle, other.rightShoulderToElbowAngle := other.rightShoulderToElbowAngle, rightShoulderToElbowAngle;
      } else if k == 7 {
        rightElbowToWristAngle, other.rightElbowToWristAngle := other.rightElbowToWristAngle, rightElbowToWristAngle;
      }
    }

    /**
     * Returns the left elbow-to-wrist angle: the getter reads the wrong field,
     * so it misses the knee angle the fitness function uses whenever the two differ.
     */
    method GetLeftKneeToFootAngle() returns (angle: real)
      ensures angle == Genes().angles[LeftElbowToWrist]
      ensures Genes().angles[LeftKneeToFoot] != Genes().angles[LeftElbowToWrist] ==> angle != Genes().angles[LeftKneeToFoot]
    {
      angle := leftElbowToWristAngle;
    }

    /**
     * Returns the right elbow-to-wrist angle: the getter reads the wrong field,
     * so it misses the knee angle the fitness function uses whenever the two differ.
     */
    method GetRightKneeToFootAngle() returns (angle: real)
      ensures angle == Genes().angles[RightElbowToWrist]
      ensures Genes().angles[RightKneeToFoot] != Genes().angles[RightElbowToWrist] ==> angle != Genes().angles[RightKneeToFoot]
    {
      angle := rightElbowToWristAngle;
    }

    method GetLeftElbowToWristAngle() returns (angle: real)
      ensures angle == Genes().angles[LeftElbowToWrist]
    {
      angle := leftElbowToWristAngle;
    }

    method GetRightElbowToWristAngle() returns (angle: real)
      ensures angle == Genes().angles[RightElbowToWrist]
    {
      angle := rightElbowToWristAngle;
    }

    method GetLeftHipToKneeAngle() returns (angle: real)
      ensures angle == Genes().angles[LeftHipToKnee]
    {
      angle := leftHipToKneeAngle;
    }

    method GetRightHipToKneeAngle() returns (angle: real)
      ensures angle == Genes().angles[RightHipToKnee]
    {
      angle := rightHipToKneeAngle;
    }

    method GetLeftShoulderToElbowAngle() returns (angle: real)
      ensures angle == Genes().angles[LeftShoulderToElbow]
    {
      angle := leftShoulderToElbowAngle;
    }

    method GetRightShoulderToElbowAngle() returns (angle: real)
      ensures angle == Genes().angles[RightShoulderToElbow]
    {
      angle := rightShoulderToElbowAngle;
    }

    /** Each quadrant getter reads the quadrant of its own limb. */
    method GetQuadrants() returns (lse: int, lew: int, rse: int, rew: int, lhk: int, lkf: int, rhk: int, rkf: int)
      ensures QuadrantValues() == [lhk, lkf, rhk, rkf, lse, lew, rse, rew]
    {
      lse, lew, rse, rew := leftShoulderToElbowQuadrant, leftElbowToWristQuadrant, rightShoulderToElbowQuadrant, rightElbowToWristQuadrant;
      lhk, lkf, rhk, rkf := leftHipToKneeQuadrant, leftKneeToFootQuadrant, rightHipToKneeQuadrant, rightKneeToFootQuadrant;
    }

    /** The four Effort qualities and the height, as stored. */
    method GetQualities() returns (f: Flow, h: Height, s: Space, t: Time, w: Weight)
      ensures Genes() == Genome(w, s, t, f, h, Angles())
    {
      f, h, s, t, w := flow, height, space, time, weight;
    }

    /** The stored score, which is the Body fitness once `UpdateFitness` has defined it. */
    method GetFitnessScore() returns (score: real)
      ensures scored ==> State().score == Some(score)
    {
      score := accumulatedScore;
    }

    method IsMarked() returns (m: bool)
      ensures m == State().marked
    {
      m := marked;
    }

    method SetMark()
      modifies this`marked
      ensures State() == old(State()).(marked := true)
    {
      marked := true;
    }

    method ClearMark()
      modifies this`marked
      ensures State() == old(State()).(marked := false)
    {
      marked := false;
    }
  }

  /** The Body's per-field binning is the Skeleton table applied to the fields in layout order. */
  lemma QuadrantsOfFields(lhk: real, lkf: real, rhk: real, rkf: real, lse: real, lew: real, rse: real, rew: real)
    ensures var q := [MapAngleToQuadrant(lhk, 90.0, 4, 180.0, 1, 270.0, 2, 1),
                      MapAngleToQuadrant(lkf, 45.0, 4, 90.0, 1, 135.0, 2, 1),
                      MapAngleToQuadrant(rhk, 90.0, 1, 180.0, 4, 270.0, 1, 2),
                      MapAngleToQuadrant(rkf, 45.0, 1, 90.0, 4, 135.0, 1, 2),
                      MapAngleToQuadrant(lse, 90.0, 1, 180.0, 2, 270.0, 1, 4),
                      MapAngleToQuadrant(lew, 45.0, 1, 90.0, 2, 135.0, 1, 4),
                      MapAngleToQuadrant(rse, 90.0, 2, 180.0, 1, 270.0, 4, 1),
                      MapAngleToQuadrant(rew, 45.0, 2, 90.0, 1, 135.0, 4, 1)];
            && Quadrants([lhk, lkf, rhk, rkf, lse, lew, rse, rew]) == q
            && Sum(q) == q[0] + q[1] + q[2] + q[3] + q[4] + q[5] + q[6] + q[7]
  {
    var a := [lhk, lkf, rhk, rkf, lse, lew, rse, rew];
    QuadrantsWrittenOut(a);
    SumOfEight(Quadrants(a));
  }

  /** One more element adds its value to a prefix sum. */
  lemma SumStep(q: seq<int>, k: nat)
    requires k < |q|
    ensures Sum(q[..k + 1]) == Sum(q[..k]) + q[k]
  {
    assert q[..k + 1][..k] == q[..k];
  }

  /** The sum of eight quadrants written out. */
  lemma SumOfEight(q: seq<int>)
    requires |q| == 8
    ensures Sum(q) == q[0] + q[1] + q[2] + q[3] + q[4] + q[5] + q[6] + q[7]
  {
    assert q[..0] == [];
    SumStep(q, 0); SumStep(q, 1); SumStep(q, 2); SumStep(q, 3);
    SumStep(q, 4); SumStep(q, 5); SumStep(q, 6); SumStep(q, 7);
    assert q[..8] == q;
  }

  /** Writing position `k` of an eight-element display. */
  lemma DisplaySet<T>(k: nat, a0: T, a1: T, a2: T, a3: T, a4: T, a5: T, a6: T, a7: T, v: T)
    requires k < 8
    ensures [a0, a1, a2, a3, a4, a5, a6, a7][k := v]
         == [if k == 0 then v else a0, if k == 1 then v else a1, if k == 2 then v else a2, if k == 3 then v else a3,
             if k == 4 then v else a4, if k == 5 then v else a5, if k == 6 then v else a6, if k == 7 then v else a7]
  {
  }

  /** Replacing one element of an eight-element display. */
  lemma DisplayUpdate<T>(a0: T, a1: T, a2: T, a3: T, a4: T, a5: T, a6: T, a7: T, v: T)
    ensures [a0, a1, a2, a3, a4, a5, a6, a7][0 := v] == [v, a1, a2, a3, a4, a5, a6, a7]
    ensures [a0, a1, a2, a3, a4, a5, a6, a7][1 := v] == [a0, v, a2, a3, a4, a5, a6, a7]
    ensures [a0, a1, a2, a3, a4, a5, a6, a7][2 := v] == [a0, a1, v, a3, a4, a5, a6, a7]
    ensures [a0, a1, a2, a3, a4, a5, a6, a7][3 := v] == [a0, a1, a2, v, a4, a5, a6, a7]
    ensures [a0, a1, a2, a3, a4, a5, a6, a7][4 := v] == [a0, a1, a2, a3, v, a5, a6, a7]
    ensures [a0, a1, a2, a3, a4, a5, a6, a7][5 := v] == [a0, a1, a2, a3, a4, v, a6, a7]
    ensures [a0, a1, a2, a3, a4, a5, a6, a7][6 := v] == [a0, a1, a2, a3, a4, a5, v, a7]
    ensures [a0, a1, a2, a3, a4, a5, a6, a7][7 := v] == [a0, a1, a2, a3, a4, a5, a6, v]
  {
  }
}
