/**
 * The Skeleton individual of Source/ScuddleSkeleton.cpp: eight limb angles,
 * four Effort qualities and a height, the quadrant cache, the fitness score
 * and the selection mark. `SkeletonState` is the value a Skeleton object
 * holds; the population engine works on these values.
 */
module Skeleton {
  import opened DataTypes
  import opened Common
  import opened SkeletonLayout
  import opened SkeletonFitness
  import opened SlotSwap

  /** Number of raw draws `setAttributes` consumes: eight angles, four qualities and a height. */
  const AttributeDraws: nat := 13

  /**
   * What a Skeleton object holds. `score` is None until `updateFitness` has
   * run on the object: constructors leave the score field uninitialised.
   */
  datatype SkeletonState = SkeletonState(genome: Genome, quadrants: seq<int>, score: Option<real>, marked: bool)

  /** A quality is drawn as its "1" value when a uniform draw in [0, 1] is at least one half. */
  predicate DrawnHigh(raw: nat)
  {
    0.5 <= RandRealInRange(0.0, 1.0, raw)
  }

  /** Height from a uniform draw in [0, 1], in five bands of width 0.2 from low to high. */
  function HeightFromDraw(x: real): (h: Height)
    ensures 0.0 <= x <= 1.0 ==> 0.2 * HeightRank(h) as real <= x
    ensures 0.0 <= x <= 1.0 && h != HeightHigh ==> x < 0.2 * (HeightRank(h) + 1) as real
  {
    if 0.8 <= x then HeightHigh
    else if 0.6 <= x then HeightMidHigh
    else if 0.4 <= x then HeightMiddle
    else if 0.2 <= x then HeightMidLow
    else HeightLow
  }

  /**
   * Position in the draw sequence of the raw value that sets angle `k`:
   * `setAttributes` draws the arm angles (indices 4 to 7) before the leg
   * angles (indices 0 to 3).
   */
  function AngleDraw(k: nat): (d: nat)
    requires k < NumCalculatedAngles
    ensures d < NumCalculatedAngles
    ensures d == if k < 4 then k + 4 else k - 4
  {
    (k + 4) % NumCalculatedAngles
  }

  /** The genome `setAttributes` builds from thirteen raw draws. */
  function NewGenome(rng: seq<nat>): (g: Genome)
    requires |rng| >= AttributeDraws
    ensures |g.angles| == NumCalculatedAngles
  {
    Genome(if DrawnHigh(rng[11]) then WeightStrong else WeightLight,
           if DrawnHigh(rng[9]) then SpaceDirect else SpaceIndirect,
           if DrawnHigh(rng[10]) then TimeSudden else TimeSustained,
           if DrawnHigh(rng[8]) then FlowBound else FlowFree,
           HeightFromDraw(RandRealInRange(0.0, 1.0, rng[12])),
           seq(NumCalculatedAngles, k requires 0 <= k < NumCalculatedAngles => RandomAngle(AngleLimit(k), rng[AngleDraw(k)])))
  }

  /** Every angle of a new genome lies between 0 and its limb's limit. */
  lemma NewGenomeInDomain(rng: seq<nat>, k: nat)
    requires |rng| >= AttributeDraws && k < NumCalculatedAngles
    ensures 0.0 <= NewGenome(rng).angles[k] <= DegreesToRadians(AngleLimit(k))
    ensures 0.0 <= RadiansToDegrees(NewGenome(rng).angles[k]) <= AngleLimit(k)
  {
  }

  /** A new skeleton: fresh genome, every quadrant unset (-1), no score, unmarked. */
  function NewState(rng: seq<nat>): SkeletonState
    requires |rng| >= AttributeDraws
  {
    SkeletonState(NewGenome(rng), seq(NumCalculatedAngles, _ => -1), None, false)
  }

  /** A copy keeps genome and quadrants but neither the score nor the mark. */
  function CopyState(s: SkeletonState): SkeletonState
  {
    SkeletonState(s.genome, s.quadrants, None, false)
  }

  /** The state after `updateFitness`: quadrants recomputed and the fitness score stored. */
  function UpdateState(s: SkeletonState, c: Coefficients): SkeletonState
    requires |s.genome.angles| == NumCalculatedAngles
  {
    SkeletonState(s.genome, Quadrants(s.genome.angles), Some(Fitness(s.genome, c)), s.marked)
  }

  /** Recomputing the fitness of an unchanged skeleton stores the same values again. */
  lemma UpdateStateIdempotent(s: SkeletonState, c: Coefficients)
    requires |s.genome.angles| == NumCalculatedAngles
    ensures UpdateState(UpdateState(s, c), c) == UpdateState(s, c)
    ensures UpdateState(s, c).genome == s.genome && UpdateState(s, c).marked == s.marked
    ensures CoefficientsInRange(c) ==> UpdateState(s, c).score.value >= 0.0
  {
    if CoefficientsInRange(c) {
      FitnessBounds(s.genome, c);
    }
  }

  /** The genome after `mutate`: the limb picked by the first draw gets a new angle from the second. */
  function MutateGenome(g: Genome, whichRaw: nat, angleRaw: nat): Genome
    requires |g.angles| == NumCalculatedAngles
  {
    var which := RandUnsignedInRange(NumCalculatedAngles - 1, whichRaw);
    g.(angles := g.angles[which := RandomAngle(AngleLimit(which), angleRaw)])
  }

  /**
   * A mutation changes exactly one limb angle, to a value within that limb's
   * range, and leaves every quality and every other angle alone.
   */
  lemma MutateChangesOneAngle(g: Genome, whichRaw: nat, angleRaw: nat)
    requires |g.angles| == NumCalculatedAngles
    ensures var m := MutateGenome(g, whichRaw, angleRaw);
            var which := RandUnsignedInRange(NumCalculatedAngles - 1, whichRaw);
            && which < NumCalculatedAngles
            && |m.angles| == NumCalculatedAngles
            && m.weight == g.weight && m.space == g.space && m.time == g.time && m.flow == g.flow && m.height == g.height
            && (forall k :: 0 <= k < NumCalculatedAngles && k != which ==> m.angles[k] == g.angles[k])
            && 0.0 <= m.angles[which] <= DegreesToRadians(AngleLimit(which))
  {
  }

  /** Crossover of two states exchanges the listed genome slots and touches nothing else. */
  function SwapStates(a: SkeletonState, b: SkeletonState, slots: seq<nat>): (SkeletonState, SkeletonState)
  {
    var r := SwapSlots((a.genome, b.genome), slots);
    (a.(genome := r.0), b.(genome := r.1))
  }

  /** The weights as a set of range-clamped values that can be reset to their initial settings. */
  class SkeletonParameters {
    const bartenieffContralateral: ConstrainedValue
    const bartenieffDistal: ConstrainedValue
    const bartenieffHomolateral: ConstrainedValue
    const bartenieffHomologous: ConstrainedValue
    const bartenieffMedial: ConstrainedValue
    const effortHigh: ConstrainedValue
    const effortLow: ConstrainedValue
    const effortMedium: ConstrainedValue
    const unextendedLegs: ConstrainedValue

    ghost function Repr(): set<object>
      reads this
    {
      {bartenieffContralateral, bartenieffDistal, bartenieffHomolateral, bartenieffHomologous,
       bartenieffMedial, effortHigh, effortLow, effortMedium, unextendedLegs}
    }

    /** Each weight is kept in [0, 10] with the given initial value. */
    static ghost predicate Holds(v: ConstrainedValue, initial: real)
      reads v
    {
      v.Valid() && v.minValue == MinimumCoefficient && v.maxValue == MaximumCoefficient && v.defaultValue == initial
    }

    ghost predicate Valid()
      reads this, Repr()
    {
      && Holds(bartenieffContralateral, InitialCoefficients.bartenieffContralateral)
      && Holds(bartenieffDistal, InitialCoefficients.bartenieffDistal)
      && Holds(bartenieffHomolateral, InitialCoefficients.bartenieffHomolateral)
      && Holds(bartenieffHomologous, InitialCoefficients.bartenieffHomologous)
      && Holds(bartenieffMedial, InitialCoefficients.bartenieffMedial)
      && Holds(effortHigh, InitialCoefficients.effortHigh)
      && Holds(effortLow, InitialCoefficients.effortLow)
      && Holds(effortMedium, InitialCoefficients.effortMedium)
      && Holds(unextendedLegs, InitialCoefficients.unextendedLegs)
    }

    /** The current weights. */
    function Current(): (c: Coefficients)
      reads this, Repr()
    {
      Coefficients(bartenieffContralateral.currentValue, bartenieffDistal.currentValue,
                   bartenieffHomolateral.currentValue, bartenieffHomologous.currentValue,
                   bartenieffMedial.currentValue, effortHigh.currentValue, effortLow.currentValue,
                   effortMedium.currentValue, unextendedLegs.currentValue)
    }

    /** Current weights of a valid set always lie in [0, 10]. */
    lemma CurrentInRange()
      requires Valid()
      ensures CoefficientsInRange(Current())
    {
    }

    constructor ()
      ensures Valid() && fresh(Repr())
      ensures Current() == InitialCoefficients
    {
      var contralateral := NewWeight(InitialCoefficients.bartenieffContralateral);
      var distal := NewWeight(InitialCoefficients.bartenieffDistal);
      var homolateral := NewWeight(InitialCoefficients.bartenieffHomolateral);
      var homologous := NewWeight(InitialCoefficients.bartenieffHomologous);
      var medial := NewWeight(InitialCoefficients.bartenieffMedial);
      var high := NewWeight(InitialCoefficients.effortHigh);
      var low := NewWeight(InitialCoefficients.effortLow);
      var medium := NewWeight(InitialCoefficients.effortMedium);
      var legs := NewWeight(InitialCoefficients.unextendedLegs);
      bartenieffContralateral := contralateral;
      bartenieffDistal := distal;
      bartenieffHomolateral := homolateral;
      bartenieffHomologous := homologous;
      bartenieffMedial := medial;
      effortHigh := high;
      effortLow := low;
      effortMedium := medium;
      unextendedLegs := legs;
    }

    /** A weight kept in [0, 10] that starts at `initial`. */
    static method NewWeight(initial: real) returns (v: ConstrainedValue)
      requires MinimumCoefficient <= initial <= MaximumCoefficient
      ensures fresh(v) && Holds(v, initial) && v.currentValue == initial
    {
      v := new ConstrainedValue(MinimumCoefficient, MaximumCoefficient, initial);
    }

    /** Every weight returns to its initial setting. */
    method ResetParameters()
      requires Valid()
      modifies Repr()
      ensures Valid()
      ensures Current() == InitialCoefficients
    {
      bartenieffContralateral.ResetValue();
      bartenieffDistal.ResetValue();
      bartenieffHomolateral.ResetValue();
      bartenieffHomologous.ResetValue();
      bartenieffMedial.ResetValue();
      effortHigh.ResetValue();
      effortLow.ResetValue();
      effortMedium.ResetValue();
      unextendedLegs.ResetValue();
    }
  }

  class Skeleton {
    var angles: seq<real>
    var quadrants: seq<int>
    var accumulatedScore: real
    var quadrantScore: int
    var flow: Flow
    var height: Height
    var space: Space
    var time: Time
    var weight: Weight
    var marked: bool
    /** Whether `accumulatedScore` has been computed since construction. */
    ghost var scored: bool

    ghost predicate Valid()
      reads this
    {
      |angles| == NumCalculatedAngles && |quadrants| == NumCalculatedAngles
    }

    function Genes(): Genome
      reads this
    {
      Genome(weight, space, time, flow, height, angles)
    }

    ghost function State(): SkeletonState
      reads this
    {
      SkeletonState(Genes(), quadrants, if scored then Some(accumulatedScore) else None, marked)
    }

    /** A new skeleton with randomly drawn attributes (`setAttributes` with eight angles). */
    constructor (rng: seq<nat>)
      requires |rng| >= AttributeDraws
      ensures Valid() && State() == NewState(rng)
    {
      var unset: seq<int> := [];
      var ii := 0;
      while ii < NumCalculatedAngles
        invariant ii <= NumCalculatedAngles && unset == seq(ii, _ => -1)
      {
        unset := unset + [-1];
        ii := ii + 1;
      }
      quadrants := unset;
      var a: seq<real> := seq(NumCalculatedAngles, _ => 0.0);
      a := a[LeftShoulderToElbow := RandomAngle(360.0, rng[0])];
      a := a[LeftElbowToWrist := RandomAngle(180.0, rng[1])];
      a := a[RightShoulderToElbow := RandomAngle(360.0, rng[2])];
      a := a[RightElbowToWrist := RandomAngle(180.0, rng[3])];
      a := a[LeftHipToKnee := RandomAngle(360.0, rng[4])];
      a := a[LeftKneeToFoot := RandomAngle(180.0, rng[5])];
      a := a[RightHipToKnee := RandomAngle(360.0, rng[6])];
      a := a[RightKneeToFoot := RandomAngle(180.0, rng[7])];
      angles := a;
      flow := if 0.5 <= RandRealInRange(0.0, 1.0, rng[8]) then FlowBound else FlowFree;
      space := if 0.5 <= RandRealInRange(0.0, 1.0, rng[9]) then SpaceDirect else SpaceIndirect;
      time := if 0.5 <= RandRealInRange(0.0, 1.0, rng[10]) then TimeSudden else TimeSustained;
      weight := if 0.5 <= RandRealInRange(0.0, 1.0, rng[11]) then WeightStrong else WeightLight;
      var aNumb := RandRealInRange(0.0, 1.0, rng[12]);
      if 0.8 <= aNumb {
        height := HeightHigh;
      } else if 0.6 <= aNumb {
        height := HeightMidHigh;
      } else if 0.4 <= aNumb {
        height := HeightMiddle;
      } else if 0.2 <= aNumb {
        height := HeightMidLow;
      } else {
        height := HeightLow;
      }
      marked := false;
      scored := false;
      new;
      assert angles == NewGenome(rng).angles;
    }

    /** A copy of `other`: same genome and quadrants, unmarked, score not yet computed. */
    constructor Copy(other: Skeleton)
      requires other.Valid()
      ensures Valid() && State() == CopyState(other.State())
    {
      var a: seq<real> := [];
      var q: seq<int> := [];
      var ii := 0;
      while ii < |other.angles|
        invariant ii <= |other.angles|
        invariant a == other.angles[..ii] && q == other.quadrants[..ii]
      {
        a := a + [other.angles[ii]];
        q := q + [other.quadrants[ii]];
        ii := ii + 1;
      }
      angles, quadrants := a, q;
      flow, height, space, time, weight := other.flow, other.height, other.space, other.time, other.weight;
      marked := false;
      scored := false;
      new;
      assert angles == other.angles && quadrants == other.quadrants;
    }

    /** Bins every angle into its quadrant and sums the quadrants into the quadrant score. */
    method DetermineQuadrants()
      requires Valid()
      modifies this
      ensures Valid()
      ensures quadrants == Quadrants(angles) && quadrantScore == Sum(quadrants)
      ensures Genes() == old(Genes()) && marked == old(marked)
      ensures accumulatedScore == old(accumulatedScore) && scored == old(scored)
    {
      // The source computes the left shoulder's quadrant twice; once suffices.
      var q := quadrants;
      q := q[LeftShoulderToElbow := MapAngleToQuadrant(angles[LeftShoulderToElbow], 90.0, 1, 180.0, 2, 270.0, 1, 4)];
      q := q[RightShoulderToElbow := MapAngleToQuadrant(angles[RightShoulderToElbow], 90.0, 2, 180.0, 1, 270.0, 4, 1)];
      q := q[LeftElbowToWrist := MapAngleToQuadrant(angles[LeftElbowToWrist], 45.0, 1, 90.0, 2, 135.0, 1, 4)];
      q := q[RightElbowToWrist := MapAngleToQuadrant(angles[RightElbowToWrist], 45.0, 2, 90.0, 1, 135.0, 4, 1)];
      q := q[LeftHipToKnee := MapAngleToQuadrant(angles[LeftHipToKnee], 90.0, 4, 180.0, 1, 270.0, 2, 1)];
      q := q[RightHipToKnee := MapAngleToQuadrant(angles[RightHipToKnee], 90.0, 1, 180.0, 4, 270.0, 1, 2)];
      q := q[LeftKneeToFoot := MapAngleToQuadrant(angles[LeftKneeToFoot], 45.0, 4, 90.0, 1, 135.0, 2, 1)];
      q := q[RightKneeToFoot := MapAngleToQuadrant(angles[RightKneeToFoot], 45.0, 1, 90.0, 4, 135.0, 1, 2)];
      QuadrantsWrittenOut(angles);
      assert q == [q[0], q[1], q[2], q[3], q[4], q[5], q[6], q[7]];
      quadrants := q;
      quadrantScore := SumQuadrants(q);
    }

    /** Adds up the quadrants one by one. */
    static method SumQuadrants(q: seq<int>) returns (score: int)
      ensures score == Sum(q)
    {
      score := 0;
      var ii := 0;
      while ii < |q|
        invariant ii <= |q|
        invariant score == Sum(q[..ii])
      {
        assert q[..ii + 1][..ii] == q[..ii];
        score := score + q[ii];
        ii := ii + 1;
      }
      assert q[..ii] == q;
    }

    /** Recomputes the quadrants and stores the fitness of the current genome. */
    method UpdateFitness(c: Coefficients)
      requires Valid()
      modifies this
      ensures Valid()
      ensures State() == UpdateState(old(State()), c)
      ensures quadrantScore == AdjustedScore(Genes())
    {
      ghost var before := State();
      DetermineQuadrants();
      ghost var g := Genes();
      assert UpdateState(before, c) == SkeletonState(g, Quadrants(g.angles), Some(Fitness(g, c)), marked);
      assert Classify(quadrants, quadrantScore, angles) == PatternOf(g);
      var bartenieffFactor := BartenieffFactor(Classify(quadrants, quadrantScore, angles), c);
      var effortFactor := EffortFactor(EffortOf(weight, space, time, flow), c);
      var adjusted := quadrantScore;
      if height == HeightLow || height == HeightMiddle || height == HeightHigh {
        adjusted := adjusted + 1;
      } else {
        adjusted := adjusted + 3;
      }
      assert adjusted == quadrantScore + HeightAdjustment(g.height) == AdjustedScore(g);
      var heightFactor: real;
      if height == HeightMidLow || height == HeightMiddle || height == HeightMidHigh {
        heightFactor := c.unextendedLegs;
      } else {
        heightFactor := 0.0;
      }
      assert heightFactor == HeightFactor(g.height, c);
      assert effortFactor == EffortFactor(EffortOf(g.weight, g.space, g.time, g.flow), c);
      var factorSum := bartenieffFactor + effortFactor + heightFactor;
      assert factorSum == BartenieffFactor(PatternOf(g), c) + EffortFactor(EffortOf(g.weight, g.space, g.time, g.flow), c) + HeightFactor(g.height, c);
      var total := Scaled(factorSum, adjusted);
      assert total == Fitness(g, c);
      quadrantScore, accumulatedScore, scored := adjusted, total, true;
    }

    /** Redraws one limb angle; consumes two raw draws (the limb, then the angle). */
    method Mutate(rng: seq<nat>) returns (used: nat)
      requires Valid() && |rng| >= 2
      modifies this`angles
      ensures Valid() && used == 2
      ensures State() == old(State()).(genome := MutateGenome(old(Genes()), rng[0], rng[1]))
    {
      var whichAngle := RandUnsignedInRange(|angles| - 1, rng[0]);
      if whichAngle == LeftShoulderToElbow || whichAngle == RightShoulderToElbow
         || whichAngle == LeftHipToKnee || whichAngle == RightHipToKnee {
        angles := angles[whichAngle := RandomAngle(360.0, rng[1])];
      } else if whichAngle == LeftElbowToWrist || whichAngle == RightElbowToWrist
         || whichAngle == LeftKneeToFoot || whichAngle == RightKneeToFoot {
        angles := angles[whichAngle := RandomAngle(180.0, rng[1])];
      } else {
        // No other index can be drawn from eight angles.
        assert false;
      }
      used := 2;
    }

    /**
     * Crossover with `other`: draws at least one and at most `numSwap`
     * distinct slots (never more than there are slots) and exchanges them.
     * `ok` is false when the draws run out before enough distinct slots are
     * found; nothing is exchanged then.
     */
    method SwapValues(other: Skeleton, numSwap: nat, rng: seq<nat>) returns (slots: seq<nat>, used: nat, ok: bool)
      requires Valid() && other.Valid() && this != other
      modifies this`angles, this`flow, this`height, this`space, this`time, this`weight
      modifies other`angles, other`flow, other`height, other`space, other`time, other`weight
      ensures Valid() && other.Valid()
      ensures used <= |rng|
      ensures var numAttributes := NumFixedAttributes + NumCalculatedAngles;
              && slots == Dedup(SlotDraws(numAttributes, rng[..used]))
              && Distinct(slots) && (forall i :: 0 <= i < |slots| ==> slots[i] < numAttributes)
              && (ok ==> |slots| == Max(1, Min(numSwap, numAttributes)))
      ensures ok ==> (Genes(), other.Genes()) == SwapSlots((old(Genes()), old(other.Genes())), slots)
      ensures !ok ==> Genes() == old(Genes()) && other.Genes() == old(other.Genes())
      ensures State() == old(State()).(genome := Genes())
      ensures other.State() == old(other.State()).(genome := other.Genes())
    {
      var imax := Min(|angles|, |other.angles|);
      var numAttributes := NumFixedAttributes + imax;
      var realSwap := if numAttributes < numSwap then numAttributes else numSwap;
      slots, used, ok := CollectSlotIndices(numAttributes, realSwap, rng);
      if !ok {
        return;
      }
      ghost var start := (Genes(), other.Genes());
      var ii := 0;
      while ii < |slots|
        invariant ii <= |slots|
        invariant Valid() && other.Valid()
        invariant (Genes(), other.Genes()) == SwapSlots(start, slots[..ii])
        invariant State() == old(State()).(genome := Genes())
        invariant other.State() == old(other.State()).(genome := other.Genes())
      {
        ExchangeSlot(other, slots[ii]);
        assert slots[..ii + 1] == slots[..ii] + [slots[ii]];
        SwapSlotsSnoc(start, slots[..ii], slots[ii]);
        ii := ii + 1;
      }
      assert slots[..ii] == slots;
    }

    /** Exchanges one crossover slot with `other`; an angle slot past the shorter angle vector changes nothing. */
    method ExchangeSlot(other: Skeleton, anIndex: nat)
      requires Valid() && other.Valid() && this != other
      modifies this`angles, this`flow, this`height, this`space, this`time, this`weight
      modifies other`angles, other`flow, other`height, other`space, other`time, other`weight
      ensures Valid() && other.Valid()
      ensures (Genes(), other.Genes()) == SwapSlot((old(Genes()), old(other.Genes())), anIndex)
      ensures State() == old(State()).(genome := Genes())
      ensures other.State() == old(other.State()).(genome := other.Genes())
    {
      var imax := Min(|angles|, |other.angles|);
      if anIndex == 0 {
        weight, other.weight := other.weight, weight;
      } else if anIndex == 1 {
        space, other.space := other.space, space;
      } else if anIndex == 2 {
        time, other.time := other.time, time;
      } else if anIndex == 3 {
        flow, other.flow := other.flow, flow;
      } else if anIndex == 4 {
        height, other.height := other.height, height;
      } else if anIndex - NumFixedAttributes < imax {
        var k := anIndex - NumFixedAttributes;
        angles, other.angles := angles[k := other.angles[k]], other.angles[k := angles[k]];
      }
    }

    /** The angle at `index` in degrees; past the last angle, a random angle up to 360 degrees (one draw). */
    method GetAngleAsDegrees(index: nat, rng: seq<nat>) returns (degrees: real, used: nat)
      requires index >= |angles| ==> |rng| >= 1
      ensures index < |angles| ==> used == 0 && RadiansToDegrees(angles[index]) == degrees
      ensures index < |angles| ==> DegreesToRadians(degrees) == angles[index]
      ensures index >= |angles| ==> used == 1 && 0.0 <= degrees <= 360.0
      ensures index >= |angles| ==> degrees == RandRealInRange(0.0, 360.0, rng[0])
    {
      if index < |angles| {
        degrees, used := RadiansToDegrees(angles[index]), 0;
        DegreesRadiansRoundTrip(angles[index]);
      } else {
        var angle := RandomAngle(360.0, rng[0]);
        degrees, used := RadiansToDegrees(angle), 1;
        DegreesRadiansRoundTrip(RandRealInRange(0.0, 360.0, rng[0]));
      }
    }

    method GetNumAngles() returns (n: nat)
      requires Valid()
      ensures n == |angles| == NumCalculatedAngles
    {
      n := |angles|;
    }

    /** The stored score, which is the genome's fitness once `UpdateFitness` has run. */
    method GetFitnessScore() returns (score: real)
      ensures scored ==> State().score == Some(score)
    {
      score := accumulatedScore;
    }

    method GetFlow() returns (q: Flow)
      ensures q == Genes().flow
    {
      q := this.flow;
    }

    method GetHeight() returns (q: Height)
      ensures q == Genes().height
    {
      q := this.height;
    }

    method GetSpace() returns (q: Space)
      ensures q == Genes().space
    {
      q := this.space;
    }

    method GetTime() returns (q: Time)
      ensures q == Genes().time
    {
      q := this.time;
    }

    method GetWeight() returns (q: Weight)
      ensures q == Genes().weight
    {
      q := this.weight;
    }

    method IsMarked() returns (m: bool)
      ensures m == State().marked
    {
      m := marked;
    }

    method SetMark()
      modifies this`marked
      ensures State() == old(State()).(marked := true)
    {
      marked := true;
    }

    method ClearMark()
      modifies this`marked
      ensures State() == old(State()).(marked := false)
    {
      marked := false;
    }
  }
}
