/**
 * The older, variable-length Skeleton of the top-level ScuddleSkeleton.cpp:
 * any number of angles, all drawn up to a full circle, no quadrant cache,
 * and a fitness rule made only of an Effort term and a height term with
 * literal weights (its Bartenieff term is compiled out).
 */
module LegacySkeleton {
  import opened DataTypes
  import opened Common
  import opened SkeletonLayout
  import opened SkeletonFitness
  import opened SlotSwap
  import Current = Skeleton

  /** Raw draws `setAttributes` consumes after the angles: four qualities and a height. */
  const QualityDraws: nat := 5

  /** What an older Skeleton object holds; `score` is None until `updateFitness` has run. */
  datatype LegacyState = LegacyState(genome: Genome, score: Option<real>, marked: bool)

  /**
   * The genome `setAttributes(numAngles)` builds: angle k from draw k, then
   * flow, space, time and weight from one draw each and the height from the
   * last.
   */
  function NewGenome(numAngles: nat, rng: seq<nat>): (g: Genome)
    requires |rng| >= numAngles + QualityDraws
    ensures |g.angles| == numAngles
    ensures forall k :: 0 <= k < numAngles ==> 0.0 <= g.angles[k] <= DegreesToRadians(360.0)
  {
    Genome(if Current.DrawnHigh(rng[numAngles + 3]) then WeightStrong else WeightLight,
           if Current.DrawnHigh(rng[numAngles + 1]) then SpaceDirect else SpaceIndirect,
           if Current.DrawnHigh(rng[numAngles + 2]) then TimeSudden else TimeSustained,
           if Current.DrawnHigh(rng[numAngles]) then FlowBound else FlowFree,
           Current.HeightFromDraw(RandRealInRange(0.0, 1.0, rng[numAngles + 4])),
           seq(numAngles, k requires 0 <= k < numAngles => RandomAngle(360.0, rng[k])))
  }

  /** Draws `mutate` consumes: the new value always, and an index only when there is more than one angle. */
  function MutateDraws(numAngles: nat): (n: nat)
    ensures 1 <= n <= 2
  {
    if numAngles > 1 then 2 else 1
  }

  /**
   * The genome after `mutate`: the first draw is a new angle; with several
   * angles the second draw picks the one it replaces, a single angle is
   * replaced outright, and with no angles nothing changes.
   */
  function MutateGenome(g: Genome, rng: seq<nat>): Genome
    requires |rng| >= MutateDraws(|g.angles|)
  {
    var newAngleValue := RandomAngle(360.0, rng[0]);
    if |g.angles| > 1 then
      g.(angles := g.angles[RandUnsignedInRange(|g.angles| - 1, rng[1]) := newAngleValue])
    else if |g.angles| == 1 then g.(angles := [newAngleValue])
    else g
  }

  /**
   * A mutation keeps the number of angles and every quality; an empty genome
   * is left as it is, and otherwise exactly one angle may change, to a value
   * in the full circle.
   */
  lemma MutateChangesAtMostOne(g: Genome, rng: seq<nat>)
    requires |rng| >= MutateDraws(|g.angles|)
    ensures var m := MutateGenome(g, rng);
            && |m.angles| == |g.angles|
            && m.weight == g.weight && m.space == g.space && m.time == g.time && m.flow == g.flow && m.height == g.height
            && (|g.angles| == 0 ==> m == g)
            && (|g.angles| > 0 ==>
                  exists which :: 0 <= which < |g.angles|
                    && 0.0 <= m.angles[which] <= DegreesToRadians(360.0)
                    && forall k :: 0 <= k < |g.angles| && k != which ==> m.angles[k] == g.angles[k])
  {
    var m := MutateGenome(g, rng);
    if |g.angles| > 1 {
      var which := RandUnsignedInRange(|g.angles| - 1, rng[1]);
      assert 0.0 <= m.angles[which] <= DegreesToRadians(360.0);
    } else if |g.angles| == 1 {
      assert 0.0 <= m.angles[0] <= DegreesToRadians(360.0);
    }
  }

  /**
   * Every index of a genome of two or more angles, up to `RandMax / Modulus`,
   * is the target of some value `rand()` can return.
   */
  lemma MutateReachesEveryAngle(g: Genome, rng: seq<nat>, which: nat)
    requires |g.angles| > 1 && which < |g.angles| && which <= RandMax / Modulus && |rng| >= 1
    ensures which * Modulus <= RandMax
    ensures MutateGenome(g, [rng[0], which * Modulus]).angles[which] == RandomAngle(360.0, rng[0])
  {
    RandUnsignedInRangeCovers(|g.angles| - 1, which);
  }

  /** Effort term with literal weights: 0.6 for low, 1.2 for medium, 1.4 for high. */
  function EffortTerm(tier: EffortTier): real
  {
    match tier
    case EffortLow => 0.6
    case EffortMedium => 1.2
    case EffortHigh => 1.4
  }

  /** Height term: 0.3 for the three crouched heights, else nothing. */
  function HeightTerm(h: Height): real
  {
    if h == HeightMidLow || h == HeightMiddle || h == HeightMidHigh then 0.3 else 0.0
  }

  /** The score `updateFitness` stores: (no Bartenieff term + Effort term + height term) times 1 or 3. */
  function LegacyFitness(g: Genome): real
  {
    Scaled(0.0 + EffortTerm(EffortOf(g.weight, g.space, g.time, g.flow)) + HeightTerm(g.height), HeightAdjustment(g.height))
  }

  /**
   * The older score is the newer one with the Bartenieff pattern fixed at
   * none, the quadrant sum left out of the multiplier, and the newer
   * initial weights.
   */
  lemma FitnessIsScoreWithoutQuadrants(g: Genome)
    ensures LegacyFitness(g) == Score(NoPattern, EffortOf(g.weight, g.space, g.time, g.flow), g.height, HeightAdjustment(g.height), InitialCoefficients)
  {
  }

  /**
   * The nine possible scores: 0.6, 1.2 or 1.4 at the lowest and highest
   * heights, 0.3 more at the middle height, and three times (Effort + 0.3)
   * at the two in-between heights.
   */
  lemma FitnessValues(g: Genome)
    ensures var e := EffortTerm(EffortOf(g.weight, g.space, g.time, g.flow));
            && (e == 0.6 || e == 1.2 || e == 1.4)
            && LegacyFitness(g) == (if g.height == HeightLow || g.height == HeightHigh then e
                              else if g.height == HeightMiddle then e + 0.3
                              else 3.0 * (e + 0.3))
    ensures 0.6 <= LegacyFitness(g) <= 5.1
  {
  }

  class Skeleton {
    var angles: seq<real>
    var accumulatedScore: real
    var flow: Flow
    var height: Height
    var space: Space
    var time: Time
    var weight: Weight
    var marked: bool
    /** Whether `accumulatedScore` has been computed since construction. */
    ghost var scored: bool

    function Genes(): Genome
      reads this
    {
      Genome(weight, space, time, flow, height, angles)
    }

    ghost function State(): LegacyState
      reads this
    {
      LegacyState(Genes(), if scored then Some(accumulatedScore) else None, marked)
    }

    /** A new skeleton of `numAngles` random angles and random qualities, unmarked and not yet scored. */
    constructor (numAngles: nat, rng: seq<nat>)
      requires |rng| >= numAngles + QualityDraws
      ensures State() == LegacyState(NewGenome(numAngles, rng), None, false)
    {
      var a: seq<real> := [];
      var ii := 0;
      while ii < numAngles
        invariant ii <= numAngles && |a| == ii
        invariant forall k :: 0 <= k < ii ==> a[k] == RandomAngle(360.0, rng[k])
      {
        a := a + [RandomAngle(360.0, rng[ii])];
        ii := ii + 1;
      }
      angles := a;
      flow := if 0.5 <= RandRealInRange(0.0, 1.0, rng[numAngles]) then FlowBound else FlowFree;
      space := if 0.5 <= RandRealInRange(0.0, 1.0, rng[numAngles + 1]) then SpaceDirect else SpaceIndirect;
      time := if 0.5 <= RandRealInRange(0.0, 1.0, rng[numAngles + 2]) then TimeSudden else TimeSustained;
      weight := if 0.5 <= RandRealInRange(0.0, 1.0, rng[numAngles + 3]) then WeightStrong else WeightLight;
      var aNumb := RandRealInRange(0.0, 1.0, rng[numAngles + 4]);
      if 0.8 <= aNumb {
        height := HeightHigh;
      } else if 0.6 <= aNumb {
        height := HeightMidHigh;
      } else if 0.4 <= aNumb {
        height := HeightMiddle;
      } else if 0.2 <= aNumb {
        height := HeightMidLow;
      } else {
        height := HeightLow;
      }
      marked := false;
      scored := false;
      new;
      assert angles == NewGenome(numAngles, rng).angles;
    }

    /** A copy of `other`: the same angles and qualities, unmarked and not yet scored. */
    constructor Copy(other: Skeleton)
      ensures State() == LegacyState(other.Genes(), None, false)
    {
      var a: seq<real> := [];
      var ii := 0;
      while ii < |other.angles|
        invariant ii <= |other.angles| && a == other.angles[..ii]
      {
        a := a + [other.angles[ii]];
        ii := ii + 1;
      }
      angles := a;
      flow, height, space, time, weight := other.flow, other.height, other.space, other.time, other.weight;
      marked := false;
      scored := false;
      new;
      assert angles == other.angles;
    }

    /** The angle at `index` in degrees; past the last angle, a random angle up to 360 degrees (one draw). */
    method GetAngleAsDegrees(index: nat, rng: seq<nat>) returns (degrees: real, used: nat)
      requires index >= |angles| ==> |rng| >= 1
      ensures index < |angles| ==> used == 0 && DegreesToRadians(degrees) == angles[index]
      ensures index >= |angles| ==> used == 1 && 0.0 <= degrees <= 360.0
      ensures index >= |angles| ==> degrees == RandRealInRange(0.0, 360.0, rng[0])
    {
      if index < |angles| {
        degrees, used := RadiansToDegrees(angles[index]), 0;
        DegreesRadiansRoundTrip(angles[index]);
      } else {
        var angle := RandomAngle(360.0, rng[0]);
        degrees, used := RadiansToDegrees(angle), 1;
        DegreesRadiansRoundTrip(RandRealInRange(0.0, 360.0, rng[0]));
      }
    }

    method GetNumAngles() returns (n: nat)
      ensures n == |Genes().angles|
    {
      n := |angles|;
    }

    /** Redraws at most one angle, consuming one or two draws. */
    method Mutate(rng: seq<nat>) returns (used: nat)
      requires |rng| >= MutateDraws(|angles|)
      modifies this
      ensures used == MutateDraws(|old(angles)|)
      ensures State() == old(State()).(genome := MutateGenome(old(Genes()), rng))
    {
      var newAngleValue := RandomAngle(360.0, rng[0]);
      var imax := |angles|;
      used := 1;
      if 1 < imax {
        var whichAngle := RandUnsignedInRange(imax - 1, rng[1]);
        used := 2;
        angles := angles[whichAngle := newAngleValue];
      } else if 1 == imax {
        angles := angles[0 := newAngleValue];
      }
    }

    /**
     * Crossover with `other`: draws at least one and at most `numSwap`
     * distinct slots among the five qualities and the angles both skeletons
     * have, and exchanges them. `ok` is false when the draws run out before
     * enough distinct slots are found; nothing is exchanged then.
     */
    method SwapValues(other: Skeleton, numSwap: nat, rng: seq<nat>) returns (slots: seq<nat>, used: nat, ok: bool)
      requires this != other
      modifies this, other
      ensures used <= |rng|
      ensures var numAttributes := NumFixedAttributes + Min(|old(angles)|, |old(other.angles)|);
              && slots == Dedup(SlotDraws(numAttributes, rng[..used]))
              && Distinct(slots) && (forall i :: 0 <= i < |slots| ==> slots[i] < numAttributes)
              && (ok ==> |slots| == Max(1, Min(numSwap, numAttributes)))
      ensures ok ==> (Genes(), other.Genes()) == SwapSlots((old(Genes()), old(other.Genes())), slots)
      ensures !ok ==> Genes() == old(Genes()) && other.Genes() == old(other.Genes())
      ensures State() == old(State()).(genome := Genes())
      ensures other.State() == old(other.State()).(genome := other.Genes())
    {
      var imax := Min(|angles|, |other.angles|);
      var numAttributes := NumFixedAttributes + imax;
      var realSwap := if numAttributes < numSwap then numAttributes else numSwap;
      slots, used, ok := CollectSlotIndices(numAttributes, realSwap, rng);
      if ok {
        ExchangeSlots(other, slots);
      }
    }

    /** Exchanges the listed slots with `other`, in order. */
    method ExchangeSlots(other: Skeleton, slots: seq<nat>)
      requires this != other
      modifies this, other
      ensures (Genes(), other.Genes()) == SwapSlots((old(Genes()), old(other.Genes())), slots)
      ensures State() == old(State()).(genome := Genes())
      ensures other.State() == old(other.State()).(genome := other.Genes())
    {
      ghost var start := (Genes(), other.Genes());
      var ii := 0;
      while ii < |slots|
        invariant ii <= |slots|
        invariant (Genes(), other.Genes()) == SwapSlots(start, slots[..ii])
        invariant State() == old(State()).(genome := Genes())
        invariant other.State() == old(other.State()).(genome := other.Genes())
      {
        ExchangeSlot(other, slots[ii]);
        assert slots[..ii + 1] == slots[..ii] + [slots[ii]];
        SwapSlotsSnoc(start, slots[..ii], slots[ii]);
        ii := ii + 1;
      }
      assert slots[..ii] == slots;
    }

    /** Exchanges one crossover slot with `other`; an angle slot past the shorter angle vector changes nothing. */
    method ExchangeSlot(other: Skeleton, anIndex: nat)
      requires this != other
      modifies this, other
      ensures (Genes(), other.Genes()) == SwapSlot((old(Genes()), old(other.Genes())), anIndex)
      ensures State() == old(State()).(genome := Genes())
      ensures other.State() == old(other.State()).(genome := other.Genes())
    {
      var imax := Min(|angles|, |other.angles|);
      if anIndex == 0 {
        weight, other.weight := other.weight, weight;
      } else if anIndex == 1 {
        space, other.space := other.space, space;
      } else if anIndex == 2 {
        time, other.time := other.time, time;
      } else if anIndex == 3 {
        flow, other.flow := other.flow, flow;
      } else if anIndex == 4 {
        height, other.height := other.height, height;
      } else if anIndex - NumFixedAttributes < imax {
        var k := anIndex - NumFixedAttributes;
        angles, other.angles := angles[k := other.angles[k]], other.angles[k := angles[k]];
      }
    }

    /** Stores the fitness of the current genome. */
    method UpdateFitness()
      modifies this
      ensures State() == old(State()).(score := Some(LegacyFitness(Genes())))
    {
      var percentageBartenieff := 0.0;
      var percentageEffort: real;
      var percentageHeight := 0.0;
      var quadScore := 0;
      if (weight == WeightLight && space == SpaceIndirect && time == TimeSustained && flow == FlowFree)
         || (weight == WeightStrong && space == SpaceDirect && time == TimeSudden && flow == FlowBound) {
        percentageEffort := 0.6;
      } else if (ReallyClose(MapWeightToReal(weight), MapSpaceToReal(space)) && ReallyClose(MapTimeToReal(time), MapFlowToReal(flow)))
                || (ReallyClose(MapWeightToReal(weight), MapTimeToReal(time)) && ReallyClose(MapSpaceToReal(space), MapFlowToReal(flow)))
                || (ReallyClose(MapWeightToReal(weight), MapFlowToReal(flow)) && ReallyClose(MapSpaceToReal(space), MapTimeToReal(time))) {
        percentageEffort := 1.2;
      } else {
        percentageEffort := 1.4;
      }
      if height == HeightLow || height == HeightMiddle || height == HeightHigh {
        quadScore := quadScore + 1;
      } else {
        quadScore := quadScore + 3;
      }
      if height == HeightMidLow || height == HeightMiddle || height == HeightMidHigh {
        percentageHeight := 0.3;
      }
      assert percentageEffort == EffortTerm(EffortOf(weight, space, time, flow));
      accumulatedScore := Scaled(percentageBartenieff + percentageEffort + percentageHeight, quadScore);
      scored := true;
    }

    /** The stored score, which is the genome's fitness once `UpdateFitness` has run. */
    method GetFitnessScore() returns (score: real)
      ensures scored ==> State().score == Some(score)
    {
      score := accumulatedScore;
    }

    method GetFlow() returns (q: Flow)
      ensures q == Genes().flow
    {
      q := flow;
    }

    method GetHeight() returns (q: Height)
      ensures q == Genes().height
    {
      q := height;
    }

    method GetSpace() returns (q: Space)
      ensures q == Genes().space
    {
      q := space;
    }

    method GetTime() returns (q: Time)
      ensures q == Genes().time
    {
      q := time;
    }

    method GetWeight() returns (q: Weight)
      ensures q == Genes().weight
    {
      q := weight;
    }

    method IsMarked() returns (m: bool)
      ensures m == State().marked
    {
      m := marked;
    }

    method SetMark()
      modifies this
      ensures State() == old(State()).(marked := true)
    {
      marked := true;
    }

    method ClearMark()
      modifies this
      ensures State() == old(State()).(marked := false)
    {
      marked := false;
    }
  }
}
