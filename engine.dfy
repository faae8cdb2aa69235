/**
 * The population engine of Source/ScuddleMain.cpp, in the active Skeleton
 * build: a population of skeletons is scored, a fifth of it is picked by
 * roulette walks without replacement, the picks breed the next population
 * by pairwise crossover, a tenth of that is mutated, and after the last
 * generation a few members are picked by roulette walks with replacement.
 *
 * The engine works on the values the Skeleton objects hold
 * (`SkeletonState`); a selection is a list of population positions, which is
 * what the source's vector of raw pointers amounts to.
 */
module Engine {
  import opened DataTypes
  import opened Common
  import opened SkeletonLayout
  import opened SkeletonFitness
  import opened SlotSwap
  import opened Skeleton

  const FinalSelectionSize: nat := 5
  const IterationCount: nat := 5
  /** Percentage of the population mutated in each generation. */
  const MutationPercent: nat := 10
  /** Percentage of the population selected to breed in each generation. */
  const SelectionPercent: nat := 20
  /** Number of attributes exchanged in each crossover. */
  const CrossoverCount: nat := 2
  /** Number of entries of the display map of joint angles. */
  const NumDisplayedAngles: nat := 31
  const PopulationSize: nat := 200

  /** Whole part of `percent` per cent of `n`. */
  function Fraction(n: nat, percent: nat): nat
  {
    n * percent / 100
  }

  /** Every member has the eight limb angles of a Skeleton. */
  predicate WellFormed(pop: seq<SkeletonState>)
  {
    forall i :: 0 <= i < |pop| ==> |pop[i].genome.angles| == NumCalculatedAngles
  }

  /** Every member has been scored, and no score is negative. */
  predicate Scored(pop: seq<SkeletonState>)
  {
    forall i :: 0 <= i < |pop| ==> pop[i].score.Some? && pop[i].score.value >= 0.0
  }

  predicate NoneMarked(pop: seq<SkeletonState>)
  {
    forall i :: 0 <= i < |pop| ==> !pop[i].marked
  }

  // ---------------------------------------------------------------- generation

  /** `generateSkeletons`: `n` new skeletons, each from the next thirteen draws. */
  method GenerateSkeletons(n: nat, rng: seq<nat>) returns (pop: seq<SkeletonState>, used: nat)
    requires |rng| >= n * AttributeDraws
    ensures used == n * AttributeDraws
    ensures |pop| == n && WellFormed(pop) && NoneMarked(pop)
    ensures forall i :: 0 <= i < n ==> pop[i] == NewState(rng[i * AttributeDraws..])
  {
    pop, used := [], 0;
    while |pop| < n
      invariant |pop| <= n && used == |pop| * AttributeDraws
      invariant WellFormed(pop) && NoneMarked(pop)
      invariant forall i :: 0 <= i < |pop| ==> pop[i] == NewState(rng[i * AttributeDraws..])
    {
      pop := pop + [NewState(rng[used..])];
      used := used + AttributeDraws;
    }
  }

  // ---------------------------------------------------------------- fitness

  /** `calculateFitnessValues`: every member recomputes its quadrants and stores its fitness. */
  method CalculateFitnessValues(pop: seq<SkeletonState>, c: Coefficients) returns (r: seq<SkeletonState>)
    requires WellFormed(pop)
    ensures |r| == |pop| && WellFormed(r)
    ensures forall i :: 0 <= i < |r| ==> r[i] == UpdateState(pop[i], c)
    ensures CoefficientsInRange(c) ==> Scored(r)
  {
    r := [];
    while |r| < |pop|
      invariant |r| <= |pop| && WellFormed(r)
      invariant forall i :: 0 <= i < |r| ==> r[i] == UpdateState(pop[i], c)
      invariant CoefficientsInRange(c) ==> Scored(r)
    {
      if CoefficientsInRange(c) {
        UpdatedScoreNonNegative(pop[|r|], c);
      }
      r := r + [UpdateState(pop[|r|], c)];
    }
  }

  /** With weights in range a stored score exists and is not negative. */
  lemma UpdatedScoreNonNegative(s: SkeletonState, c: Coefficients)
    requires |s.genome.angles| == NumCalculatedAngles && CoefficientsInRange(c)
    ensures UpdateState(s, c).score.Some? && UpdateState(s, c).score.value >= 0.0
    ensures |UpdateState(s, c).genome.angles| == NumCalculatedAngles
  {
    FitnessBounds(s.genome, c);
  }

  // ---------------------------------------------------------------- roulette walks

  /** A member takes part in a walk unless the walk skips marked members and it is marked. */
  predicate Counted(s: SkeletonState, skipMarked: bool)
  {
    !(skipMarked && s.marked)
  }

  /** Sum of the scores of the members before position `n` that take part in the walk. */
  function PrefixScore(pop: seq<SkeletonState>, skipMarked: bool, n: nat): (r: real)
    requires Scored(pop) && n <= |pop|
    ensures r >= 0.0
  {
    if n == 0 then 0.0
    else PrefixScore(pop, skipMarked, n - 1) + (if Counted(pop[n - 1], skipMarked) then pop[n - 1].score.value else 0.0)
  }

  /** Sum of all scores. */
  function TotalScore(pop: seq<SkeletonState>): real
    requires Scored(pop)
  {
    PrefixScore(pop, false, |pop|)
  }

  /** Member `j` is picked by `draw`: its slice of the running sum holds the draw strictly inside. */
  predicate Hit(pop: seq<SkeletonState>, skipMarked: bool, draw: real, j: nat)
    requires Scored(pop) && j < |pop|
  {
    Counted(pop[j], skipMarked)
    && PrefixScore(pop, skipMarked, j) < draw < PrefixScore(pop, skipMarked, j) + pop[j].score.value
  }

  /** The members among the first `n` that `draw` picks, in order. */
  function Hits(pop: seq<SkeletonState>, skipMarked: bool, draw: real, n: nat): seq<nat>
    requires Scored(pop) && n <= |pop|
  {
    if n == 0 then []
    else Hits(pop, skipMarked, draw, n - 1) + (if Hit(pop, skipMarked, draw, n - 1) then [n - 1] else [])
  }

  /** The running sum never decreases. */
  lemma {:induction false} PrefixScoreMonotone(pop: seq<SkeletonState>, skipMarked: bool, m: nat, n: nat)
    requires Scored(pop) && m <= n <= |pop|
    ensures PrefixScore(pop, skipMarked, m) <= PrefixScore(pop, skipMarked, n)
  {
    if m < n {
      PrefixScoreMonotone(pop, skipMarked, m, n - 1);
    }
  }

  /** Every member a draw picks is a hit: it takes part, and has a positive score. */
  lemma {:induction false} HitsAreHits(pop: seq<SkeletonState>, skipMarked: bool, draw: real, n: nat)
    requires Scored(pop) && n <= |pop|
    ensures forall x :: x in Hits(pop, skipMarked, draw, n) ==>
              x < n && Hit(pop, skipMarked, draw, x) && Counted(pop[x], skipMarked) && pop[x].score.value > 0.0
  {
    if n > 0 {
      HitsAreHits(pop, skipMarked, draw, n - 1);
    }
  }

  /** A walk picks at most one member: past a pick, the running sum already exceeds the draw. */
  lemma {:induction false} HitsAtMostOne(pop: seq<SkeletonState>, skipMarked: bool, draw: real, n: nat)
    requires Scored(pop) && n <= |pop|
    ensures |Hits(pop, skipMarked, draw, n)| <= 1
    ensures |Hits(pop, skipMarked, draw, n)| == 1 ==> draw < PrefixScore(pop, skipMarked, n)
  {
    if n > 0 {
      HitsAtMostOne(pop, skipMarked, draw, n - 1);
      var before := Hits(pop, skipMarked, draw, n - 1);
      if |before| == 1 {
        PrefixScoreMonotone(pop, skipMarked, n - 1, n);
        assert !Hit(pop, skipMarked, draw, n - 1);
      } else if Hit(pop, skipMarked, draw, n - 1) {
        assert PrefixScore(pop, skipMarked, n) == PrefixScore(pop, skipMarked, n - 1) + pop[n - 1].score.value;
      }
    }
  }

  /** A member with a zero score is never picked. */
  lemma ZeroScoreNeverHit(pop: seq<SkeletonState>, skipMarked: bool, draw: real, j: nat)
    requires Scored(pop) && j < |pop| && pop[j].score.value == 0.0
    ensures j !in Hits(pop, skipMarked, draw, |pop|)
  {
    HitsAreHits(pop, skipMarked, draw, |pop|);
  }

  /** Adds up every member's score, as both selection passes do before their walks. */
  method SumOfScores(pop: seq<SkeletonState>) returns (sumOfScore: real)
    requires Scored(pop)
    ensures sumOfScore == TotalScore(pop)
  {
    sumOfScore := 0.0;
    var j := 0;
    while j < |pop|
      invariant j <= |pop| && sumOfScore == PrefixScore(pop, false, j)
    {
      sumOfScore := sumOfScore + pop[j].score.value;
      j := j + 1;
    }
  }

  /**
   * One roulette walk: the running sum goes through the members (the
   * unmarked ones when `skipMarked`), and a member is picked when the draw
   * lies strictly inside its slice.
   */
  method Walk(pop: seq<SkeletonState>, skipMarked: bool, chooseArray: real) returns (picks: seq<nat>)
    requires Scored(pop)
    ensures picks == Hits(pop, skipMarked, chooseArray, |pop|)
  {
    picks := [];
    var sumOfArrayIndices := 0.0;
    var j := 0;
    while j < |pop|
      invariant j <= |pop|
      invariant sumOfArrayIndices == PrefixScore(pop, skipMarked, j)
      invariant picks == Hits(pop, skipMarked, chooseArray, j)
    {
      if !(skipMarked && pop[j].marked) {
        var score := pop[j].score.value;
        if chooseArray > sumOfArrayIndices && chooseArray < sumOfArrayIndices + score {
          picks := picks + [j];
          sumOfArrayIndices := sumOfArrayIndices + score;
        } else {
          sumOfArrayIndices := sumOfArrayIndices + score;
        }
      }
      j := j + 1;
    }
  }

  /**
   * One walk of `makeSelection` with raw draw `d`: the member it picks, if
   * any, is marked and appended to the selection.
   */
  function SelectStep(state: (seq<SkeletonState>, seq<nat>), total: real, d: nat): (r: (seq<SkeletonState>, seq<nat>))
    requires Scored(state.0)
    ensures Scored(r.0) && |r.0| == |state.0|
    ensures forall j :: 0 <= j < |r.0| ==> r.0[j] == state.0[j].(marked := r.0[j].marked)
  {
    var draw := RandRealInRange(0.0, total, d);
    var picks := Hits(state.0, true, draw, |state.0|);
    SinglePick(state.0, true, draw);
    if |picks| == 1 then (state.0[picks[0] := state.0[picks[0]].(marked := true)], state.1 + [picks[0]])
    else state
  }

  /** The population and selection after one `makeSelection` walk per raw draw, in order. */
  function SelectRun(pop: seq<SkeletonState>, total: real, draws: seq<nat>): (r: (seq<SkeletonState>, seq<nat>))
    requires Scored(pop)
    ensures Scored(r.0) && |r.0| == |pop|
    ensures forall j :: 0 <= j < |r.0| ==> r.0[j] == pop[j].(marked := r.0[j].marked)
    decreases |draws|
  {
    if draws == [] then (pop, [])
    else SelectStep(SelectRun(pop, total, draws[..|draws| - 1]), total, draws[|draws| - 1])
  }

  /**
   * `makeSelection`: walks with draws in [0, total score] until a fifth of
   * the population is picked, marking each pick so that no member is picked
   * twice. `ok` is false when the draws run out first (the source would
   * keep walking, forever if too few unmarked members score above zero).
   */
  method MakeSelection(pop: seq<SkeletonState>, rng: seq<nat>)
    returns (newPop: seq<SkeletonState>, selection: seq<nat>, used: nat, ok: bool)
    requires Scored(pop)
    ensures used <= |rng|
    ensures |newPop| == |pop|
    ensures forall j :: 0 <= j < |pop| ==> newPop[j] == pop[j].(marked := pop[j].marked || j in selection)
    ensures Distinct(selection)
    ensures forall i :: 0 <= i < |selection| ==>
              selection[i] < |pop| && !pop[selection[i]].marked && pop[selection[i]].score.value > 0.0
    ensures ok <==> |selection| == Fraction(|pop|, SelectionPercent)
    ensures !ok ==> used == |rng| && |selection| < Fraction(|pop|, SelectionPercent)
    ensures (newPop, selection) == SelectRun(pop, TotalScore(pop), rng[..used])
    ensures ok && Fraction(|pop|, SelectionPercent) > 0 ==>
              1 <= used && |SelectRun(pop, TotalScore(pop), rng[..used - 1]).1| < Fraction(|pop|, SelectionPercent)
  {
    var sumOfScore := SumOfScores(pop);
    newPop, selection, used := pop, [], 0;
    var imax := Fraction(|pop|, SelectionPercent);
    ghost var before := selection;
    while |selection| < imax && used < |rng|
      invariant used <= |rng| && |selection| <= imax
      invariant Selecting(pop, newPop, selection)
      invariant (newPop, selection) == SelectRun(pop, sumOfScore, rng[..used])
      invariant |selection| == imax > 0 ==> 1 <= used && before == SelectRun(pop, sumOfScore, rng[..used - 1]).1 && |before| < imax
      decreases |rng| - used
    {
      var chooseArray := RandRealInRange(0.0, sumOfScore, rng[used]);
      SelectRunNext(pop, sumOfScore, rng, used);
      before := selection;
      used := used + 1;
      var picks := Walk(newPop, true, chooseArray);
      SinglePick(newPop, true, chooseArray);
      if |picks| == 1 {
        var j := picks[0];
        SelectingExtend(pop, newPop, selection, j);
        newPop := newPop[j := newPop[j].(marked := true)];
        selection := selection + [j];
      }
    }
    ok := |selection| == imax;
  }

  /** One more draw applies one more walk to the state the earlier draws built. */
  lemma SelectRunNext(pop: seq<SkeletonState>, total: real, rng: seq<nat>, used: nat)
    requires Scored(pop) && used < |rng|
    ensures SelectRun(pop, total, rng[..used + 1]) == SelectStep(SelectRun(pop, total, rng[..used]), total, rng[used])
  {
    assert rng[..used + 1][..used] == rng[..used];
  }

  /** The invariant of the selection loop: the picks so far are marked, distinct, fresh and positive. */
  predicate Selecting(pop: seq<SkeletonState>, newPop: seq<SkeletonState>, selection: seq<nat>)
  {
    && |newPop| == |pop| && Scored(newPop)
    && (forall j :: 0 <= j < |pop| ==> newPop[j] == pop[j].(marked := pop[j].marked || j in selection))
    && Distinct(selection)
    && (forall i :: 0 <= i < |selection| ==>
          selection[i] < |pop| && !pop[selection[i]].marked && pop[selection[i]].score.value > 0.0)
  }

  /** Marking one more unmarked member with a positive score keeps the selection invariant. */
  lemma SelectingExtend(pop: seq<SkeletonState>, newPop: seq<SkeletonState>, selection: seq<nat>, j: nat)
    requires Selecting(pop, newPop, selection)
    requires j < |newPop| && !newPop[j].marked && newPop[j].score.value > 0.0
    ensures Selecting(pop, newPop[j := newPop[j].(marked := true)], selection + [j])
  {
    PickFresh(pop, newPop, selection, j);
  }

  /** What one walk yields: at most one pick, which takes part and has a positive score. */
  lemma SinglePick(pop: seq<SkeletonState>, skipMarked: bool, draw: real)
    requires Scored(pop)
    ensures var picks := Hits(pop, skipMarked, draw, |pop|);
            && |picks| <= 1
            && (|picks| == 1 ==> picks[0] < |pop| && Counted(pop[picks[0]], skipMarked) && pop[picks[0]].score.value > 0.0)
  {
    HitsAtMostOne(pop, skipMarked, draw, |pop|);
    HitsAreHits(pop, skipMarked, draw, |pop|);
    var picks := Hits(pop, skipMarked, draw, |pop|);
    if |picks| == 1 {
      assert picks[0] in picks;
    }
  }

  /** An unmarked member of the working population was unmarked at the start and is not yet selected. */
  lemma PickFresh(pop: seq<SkeletonState>, newPop: seq<SkeletonState>, selection: seq<nat>, j: nat)
    requires |newPop| == |pop| && j < |pop| && !newPop[j].marked
    requires forall k :: 0 <= k < |pop| ==> newPop[k] == pop[k].(marked := pop[k].marked || k in selection)
    ensures !pop[j].marked && j !in selection
  {
    assert newPop[j] == pop[j].(marked := pop[j].marked || j in selection);
  }

  /** The picks of one mark-ignoring walk per raw draw, in order. */
  function FinalPicks(pop: seq<SkeletonState>, total: real, draws: seq<nat>): (r: seq<nat>)
    requires Scored(pop)
    ensures forall i :: 0 <= i < |r| ==> r[i] < |pop| && pop[r[i]].score.value > 0.0
    decreases |draws|
  {
    if draws == [] then []
    else
      var draw := RandRealInRange(0.0, total, draws[|draws| - 1]);
      SinglePick(pop, false, draw);
      FinalPicks(pop, total, draws[..|draws| - 1]) + Hits(pop, false, draw, |pop|)
  }

  /**
   * `makeFinalSelection`: `selectionSize` walks that ignore marks, so a
   * member can be picked more than once. `ok` is false when the draws run
   * out first.
   */
  method MakeFinalSelection(pop: seq<SkeletonState>, selectionSize: nat, rng: seq<nat>)
    returns (selection: seq<nat>, used: nat, ok: bool)
    requires Scored(pop)
    ensures used <= |rng|
    ensures forall i :: 0 <= i < |selection| ==> selection[i] < |pop| && pop[selection[i]].score.value > 0.0
    ensures ok <==> |selection| == selectionSize
    ensures !ok ==> used == |rng| && |selection| < selectionSize
    ensures selection == FinalPicks(pop, TotalScore(pop), rng[..used])
    ensures ok && selectionSize > 0 ==> 1 <= used && |FinalPicks(pop, TotalScore(pop), rng[..used - 1])| < selectionSize
  {
    var sumOfScore := SumOfScores(pop);
    selection, used := [], 0;
    ghost var before := selection;
    while |selection| < selectionSize && used < |rng|
      invariant used <= |rng| && |selection| <= selectionSize
      invariant selection == FinalPicks(pop, sumOfScore, rng[..used])
      invariant |selection| == selectionSize > 0 ==> 1 <= used && before == FinalPicks(pop, sumOfScore, rng[..used - 1]) && |before| < selectionSize
      decreases |rng| - used
    {
      var chooseArray := RandRealInRange(0.0, sumOfScore, rng[used]);
      assert rng[..used + 1][..used] == rng[..used];
      before := selection;
      used := used + 1;
      var picks := Walk(pop, false, chooseArray);
      SinglePick(pop, false, chooseArray);
      if |picks| == 1 {
        assert picks == [picks[0]];
        selection := selection + [picks[0]];
      }
    }
    ok := |selection| == selectionSize;
  }

  // ---------------------------------------------------------------- crossover

  /** The survivors in selection order, their marks cleared. */
  function Survivors(pop: seq<SkeletonState>, selection: seq<nat>): (r: seq<SkeletonState>)
    requires forall i :: 0 <= i < |selection| ==> selection[i] < |pop|
    ensures |r| == |selection|
    ensures WellFormed(pop) ==> WellFormed(r)
    ensures NoneMarked(r)
  {
    seq(|selection|, i requires 0 <= i < |selection| => pop[selection[i]].(marked := false))
  }

  /**
   * Picks two distinct parents among `popSize` members: a first draw, then
   * further draws until one differs from it. `ok` is false when the draws
   * run out first, as they always do with a single member.
   */
  method PickParents(popSize: nat, rng: seq<nat>) returns (first: nat, second: nat, used: nat, ok: bool)
    requires popSize >= 1
    ensures used <= |rng|
    ensures ok ==> 2 <= used && first != second && first < popSize && second < popSize
    ensures ok ==> first == RandUnsignedInRange(popSize - 1, rng[0])
                   && second == RandUnsignedInRange(popSize - 1, rng[used - 1])
                   && forall i :: 1 <= i < used - 1 ==> RandUnsignedInRange(popSize - 1, rng[i]) == first
    ensures !ok ==> used == |rng|
    ensures popSize == 1 ==> !ok
  {
    if |rng| == 0 {
      return 0, 0, 0, false;
    }
    first := RandUnsignedInRange(popSize - 1, rng[0]);
    second, used, ok := first, 1, false;
    while !ok && used < |rng|
      invariant 1 <= used <= |rng|
      invariant !ok ==> second == first
      invariant ok ==> 2 <= used && second == RandUnsignedInRange(popSize - 1, rng[used - 1]) && first != second
      invariant forall i :: 1 <= i < used - (if ok then 1 else 0) ==> RandUnsignedInRange(popSize - 1, rng[i]) == first
      decreases |rng| - used, !ok
    {
      second := RandUnsignedInRange(popSize - 1, rng[used]);
      used := used + 1;
      ok := first != second;
    }
  }

  /**
   * Pair `k` of the children that start at position `start`: the two members
   * at `start + 2k` and `start + 2k + 1` are copies of two distinct earlier
   * members with the listed slots exchanged between them.
   */
  predicate ChildrenOf(pop: seq<SkeletonState>, start: nat, parents: seq<(nat, nat)>, slotLists: seq<seq<nat>>, k: nat)
    requires k < |parents| && k < |slotLists|
  {
    var base := start + 2 * k;
    var (a, b) := parents[k];
    && base + 1 < |pop| && a < base && b < base && a != b
    && (pop[base], pop[base + 1]) == SwapStates(CopyState(pop[a]), CopyState(pop[b]), slotLists[k])
  }

  /**
   * What the crossover pass has built so far: the survivors, then one pair
   * of children per parent choice, each slot list made of `width` distinct
   * attribute slots.
   */
  predicate Bred(pop: seq<SkeletonState>, survivors: seq<SkeletonState>, parents: seq<(nat, nat)>,
                 slotLists: seq<seq<nat>>, width: nat)
  {
    && |pop| == |survivors| + 2 * |parents| && |slotLists| == |parents|
    && WellFormed(pop)
    && pop[..|survivors|] == survivors
    && (forall k :: 0 <= k < |parents| ==> ChildrenOf(pop, |survivors|, parents, slotLists, k))
    && (forall k :: 0 <= k < |slotLists| ==> |slotLists[k]| == width && SlotList(slotLists[k]))
  }

  /** Distinct slots, each one of the 13 attribute slots. */
  predicate SlotList(slots: seq<nat>)
  {
    Distinct(slots) && forall i :: 0 <= i < |slots| ==> slots[i] < NumFixedAttributes + NumCalculatedAngles
  }

  /** Appending the children of two distinct members extends what has been bred. */
  lemma BredExtend(pop: seq<SkeletonState>, survivors: seq<SkeletonState>, parents: seq<(nat, nat)>,
                   slotLists: seq<seq<nat>>, width: nat, a: nat, b: nat, slots: seq<nat>)
    requires Bred(pop, survivors, parents, slotLists, width)
    requires a < |pop| && b < |pop| && a != b && |slots| == width && SlotList(slots)
    ensures var children := SwapStates(CopyState(pop[a]), CopyState(pop[b]), slots);
            Bred(pop + [children.0, children.1], survivors, parents + [(a, b)], slotLists + [slots], width)
  {
    var children := SwapStates(CopyState(pop[a]), CopyState(pop[b]), slots);
    var pop' := pop + [children.0, children.1];
    var parents' := parents + [(a, b)];
    var slotLists' := slotLists + [slots];
    forall k | 0 <= k < |parents'|
      ensures ChildrenOf(pop', |survivors|, parents', slotLists', k)
    {
      if k < |parents| {
        assert ChildrenOf(pop, |survivors|, parents, slotLists, k);
      }
    }
    assert pop'[..|survivors|] == pop[..|survivors|];
  }

  /**
   * `doCrossovers`: the survivors (the selected members, marks cleared)
   * become the population, and pairs of children are appended until the
   * population reaches `PopulationSize`; at least one pair is always made.
   * The parent choices and the exchanged slots are returned. `ok` is false
   * when the draws run out first.
   */
  method DoCrossovers(pop: seq<SkeletonState>, selection: seq<nat>, crossoverCount: nat, rng: seq<nat>)
    returns (newPop: seq<SkeletonState>, parents: seq<(nat, nat)>, slotLists: seq<seq<nat>>, used: nat, ok: bool)
    requires WellFormed(pop) && |selection| >= 1
    requires forall i :: 0 <= i < |selection| ==> selection[i] < |pop|
    ensures used <= |rng|
    ensures Bred(newPop, Survivors(pop, selection), parents, slotLists,
                 Max(1, Min(crossoverCount, NumFixedAttributes + NumCalculatedAngles)))
    ensures ok ==> |parents| >= 1 && |newPop| >= PopulationSize
    ensures ok ==> |parents| == 1 || |newPop| - 2 < PopulationSize
    ensures !ok ==> used == |rng|
  {
    var survivors := Survivors(pop, selection);
    var numAttributes := NumFixedAttributes + NumCalculatedAngles;
    var realSwap := Min(crossoverCount, numAttributes);
    newPop := survivors;
    parents, slotLists, used := [], [], 0;
    var keepGoing := true;
    ok := true;
    while keepGoing && ok
      invariant used <= |rng|
      invariant Bred(newPop, survivors, parents, slotLists, Max(1, realSwap))
      invariant keepGoing ==> |newPop| < PopulationSize || |parents| == 0
      invariant !keepGoing ==> |parents| >= 1 && |newPop| >= PopulationSize
                               && (|parents| == 1 || |newPop| - 2 < PopulationSize)
      invariant !ok ==> used == |rng|
      decreases |rng| - used, if keepGoing && ok then 1 else 0
    {
      var firstChoice, secondChoice, parentDraws, found := PickParents(|newPop|, rng[used..]);
      used := used + parentDraws;
      if !found {
        ok := false;
      } else {
        var slots, swapDraws, swapped := CollectSlotIndices(numAttributes, realSwap, rng[used..]);
        used := used + swapDraws;
        if !swapped {
          ok := false;
        } else {
          BredExtend(newPop, survivors, parents, slotLists, Max(1, realSwap), firstChoice, secondChoice, slots);
          var children := SwapStates(CopyState(newPop[firstChoice]), CopyState(newPop[secondChoice]), slots);
          newPop := newPop + [children.0, children.1];
          parents := parents + [(firstChoice, secondChoice)];
          slotLists := slotLists + [slots];
          if PopulationSize <= |newPop| {
            keepGoing := false;
          }
        }
      }
    }
  }

  /**
   * From fewer than `PopulationSize` survivors, an even number of them, the
   * crossover pass ends at exactly `PopulationSize` members.
   */
  lemma CrossoverRestoresPopulation(survivors: nat, pairs: nat)
    requires survivors < PopulationSize && survivors % 2 == 0 && pairs >= 1
    requires survivors + 2 * pairs >= PopulationSize
    requires pairs == 1 || survivors + 2 * pairs - 2 < PopulationSize
    ensures survivors + 2 * pairs == PopulationSize
  {
  }

  // ---------------------------------------------------------------- mutation

  /**
   * The marking loop of `doMutations`: draws positions until a tenth of the
   * population is newly marked; a draw that hits a marked member is
   * discarded. `ok` is false when the draws run out first.
   */
  method MarkForMutation(pop: seq<SkeletonState>, rng: seq<nat>)
    returns (newPop: seq<SkeletonState>, chosen: seq<nat>, used: nat, ok: bool)
    ensures used <= |rng|
    ensures |newPop| == |pop|
    ensures forall j :: 0 <= j < |pop| ==> newPop[j] == pop[j].(marked := pop[j].marked || j in chosen)
    ensures Distinct(chosen) && forall i :: 0 <= i < |chosen| ==> chosen[i] < |pop| && !pop[chosen[i]].marked
    ensures ok <==> |chosen| == Fraction(|pop|, MutationPercent)
    ensures !ok ==> used == |rng|
  {
    newPop, chosen, used := pop, [], 0;
    var jmax := |pop|;
    var imax := Fraction(jmax, MutationPercent);
    while |chosen| < imax && used < |rng|
      invariant used <= |rng| && |chosen| <= imax
      invariant |newPop| == |pop|
      invariant forall j :: 0 <= j < |pop| ==> newPop[j] == pop[j].(marked := pop[j].marked || j in chosen)
      invariant Distinct(chosen) && forall i :: 0 <= i < |chosen| ==> chosen[i] < |pop| && !pop[chosen[i]].marked
      decreases |rng| - used
    {
      var jj := RandUnsignedInRange(jmax - 1, rng[used]);
      used := used + 1;
      if !newPop[jj].marked {
        PickFresh(pop, newPop, chosen, jj);
        newPop := newPop[jj := newPop[jj].(marked := true)];
        chosen := chosen + [jj];
      }
    }
    ok := |chosen| == imax;
  }

  /** Number of marked members before position `n`. */
  function MarkedBefore(pop: seq<SkeletonState>, n: nat): (count: nat)
    requires n <= |pop|
    ensures count <= n
  {
    if n == 0 then 0 else MarkedBefore(pop, n - 1) + (if pop[n - 1].marked then 1 else 0)
  }

  /** A marked member is followed by at least one more marked-member count. */
  lemma {:induction false} MarkedBeforeGrows(pop: seq<SkeletonState>, j: nat, n: nat)
    requires j < n <= |pop| && pop[j].marked
    ensures MarkedBefore(pop, j) + 1 <= MarkedBefore(pop, n)
  {
    if j + 1 < n {
      MarkedBeforeGrows(pop, j, n - 1);
    }
  }

  /**
   * Member `j` after the mutation loop: a marked member is mutated with the
   * two draws that follow those of the marked members before it, and its
   * mark is cleared; any other member is left alone.
   */
  function Mutated(pop: seq<SkeletonState>, rng: seq<nat>, j: nat): SkeletonState
    requires WellFormed(pop) && j < |pop| && |rng| >= 2 * MarkedBefore(pop, |pop|)
  {
    if pop[j].marked then
      MarkedBeforeGrows(pop, j, |pop|);
      var d := 2 * MarkedBefore(pop, j);
      pop[j].(genome := MutateGenome(pop[j].genome, rng[d], rng[d + 1]), marked := false)
    else pop[j]
  }

  /** The mutation loop of `doMutations`: every marked member is mutated and unmarked, in order. */
  method MutateMarked(pop: seq<SkeletonState>, rng: seq<nat>) returns (newPop: seq<SkeletonState>, used: nat)
    requires WellFormed(pop) && |rng| >= 2 * MarkedBefore(pop, |pop|)
    ensures used == 2 * MarkedBefore(pop, |pop|)
    ensures |newPop| == |pop| && forall j :: 0 <= j < |pop| ==> newPop[j] == Mutated(pop, rng, j)
  {
    newPop, used := [], 0;
    while |newPop| < |pop|
      invariant |newPop| <= |pop| && used == 2 * MarkedBefore(pop, |newPop|)
      invariant forall j :: 0 <= j < |newPop| ==> newPop[j] == Mutated(pop, rng, j)
    {
      var j := |newPop|;
      if pop[j].marked {
        MarkedBeforeGrows(pop, j, |pop|);
        var r := pop[j].(genome := MutateGenome(pop[j].genome, rng[used], rng[used + 1]), marked := false);
        newPop := newPop + [r];
        used := used + 2;
      } else {
        newPop := newPop + [pop[j]];
      }
    }
  }

  /** Two genomes that differ in at most one limb angle and in nothing else. */
  predicate OneAngleApart(g: Genome, h: Genome)
  {
    && |g.angles| == |h.angles|
    && g.weight == h.weight && g.space == h.space && g.time == h.time && g.flow == h.flow && g.height == h.height
    && forall i, k :: 0 <= i < k < |g.angles| && g.angles[i] != h.angles[i] ==> g.angles[k] == h.angles[k]
  }

  /**
   * After the mutation loop no member is marked, unmarked members are
   * untouched, and a marked member keeps its quadrants and score and
   * differs in at most one limb angle.
   */
  lemma MutatedProperties(pop: seq<SkeletonState>, rng: seq<nat>, j: nat)
    requires WellFormed(pop) && j < |pop| && |rng| >= 2 * MarkedBefore(pop, |pop|)
    ensures !Mutated(pop, rng, j).marked
    ensures !pop[j].marked ==> Mutated(pop, rng, j) == pop[j]
    ensures Mutated(pop, rng, j).quadrants == pop[j].quadrants && Mutated(pop, rng, j).score == pop[j].score
    ensures |Mutated(pop, rng, j).genome.angles| == NumCalculatedAngles
    ensures OneAngleApart(pop[j].genome, Mutated(pop, rng, j).genome)
  {
    if pop[j].marked {
      MarkedBeforeGrows(pop, j, |pop|);
      var d := 2 * MarkedBefore(pop, j);
      MutateChangesOneAngle(pop[j].genome, rng[d], rng[d + 1]);
    }
  }

  /**
   * `doMutations`: marks a tenth of the population, then mutates and
   * unmarks every marked member. Members marked on entry are mutated too.
   * `marked` is the population after the marking loop, which used the first
   * `markDraws` draws; the mutation loop takes the draws after them. `ok` is
   * false when the draws run out.
   */
  method DoMutations(pop: seq<SkeletonState>, rng: seq<nat>)
    returns (newPop: seq<SkeletonState>, marked: seq<SkeletonState>, chosen: seq<nat>, markDraws: nat, used: nat, ok: bool)
    requires WellFormed(pop)
    ensures markDraws <= used <= |rng|
    ensures |marked| == |pop| && forall j :: 0 <= j < |pop| ==> marked[j] == pop[j].(marked := pop[j].marked || j in chosen)
    ensures |newPop| == |pop| && Distinct(chosen)
    ensures forall i :: 0 <= i < |chosen| ==> chosen[i] < |pop| && !pop[chosen[i]].marked
    ensures ok ==> |chosen| == Fraction(|pop|, MutationPercent)
    ensures ok ==> && WellFormed(marked) && |rng| - markDraws >= 2 * MarkedBefore(marked, |marked|)
                   && used == markDraws + 2 * MarkedBefore(marked, |marked|)
                   && forall j :: 0 <= j < |pop| ==> newPop[j] == Mutated(marked, rng[markDraws..], j)
    ensures ok ==> WellFormed(newPop) && NoneMarked(newPop)
    ensures ok ==> forall j :: 0 <= j < |pop| && !pop[j].marked && j !in chosen ==> newPop[j] == pop[j]
    ensures ok ==> forall j :: 0 <= j < |pop| ==>
                     newPop[j].quadrants == pop[j].quadrants && newPop[j].score == pop[j].score
                     && OneAngleApart(pop[j].genome, newPop[j].genome)
  {
    var mutationDraws: nat;
    marked, chosen, markDraws, ok := MarkForMutation(pop, rng);
    newPop, used := marked, markDraws;
    if !ok {
      return;
    }
    assert WellFormed(marked);
    if |rng| - used < 2 * MarkedBefore(marked, |marked|) {
      ok := false;
      return;
    }
    ghost var rest := rng[used..];
    newPop, mutationDraws := MutateMarked(marked, rng[used..]);
    used := used + mutationDraws;
    forall j | 0 <= j < |pop|
      ensures !newPop[j].marked && |newPop[j].genome.angles| == NumCalculatedAngles
      ensures !pop[j].marked && j !in chosen ==> newPop[j] == pop[j]
      ensures newPop[j].quadrants == pop[j].quadrants && newPop[j].score == pop[j].score
      ensures OneAngleApart(pop[j].genome, newPop[j].genome)
    {
      MutatedProperties(marked, rest, j);
    }
  }

  /** A member chosen by the marking loop is mutated with its own two draws and unmarked. */
  lemma ChosenIsMutated(pop: seq<SkeletonState>, marked: seq<SkeletonState>, chosen: seq<nat>, rng: seq<nat>, i: nat)
    requires WellFormed(marked) && |marked| == |pop| && |rng| >= 2 * MarkedBefore(marked, |marked|)
    requires forall j :: 0 <= j < |pop| ==> marked[j] == pop[j].(marked := pop[j].marked || j in chosen)
    requires i < |chosen| && chosen[i] < |pop|
    ensures var j := chosen[i];
            var d := 2 * MarkedBefore(marked, j);
            && d + 1 < |rng|
            && Mutated(marked, rng, j) == pop[j].(genome := MutateGenome(pop[j].genome, rng[d], rng[d + 1]), marked := false)
  {
    var j := chosen[i];
    assert j in chosen;
    assert marked[j] == pop[j].(marked := true);
    MarkedBeforeGrows(marked, j, |marked|);
    var d := 2 * MarkedBefore(marked, j);
    assert Mutated(marked, rng, j) == marked[j].(genome := MutateGenome(marked[j].genome, rng[d], rng[d + 1]), marked := false);
  }

  // ---------------------------------------------------------------- display map

  /** Entry `ii` of the display map: the limb angle shown at that joint of the display skeleton, or -1. */
  function DisplayIndex(ii: nat): int
  {
    if ii == 2 then LeftHipToKnee
    else if ii == 3 then LeftKneeToFoot
    else if ii == 8 then RightHipToKnee
    else if ii == 9 then RightKneeToFoot
    else if ii == 21 then LeftShoulderToElbow
    else if ii == 22 then LeftElbowToWrist
    else if ii == 30 then RightShoulderToElbow
    else if ii == 31 then RightElbowToWrist
    else -1
  }

  /** `createMapForAngles`: the display map entry by entry. */
  method CreateMapForAngles() returns (indices: seq<int>)
    ensures |indices| == NumDisplayedAngles
    ensures forall ii :: 0 <= ii < NumDisplayedAngles ==> indices[ii] == DisplayIndex(ii)
  {
    indices := [];
    var ii := 0;
    while ii < NumDisplayedAngles
      invariant ii <= NumDisplayedAngles && |indices| == ii
      invariant forall k :: 0 <= k < ii ==> indices[k] == DisplayIndex(k)
    {
      var dispIndex: int;
      if ii == 2 {
        dispIndex := LeftHipToKnee;
      } else if ii == 3 {
        dispIndex := LeftKneeToFoot;
      } else if ii == 8 {
        dispIndex := RightHipToKnee;
      } else if ii == 9 {
        dispIndex := RightKneeToFoot;
      } else if ii == 21 {
        dispIndex := LeftShoulderToElbow;
      } else if ii == 22 {
        dispIndex := LeftElbowToWrist;
      } else if ii == 30 {
        dispIndex := RightShoulderToElbow;
      } else if ii == 31 {
        dispIndex := RightElbowToWrist;
      } else {
        dispIndex := -1;
      }
      indices := indices + [dispIndex];
      ii := ii + 1;
    }
  }

  /**
   * The map shows seven of the eight limb angles, each at exactly one
   * joint: its last case (entry 31) lies past the end of the map, so the
   * right elbow-to-wrist angle is never shown.
   */
  lemma DisplayMapContents(indices: seq<int>)
    requires |indices| == NumDisplayedAngles
    requires forall ii :: 0 <= ii < NumDisplayedAngles ==> indices[ii] == DisplayIndex(ii)
    ensures RightElbowToWrist !in indices
    ensures forall k :: 0 <= k < NumCalculatedAngles && k != RightElbowToWrist ==> k in indices
    ensures forall ii, jj :: 0 <= ii < jj < NumDisplayedAngles && indices[ii] != -1 ==> indices[ii] != indices[jj]
  {
    assert indices[2] == 0 && indices[3] == 1 && indices[8] == 2 && indices[9] == 3;
    assert indices[21] == 4 && indices[22] == 5 && indices[30] == 6;
  }

  // ---------------------------------------------------------------- main

  /**
   * The intermediate results of one generation: the scored population, the
   * population and selection after `makeSelection` and the draws it took,
   * the bred population with its parent choices and slot lists and the
   * draws the crossover took, and the population after the mutation
   * marking with the chosen members and the draws the marking took.
   */
  datatype Trace = Trace(scored: seq<SkeletonState>,
                         selected: seq<SkeletonState>, selection: seq<nat>, selectionDraws: nat,
                         bred: seq<SkeletonState>, parents: seq<(nat, nat)>, slotLists: seq<seq<nat>>, crossoverDraws: nat,
                         marked: seq<SkeletonState>, chosen: seq<nat>, markDraws: nat)

  /** `calculateFitnessValues` took `population` to `scored`. */
  predicate ScoredFrom(population: seq<SkeletonState>, c: Coefficients, scored: seq<SkeletonState>)
  {
    && WellFormed(population) && |scored| == |population|
    && forall i :: 0 <= i < |population| ==> scored[i] == UpdateState(population[i], c)
  }

  /**
   * `makeSelection` with exactly `draws` took `scored` to `selected` and
   * picked `selection`, a fifth of the population, the last draw being the
   * one that completed it.
   */
  predicate SelectedFrom(scored: seq<SkeletonState>, draws: seq<nat>, selected: seq<SkeletonState>, selection: seq<nat>)
  {
    && Scored(scored) && (selected, selection) == SelectRun(scored, TotalScore(scored), draws)
    && |selection| == Fraction(|scored|, SelectionPercent)
    && (Fraction(|scored|, SelectionPercent) > 0 ==>
          1 <= |draws| && |SelectRun(scored, TotalScore(scored), draws[..|draws| - 1]).1| < Fraction(|scored|, SelectionPercent))
  }

  /** `doCrossovers` bred `bred` from the survivors of `selected`, exchanging `CrossoverCount` slots per pair. */
  predicate CrossedFrom(selected: seq<SkeletonState>, selection: seq<nat>, bred: seq<SkeletonState>,
                        parents: seq<(nat, nat)>, slotLists: seq<seq<nat>>)
  {
    && (forall i :: 0 <= i < |selection| ==> selection[i] < |selected|)
    && Bred(bred, Survivors(selected, selection), parents, slotLists,
            Max(1, Min(CrossoverCount, NumFixedAttributes + NumCalculatedAngles)))
  }

  /**
   * `doMutations` with `draws` marked the distinct members `chosen` of `bred`,
   * a tenth of them, each unmarked before, using the first `markDraws` draws, and `next` is the
   * mutation loop over the marked population with the draws after those.
   */
  predicate MutatedFrom(bred: seq<SkeletonState>, draws: seq<nat>, marked: seq<SkeletonState>, chosen: seq<nat>,
                        markDraws: nat, next: seq<SkeletonState>)
  {
    && |marked| == |bred| && |next| == |bred| && WellFormed(marked)
    && (forall j :: 0 <= j < |bred| ==> marked[j] == bred[j].(marked := bred[j].marked || j in chosen))
    && Distinct(chosen) && |chosen| == Fraction(|bred|, MutationPercent)
    && (forall i :: 0 <= i < |chosen| ==> chosen[i] < |bred| && !bred[chosen[i]].marked)
    && markDraws <= |draws| && |draws| - markDraws >= 2 * MarkedBefore(marked, |marked|)
    && forall j :: 0 <= j < |bred| ==> next[j] == Mutated(marked, draws[markDraws..], j)
  }

  /**
   * One generation of `main` as recorded in `t`: fitness, then selection
   * with the first draws, crossover with the draws after those, and
   * mutation with the rest, ending at `next`.
   */
  predicate GenerationOf(population: seq<SkeletonState>, c: Coefficients, rng: seq<nat>, t: Trace, next: seq<SkeletonState>)
  {
    && ScoredFrom(population, c, t.scored)
    && t.selectionDraws + t.crossoverDraws <= |rng|
    && SelectedFrom(t.scored, rng[..t.selectionDraws], t.selected, t.selection)
    && CrossedFrom(t.selected, t.selection, t.bred, t.parents, t.slotLists)
    && MutatedFrom(t.bred, rng[t.selectionDraws + t.crossoverDraws..], t.marked, t.chosen, t.markDraws, next)
  }

  /**
   * The selection and crossover passes of one generation: from a scored
   * full population, `makeSelection` with the first draws and then
   * `doCrossovers` with the draws after those give a full population again.
   */
  method SelectAndBreed(scored: seq<SkeletonState>, rng: seq<nat>)
    returns (selected: seq<SkeletonState>, selection: seq<nat>, selectionDraws: nat,
             bred: seq<SkeletonState>, parents: seq<(nat, nat)>, slotLists: seq<seq<nat>>, crossoverDraws: nat, ok: bool)
    requires |scored| == PopulationSize && WellFormed(scored) && Scored(scored)
    ensures selectionDraws + crossoverDraws <= |rng|
    ensures ok ==> && SelectedFrom(scored, rng[..selectionDraws], selected, selection)
                   && CrossedFrom(selected, selection, bred, parents, slotLists)
                   && |bred| == PopulationSize && WellFormed(bred)
  {
    var picked: bool;
    selected, selection, selectionDraws, picked := MakeSelection(scored, rng);
    bred, parents, slotLists, crossoverDraws, ok := [], [], [], 0, false;
    if !picked {
      return;
    }
    assert |selection| == 40;
    assert rng[..selectionDraws][..selectionDraws - 1] == rng[..selectionDraws - 1];
    assert WellFormed(selected) by {
      forall j | 0 <= j < |selected|
        ensures |selected[j].genome.angles| == NumCalculatedAngles
      {
        assert selected[j] == scored[j].(marked := scored[j].marked || j in selection);
      }
    }
    bred, parents, slotLists, crossoverDraws, ok := DoCrossovers(selected, selection, CrossoverCount, rng[selectionDraws..]);
    if ok {
      CrossoverRestoresPopulation(|selection|, |parents|);
    }
  }

  /**
   * One generation of `main`: fitness, selection, crossover and mutation,
   * each pass taking the draws the previous one left. From a full
   * population it returns a full population; `ok` is false when the draws
   * run out.
   */
  method Generation(population: seq<SkeletonState>, c: Coefficients, rng: seq<nat>)
    returns (next: seq<SkeletonState>, trace: Trace, used: nat, ok: bool)
    requires CoefficientsInRange(c) && |population| == PopulationSize && WellFormed(population)
    ensures used <= |rng|
    ensures ok ==> |next| == PopulationSize && WellFormed(next)
    ensures ok ==> GenerationOf(population, c, rng, trace, next)
  {
    var scored := CalculateFitnessValues(population, c);
    assert ScoredFrom(population, c, scored);
    var selected, selection, selectionDraws, bred, parents, slotLists, crossoverDraws, bredOk := SelectAndBreed(scored, rng);
    next, used, ok := population, selectionDraws + crossoverDraws, false;
    trace := Trace(scored, selected, selection, selectionDraws, bred, parents, slotLists, crossoverDraws, [], [], 0);
    if !bredOk {
      return;
    }
    var rest := rng[used..];
    var mutated, marked, chosen, markDraws, mutationDraws, mutatedOk := DoMutations(bred, rest);
    used := used + mutationDraws;
    if !mutatedOk {
      return;
    }
    assert MutatedFrom(bred, rest, marked, chosen, markDraws, mutated);
    trace := Trace(scored, selected, selection, selectionDraws, bred, parents, slotLists, crossoverDraws, marked, chosen, markDraws);
    assert rest == rng[trace.selectionDraws + trace.crossoverDraws..];
    next, ok := mutated, true;
    GenerationOfPasses(population, c, rng, trace, next);
  }

  /**
   * A survivor that is not chosen for mutation enters the next generation
   * as the scored member it was selected from, unmarked.
   */
  lemma SurvivorCarriesOver(population: seq<SkeletonState>, c: Coefficients, rng: seq<nat>, t: Trace,
                            next: seq<SkeletonState>, k: nat)
    requires GenerationOf(population, c, rng, t, next)
    requires k < |t.selection| && k !in t.chosen
    ensures t.selection[k] < |population| && k < |next|
    ensures next[k] == UpdateState(population[t.selection[k]], c).(marked := false)
  {
    var survivors := Survivors(t.selected, t.selection);
    assert t.bred[..|survivors|] == survivors;
    assert t.bred[k] == survivors[k];
    var j := t.selection[k];
    assert t.selected[j] == t.scored[j].(marked := t.selected[j].marked);
    assert t.marked[k] == t.bred[k];
    MutatedProperties(t.marked, rng[t.selectionDraws + t.crossoverDraws..][t.markDraws..], k);
  }

  /** The passes of one generation, each established on its own, make up the generation. */
  lemma GenerationOfPasses(population: seq<SkeletonState>, c: Coefficients, rng: seq<nat>, t: Trace, next: seq<SkeletonState>)
    requires ScoredFrom(population, c, t.scored)
    requires t.selectionDraws + t.crossoverDraws <= |rng|
    requires SelectedFrom(t.scored, rng[..t.selectionDraws], t.selected, t.selection)
    requires CrossedFrom(t.selected, t.selection, t.bred, t.parents, t.slotLists)
    requires MutatedFrom(t.bred, rng[t.selectionDraws + t.crossoverDraws..], t.marked, t.chosen, t.markDraws, next)
    ensures GenerationOf(population, c, rng, t, next)
  {
  }

  /**
   * `main`: generates the population and the display map, runs
   * `IterationCount` generations, then scores the population once more and
   * makes the final selection. `ok` is false when the draws run out.
   */
  method Run(c: Coefficients, rng: seq<nat>)
    returns (population: seq<SkeletonState>, indices: seq<int>, finalSelection: seq<nat>, finalStart: nat, finalDraws: nat, ok: bool)
    requires CoefficientsInRange(c)
    ensures |indices| == NumDisplayedAngles && forall ii :: 0 <= ii < NumDisplayedAngles ==> indices[ii] == DisplayIndex(ii)
    ensures ok ==> |population| == PopulationSize && WellFormed(population) && Scored(population)
    ensures ok ==> forall i :: 0 <= i < |population| ==> population[i].score == Some(Fitness(population[i].genome, c))
    ensures ok ==> finalStart + finalDraws <= |rng|
                   && finalSelection == FinalPicks(population, TotalScore(population), rng[finalStart..][..finalDraws])
    ensures ok ==> |finalSelection| == FinalSelectionSize
    ensures ok ==> forall i :: 0 <= i < |finalSelection| ==>
                     finalSelection[i] < PopulationSize && population[finalSelection[i]].score.value > 0.0
  {
    indices := CreateMapForAngles();
    finalSelection := [];
    if |rng| < PopulationSize * AttributeDraws {
      return [], indices, [], 0, 0, false;
    }
    var used: nat;
    population, used := GenerateSkeletons(PopulationSize, rng);
    var kk := 0;
    while kk < IterationCount
      invariant used <= |rng|
      invariant |population| == PopulationSize && WellFormed(population)
    {
      var next, _, generationDraws, generated := Generation(population, c, rng[used..]);
      used := used + generationDraws;
      if !generated {
        return population, indices, [], 0, 0, false;
      }
      population := next;
      kk := kk + 1;
    }
    population := CalculateFitnessValues(population, c);
    finalStart := used;
    finalSelection, finalDraws, ok := MakeFinalSelection(population, FinalSelectionSize, rng[used..]);
  }
}
