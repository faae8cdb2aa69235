/**
 * Crossover between two skeletons (`swapValues` in both Skeleton variants):
 * a set of distinct attribute slots is drawn, then the two genomes exchange
 * the values held in those slots. Slots 0 to 4 are weight, space, time, flow
 * and height; slot 5 + k is limb angle k, exchangeable only when both
 * genomes have that angle.
 */
module SlotSwap {
  import opened DataTypes
  import opened Common
  import opened SkeletonLayout

  /** Number of non-angle attributes that take part in a crossover. */
  const NumFixedAttributes: nat := 5

  function Min(x: nat, y: nat): nat { if x < y then x else y }
  function Max(x: nat, y: nat): nat { if x < y then y else x }

  predicate Distinct(s: seq<nat>)
  {
    forall i, j :: 0 <= i < j < |s| ==> s[i] != s[j]
  }

  /** The values of `s` in order of first appearance, each once. */
  function Dedup(s: seq<nat>): (r: seq<nat>)
    ensures Distinct(r)
    ensures forall x :: x in r <==> x in s
    ensures |r| <= |s|
  {
    if s == [] then []
    else
      var init := s[..|s| - 1];
      var d := Dedup(init);
      assert s == init + [s[|s| - 1]];
      if s[|s| - 1] in d then d else d + [s[|s| - 1]]
  }

  /** The slot indices that a sequence of raw draws produces, for `numAttributes` slots. */
  function SlotDraws(numAttributes: nat, raws: seq<nat>): (r: seq<nat>)
    requires numAttributes >= 1
    ensures |r| == |raws|
    ensures forall i :: 0 <= i < |r| ==> r[i] < numAttributes
  {
    seq(|raws|, i requires 0 <= i < |raws| => RandUnsignedInRange(numAttributes - 1, raws[i]))
  }

  /**
   * The retry loop of `swapValues`: draws slot indices until `realSwap`
   * distinct ones are held (at least one is always taken). A draw already
   * held is discarded. `ok` is false only when the draws run out first;
   * the source would keep drawing.
   */
  method CollectSlotIndices(numAttributes: nat, realSwap: nat, rng: seq<nat>)
    returns (indices: seq<nat>, used: nat, ok: bool)
    requires numAttributes >= 1 && realSwap <= numAttributes
    ensures used <= |rng|
    ensures indices == Dedup(SlotDraws(numAttributes, rng[..used]))
    ensures Distinct(indices) && forall i :: 0 <= i < |indices| ==> indices[i] < numAttributes
    ensures ok ==> |indices| == Max(1, realSwap)
    ensures ok ==> 1 <= used && |Dedup(SlotDraws(numAttributes, rng[..used - 1]))| < Max(1, realSwap)
    ensures !ok ==> used == |rng| && |indices| < Max(1, realSwap)
  {
    indices, used := [], 0;
    var tryAgain := true;
    ghost var before: seq<nat> := [];
    while tryAgain && used < |rng|
      invariant used <= |rng|
      invariant indices == Dedup(SlotDraws(numAttributes, rng[..used]))
      invariant tryAgain ==> |indices| < Max(1, realSwap)
      invariant !tryAgain ==> 1 <= used && |indices| == Max(1, realSwap)
      invariant !tryAgain ==> before == Dedup(SlotDraws(numAttributes, rng[..used - 1])) && |before| < Max(1, realSwap)
      decreases |rng| - used, tryAgain
    {
      var anIndex := RandUnsignedInRange(numAttributes - 1, rng[used]);
      DedupNextDraw(numAttributes, rng, used);
      before := indices;
      used := used + 1;
      tryAgain := anIndex in indices;
      if !tryAgain {
        indices := indices + [anIndex];
        if realSwap > |indices| {
          tryAgain := true;
        }
      }
    }
    ok := !tryAgain;
    DedupDrawsInRange(numAttributes, rng[..used]);
  }

  /** One more draw appends its slot to the distinct slots drawn so far, unless that slot is already held. */
  lemma DedupNextDraw(numAttributes: nat, rng: seq<nat>, used: nat)
    requires numAttributes >= 1 && used < |rng|
    ensures var held := Dedup(SlotDraws(numAttributes, rng[..used]));
            var x := RandUnsignedInRange(numAttributes - 1, rng[used]);
            Dedup(SlotDraws(numAttributes, rng[..used + 1])) == if x in held then held else held + [x]
  {
    assert SlotDraws(numAttributes, rng[..used + 1])
        == SlotDraws(numAttributes, rng[..used]) + [RandUnsignedInRange(numAttributes - 1, rng[used])];
  }

  /** Every distinct slot drawn is a valid slot. */
  lemma DedupDrawsInRange(numAttributes: nat, raws: seq<nat>)
    requires numAttributes >= 1
    ensures forall i :: 0 <= i < |Dedup(SlotDraws(numAttributes, raws))| ==> Dedup(SlotDraws(numAttributes, raws))[i] < numAttributes
  {
    var d := Dedup(SlotDraws(numAttributes, raws));
    forall i | 0 <= i < |d| ensures d[i] < numAttributes {
      assert d[i] in SlotDraws(numAttributes, raws);
    }
  }

  /** The value a genome holds in a crossover slot. */
  datatype Allele = WeightAllele(w: Weight) | SpaceAllele(s: Space) | TimeAllele(t: Time)
                  | FlowAllele(f: Flow) | HeightAllele(h: Height) | AngleAllele(a: real) | NoAllele

  function AlleleAt(g: Genome, slot: nat): Allele
  {
    if slot == 0 then WeightAllele(g.weight)
    else if slot == 1 then SpaceAllele(g.space)
    else if slot == 2 then TimeAllele(g.time)
    else if slot == 3 then FlowAllele(g.flow)
    else if slot == 4 then HeightAllele(g.height)
    else if slot - NumFixedAttributes < |g.angles| then AngleAllele(g.angles[slot - NumFixedAttributes])
    else NoAllele
  }

  /** Two genomes agree when their angle vectors have the same length and every slot holds the same value. */
  lemma GenomeByAlleles(a: Genome, b: Genome)
    requires |a.angles| == |b.angles|
    requires forall slot: nat :: slot < NumFixedAttributes + |a.angles| ==> AlleleAt(a, slot) == AlleleAt(b, slot)
    ensures a == b
  {
    assert AlleleAt(a, 0) == AlleleAt(b, 0) && AlleleAt(a, 1) == AlleleAt(b, 1) && AlleleAt(a, 2) == AlleleAt(b, 2);
    assert AlleleAt(a, 3) == AlleleAt(b, 3) && AlleleAt(a, 4) == AlleleAt(b, 4);
    forall k | 0 <= k < |a.angles| ensures a.angles[k] == b.angles[k] {
      assert AlleleAt(a, NumFixedAttributes + k) == AlleleAt(b, NumFixedAttributes + k);
    }
  }

  /** A slot both genomes have: a fixed attribute, or an angle index below both lengths. */
  predicate Exchangeable(p: (Genome, Genome), slot: nat)
  {
    slot < NumFixedAttributes + Min(|p.0.angles|, |p.1.angles|)
  }

  /** Exchange one slot between the two genomes; a slot past the shorter angle vector changes nothing. */
  function SwapSlot(p: (Genome, Genome), slot: nat): (r: (Genome, Genome))
    ensures |r.0.angles| == |p.0.angles| && |r.1.angles| == |p.1.angles|
  {
    var (a, b) := p;
    if slot == 0 then (a.(weight := b.weight), b.(weight := a.weight))
    else if slot == 1 then (a.(space := b.space), b.(space := a.space))
    else if slot == 2 then (a.(time := b.time), b.(time := a.time))
    else if slot == 3 then (a.(flow := b.flow), b.(flow := a.flow))
    else if slot == 4 then (a.(height := b.height), b.(height := a.height))
    else if Exchangeable(p, slot) then
      var k := slot - NumFixedAttributes;
      (a.(angles := a.angles[k := b.angles[k]]), b.(angles := b.angles[k := a.angles[k]]))
    else p
  }

  /** Exchange the listed slots, in order. */
  function SwapSlots(p: (Genome, Genome), slots: seq<nat>): (r: (Genome, Genome))
    ensures |r.0.angles| == |p.0.angles| && |r.1.angles| == |p.1.angles|
  {
    if slots == [] then p else SwapSlot(SwapSlots(p, slots[..|slots| - 1]), slots[|slots| - 1])
  }

  /** Exchanging one more slot extends a list of exchanges. */
  lemma SwapSlotsSnoc(p: (Genome, Genome), slots: seq<nat>, slot: nat)
    ensures SwapSlots(p, slots + [slot]) == SwapSlot(SwapSlots(p, slots), slot)
  {
    assert (slots + [slot])[..|slots|] == slots;
  }

  /** One exchange moves exactly that slot's two values across, leaving every other slot in place. */
  lemma SwapSlotAlleles(p: (Genome, Genome), slot: nat, other: nat)
    ensures var r := SwapSlot(p, slot);
            && AlleleAt(r.0, other) == (if other == slot && Exchangeable(p, slot) then AlleleAt(p.1, other) else AlleleAt(p.0, other))
            && AlleleAt(r.1, other) == (if other == slot && Exchangeable(p, slot) then AlleleAt(p.0, other) else AlleleAt(p.1, other))
  {
  }

  /**
   * Exchanging a list of distinct slots leaves each genome holding the
   * other's values in exactly the listed exchangeable slots and its own
   * values everywhere else.
   */
  lemma {:induction false} SwapSlotsExchanges(p: (Genome, Genome), slots: seq<nat>, slot: nat)
    requires Distinct(slots)
    ensures var r := SwapSlots(p, slots);
            && AlleleAt(r.0, slot) == (if slot in slots && Exchangeable(p, slot) then AlleleAt(p.1, slot) else AlleleAt(p.0, slot))
            && AlleleAt(r.1, slot) == (if slot in slots && Exchangeable(p, slot) then AlleleAt(p.0, slot) else AlleleAt(p.1, slot))
  {
    if slots != [] {
      var init := slots[..|slots| - 1];
      var last := slots[|slots| - 1];
      assert slots == init + [last];
      assert Distinct(init);
      assert last !in init;
      SwapSlotsExchanges(p, init, slot);
      SwapSlotAlleles(SwapSlots(p, init), last, slot);
    }
  }

  /** Exchanging a slot twice restores both genomes. */
  lemma SwapSlotInvolution(p: (Genome, Genome), slot: nat)
    ensures SwapSlot(SwapSlot(p, slot), slot) == p
  {
    var r := SwapSlot(SwapSlot(p, slot), slot);
    forall s: nat | s < NumFixedAttributes + |p.0.angles|
      ensures AlleleAt(r.0, s) == AlleleAt(p.0, s)
    {
      SwapSlotAlleles(p, slot, s);
      SwapSlotAlleles(SwapSlot(p, slot), slot, s);
    }
    forall s: nat | s < NumFixedAttributes + |p.1.angles|
      ensures AlleleAt(r.1, s) == AlleleAt(p.1, s)
    {
      SwapSlotAlleles(p, slot, s);
      SwapSlotAlleles(SwapSlot(p, slot), slot, s);
    }
    GenomeByAlleles(r.0, p.0);
    GenomeByAlleles(r.1, p.1);
  }

  /** Exchanges of two slots can be done in either order. */
  lemma SwapSlotCommute(p: (Genome, Genome), i: nat, j: nat)
    ensures SwapSlot(SwapSlot(p, i), j) == SwapSlot(SwapSlot(p, j), i)
  {
    var r, t := SwapSlot(SwapSlot(p, i), j), SwapSlot(SwapSlot(p, j), i);
    forall s: nat | s < NumFixedAttributes + |p.0.angles|
      ensures AlleleAt(r.0, s) == AlleleAt(t.0, s)
    {
      SwapSlotAlleles(p, i, s);
      SwapSlotAlleles(SwapSlot(p, i), j, s);
      SwapSlotAlleles(p, j, s);
      SwapSlotAlleles(SwapSlot(p, j), i, s);
    }
    forall s: nat | s < NumFixedAttributes + |p.1.angles|
      ensures AlleleAt(r.1, s) == AlleleAt(t.1, s)
    {
      SwapSlotAlleles(p, i, s);
      SwapSlotAlleles(SwapSlot(p, i), j, s);
      SwapSlotAlleles(p, j, s);
      SwapSlotAlleles(SwapSlot(p, j), i, s);
    }
    GenomeByAlleles(r.0, t.0);
    GenomeByAlleles(r.1, t.1);
  }

  /** A single exchange can be moved from the front of a list of exchanges to its end. */
  lemma {:induction false} SwapSlotsCommute(p: (Genome, Genome), slot: nat, slots: seq<nat>)
    ensures SwapSlots(SwapSlot(p, slot), slots) == SwapSlot(SwapSlots(p, slots), slot)
  {
    if slots != [] {
      var init := slots[..|slots| - 1];
      var last := slots[|slots| - 1];
      SwapSlotsCommute(p, slot, init);
      SwapSlotCommute(SwapSlots(p, init), slot, last);
    }
  }

  /** Repeating a crossover with the same slots gives both parents back. */
  lemma {:induction false} SwapSlotsTwiceRestores(p: (Genome, Genome), slots: seq<nat>)
    ensures SwapSlots(SwapSlots(p, slots), slots) == p
  {
    if slots != [] {
      var init := slots[..|slots| - 1];
      var last := slots[|slots| - 1];
      var r := SwapSlots(p, init);
      SwapSlotsTwiceRestores(p, init);
      SwapSlotsCommute(r, last, init);
      SwapSlotInvolution(p, last);
    }
  }
}
