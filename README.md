# Scuddle in Dafny

Scuddle is a small genetic algorithm. It evolves a population of "movement"
individuals toward a hand-written aesthetic fitness rule.

## The individual

Each individual is a skeleton with:
- eight limb angles (radians), laid out as left/right hip-to-knee and
  knee-to-foot, then left/right shoulder-to-elbow and elbow-to-wrist;
- four binary Laban Effort qualities (Weight, Space, Time, Flow);
- a five-level Height.

Fitness comes from three steps:
- each angle is classified into a quadrant (1-4) through a fixed per-limb
  threshold table;
- a Bartenieff pattern and an Effort tier are chosen by first-match rule
  chains;
- the resulting factor sum is scaled by the quadrant sum, adjusted for
  Height.

## The algorithm

The population engine runs five generations of:
- fitness;
- roulette selection of a fifth of the population, without replacement,
  using per-individual marks;
- crossover by slot exchange between copies of two distinct parents, until
  the population is back to 200;
- mutation of one angle in a tenth of the population.

A final roulette selection, with replacement, then picks five individuals.

## The model

The project models the active build (`USE_SKELETON_`) and the two
alternatives kept in the repository:
- the named-field `Body` variant, with its 13-slot crossover and
  leg-extension height factor;
- the older variable-length `Skeleton`, whose fitness has no Bartenieff
  term.

It also models:
- the clamped coefficient `ConstrainedValue`;
- the enum/number conversions, angle classification and random-range
  helpers of both trees.

Modules:

| module | what it models |
|---|---|
| `DataTypes` (datatypes.dfy) | Effort/Height enums, `Genome`, `Option`, `Clamp` and the `ConstrainedValue` class |
| `Common` (common.dfy) | degree/radian conversion, `MapAngleToQuadrant`, `ReallyClose`, the quality and height conversions, the random-range helpers |
| `LegacyCommon` (legacy_common.dfy) | the older tree's threshold conversions and `RandInRange` |
| `SkeletonLayout` (skeleton_layout.dfy) | the angle layout, the quadrant table and the quadrant sum |
| `SkeletonFitness` (skeleton_fitness.dfy) | the coefficients, the Bartenieff, Effort and Height rule chains, and the score |
| `SlotSwap` (slot_swap.dfy) | the slot-index retry loop and slot-exchange crossover, shared by all three individuals |
| `Skeleton` (skeleton.dfy) | the `Skeleton` class and its abstract state, and the coefficient set with `resetParameters` |
| `Body` (body.dfy) | the `Body` class and its coefficient set |
| `LegacySkeleton` (legacy_skeleton.dfy) | the older variable-length `Skeleton` class |
| `Engine` (engine.dfy) | the population engine of `ScuddleMain.cpp` |

Modelling choices:
- **Numbers.** Angles, scores and coefficients are `real`. π and the
  closeness tolerance ε are constants that are only assumed positive, with
  ε below 1/2. No proof depends on their values.
- **Randomness.** Every `rand()` call is one raw value taken from an
  injected stream `rng: seq<nat>`.
  - `RandRealInRange`, `RandUnsignedInRange` and `RandomAngle` are exact
    functions of that raw value, with modulus 1000 and divisor 999.
  - Methods return how many draws they used.
  - Where the source retries until a condition holds, the model consumes
    the stream. It reports `ok == false` if the stream runs out first.
- **Classes and values.** Classes model the objects whose fields the source
  updates in place. Each class has a value view: `Genes()` for the genome
  and `State()` for the genome, quadrants, cached score and mark.
- **The engine's population** is a sequence of those values
  (`SkeletonState`) rebuilt step by step by methods with loop invariants.

## Model

| member | source | states |
|---|---|---|
| DataTypes.HeightRank | Source/ScuddleDataTypes.h:67-84 | every Height level has a position in the ordered list of the five levels |
| DataTypes.HeightLevelsExact | Source/ScuddleDataTypes.h:56-117 | Height has exactly five distinct ordered levels and every value is one of them |
| DataTypes.Clamp | Source/ScuddleDataTypes.h:177-181 | the clamped value lies in [min, max]; it equals the argument exactly when the argument is in range, otherwise the nearer bound |
| DataTypes.ClampIdempotent | Source/ScuddleDataTypes.h:170-181 | setting a clamped value again changes nothing |
| DataTypes.ClampMonotone | Source/ScuddleDataTypes.h:177-181 | clamping preserves order |
| DataTypes.ConstrainedValue.constructor | Source/ScuddleDataTypes.h:137-148 | with min < max, the object keeps min, max and default, and starts at clamp(default) |
| DataTypes.ConstrainedValue.Create | Source/ScuddleDataTypes.h:137-148 | construction is rejected exactly when min >= max; otherwise the value starts at clamp(default) |
| DataTypes.ConstrainedValue.GetRange | Source/ScuddleDataTypes.h:153-159 | returns the constructor's min and max, and min < max |
| DataTypes.ConstrainedValue.GetValue | Source/ScuddleDataTypes.h:163-167 | returns the current value, which lies within [min, max] |
| DataTypes.ConstrainedValue.SetValue | Source/ScuddleDataTypes.h:177-181 | the new current value is the argument clamped to [min, max] |
| DataTypes.ConstrainedValue.ResetValue | Source/ScuddleDataTypes.h:170-173 | the current value becomes clamp(default), the same as setting the default |
| Common.DegreesToRadians | Source/ScuddleCommon.cpp:113-121 | non-negative degrees give non-negative radians |
| Common.RadiansToDegrees | Source/ScuddleCommon.cpp:343-351 | non-negative radians give non-negative degrees |
| Common.DegreesRadiansRoundTrip | Source/ScuddleCommon.cpp:113-121 | the two conversions are inverse in both directions |
| Common.DegreesToRadiansMonotone | Source/ScuddleCommon.cpp:113-121 | the conversion preserves and reflects order |
| Common.MapAngleToQuadrant | Source/ScuddleCommon.cpp:123-152 | the result is always one of the four given quadrants |
| Common.MapAngleToQuadrantBands | Source/ScuddleCommon.cpp:123-152 | degrees minus ε selects the first quadrant whose threshold is at least it, else the fourth |
| Common.ReallyCloseProperties | Source/ScuddleCommon.cpp:374-378 | closeness is reflexive and symmetric, and on whole numbers it is equality |
| Common.MapFlowToReal | Source/ScuddleCommon.cpp:154-170 | Free maps to 0 and Bound to 1 |
| Common.MapSpaceToReal | Source/ScuddleCommon.cpp:289-305 | Indirect maps to 0 and Direct to 1 |
| Common.MapTimeToReal | Source/ScuddleCommon.cpp:307-323 | Sustained maps to 0 and Sudden to 1 |
| Common.MapWeightToReal | Source/ScuddleCommon.cpp:325-341 | Light maps to 0 and Strong to 1 |
| Common.MapHeightToReal | Source/ScuddleCommon.cpp:172-200 | Height Low..High maps to 0..4 |
| Common.QualityRoundTrips | Source/ScuddleCommon.cpp:202-287 | converting any quality or Height to a number and back returns it |
| Common.RealToQualityCharacterised | Source/ScuddleCommon.cpp:202-287 | a number maps to the 1-valued quality exactly when it is within ε of 1; Height is the level it is close to, and Low when it is close to none of 1..4 |
| Common.RandRealInRange | Source/ScuddleCommon.cpp:358-366 | the result lies in the closed interval between the two bounds |
| Common.RandRealInRangeEnds | Source/ScuddleCommon.cpp:358-366 | both ends of the interval are reachable |
| Common.RandUnsignedInRange | Source/ScuddleCommon.cpp:368-372 | the result lies in [0, high] |
| Common.RandUnsignedInRangeCovers | Source/ScuddleCommon.cpp:368-372 | every value in [0, min(high, RAND_MAX / 1000)] is drawn by some value rand() can return |
| Common.RandUnsignedInRangeCap | Source/ScuddleCommon.cpp:368-372 | no value rand() can return draws an index above RAND_MAX / 1000 (32 where RAND_MAX is 32767) |
| Common.RandomAngle | Source/ScuddleCommon.cpp:353-356 | the angle lies in [0, DegreesToRadians(max)], i.e. [0, max] degrees |
| LegacyCommon.LegacyRoundTrips | ScuddleCommon.cpp:109-296 | the older conversions also round-trip every quality and Height |
| LegacyCommon.LegacyHeightIsCappedFloor | ScuddleCommon.cpp:172-197 | the older Height reading is floor(v + ε) capped to 0..4 |
| LegacyCommon.LegacyHeightMonotone | ScuddleCommon.cpp:172-197 | the older Height reading is a monotone step function |
| LegacyCommon.ReadingsAgreeOnLevels | ScuddleCommon.cpp:172-197 | on the five level values the older threshold reading agrees with the closeness reading of Source/ScuddleCommon.cpp |
| LegacyCommon.RandInRange | ScuddleCommon.cpp:308-324 | the result lies in [lo, hi), the upper end excluded |
| LegacyCommon.RandInRangeLowEnd | ScuddleCommon.cpp:308-324 | the lower end is reachable |
| SkeletonLayout.AngleLimit | Source/ScuddleSkeleton.cpp:282-306 | shoulder and hip limbs range over 360 degrees, elbow and knee limbs over 180 |
| SkeletonLayout.QuadrantOf | Source/ScuddleSkeleton.cpp:216-242 | every limb angle falls in a quadrant 1..4 |
| SkeletonLayout.Quadrants | Source/ScuddleSkeleton.cpp:216-242 | eight angles give eight quadrants, each 1..4 |
| SkeletonLayout.QuadrantsWrittenOut | Source/ScuddleSkeleton.cpp:216-236 | each limb uses the fixed per-limb thresholds and quadrants of the table |
| SkeletonLayout.QuadrantTableBoundaries | Source/ScuddleCommon.cpp:123-152 | a threshold angle falls in the lower band, and an angle past the last threshold gets the fourth quadrant |
| SkeletonLayout.SumBounds | Source/ScuddleSkeleton.cpp:237-241 | a sum of n quadrants lies in n..4n |
| SkeletonLayout.SumMinimalIffAllOnes | Source/ScuddleSkeleton.cpp:461-469 | the quadrant sum equals the count exactly when every quadrant is 1 |
| SkeletonLayout.QuadrantScoreBounds | Source/ScuddleSkeleton.cpp:216-242 | the quadrant score lies in 8..32 |
| SkeletonFitness.CriticalAngle | Source/ScuddleSkeleton.cpp:455 | the critical angle of 30 degrees is positive |
| SkeletonFitness.CloseOnBits | Source/ScuddleSkeleton.cpp:514-519 | on the values 0 and 1, closeness is equality |
| SkeletonFitness.EffortTierByCount | Source/ScuddleSkeleton.cpp:508-526 | Effort is Low when none or all four qualities are 1-valued, Medium when exactly two are, else High |
| SkeletonFitness.AdjustedScore | Source/ScuddleSkeleton.cpp:528-536 | the quadrant score plus 1 or 3 for Height lies in 9..35 |
| SkeletonFitness.DistalIffAllQuadrantsOne | Source/ScuddleSkeleton.cpp:461-469 | the Distal pattern holds exactly when all eight quadrants are 1 |
| SkeletonFitness.MedialNeedsScoreTwelve | Source/ScuddleSkeleton.cpp:470-478 | Medial needs quadrant score 12 with aligned limbs, and some quadrant other than 1 |
| SkeletonFitness.ScoreBounds | Source/ScuddleSkeleton.cpp:546 | with coefficients in range the score lies in [0, 30 × adjusted score], and it is positive when the Effort coefficients are |
| SkeletonFitness.FitnessBounds | Source/ScuddleSkeleton.cpp:453-547 | with coefficients in range fitness is non-negative and at most 30 × the adjusted score |
| SkeletonFitness.FitnessPositive | Source/ScuddleSkeleton.cpp:453-547 | with positive Effort coefficients fitness is positive |
| SkeletonFitness.InitialCoefficientsScorePositive | Source/ScuddleSkeleton.cpp:66-90 | the initial coefficients are in range and give every genome a positive fitness |
| SlotSwap.Dedup | Source/ScuddleSkeleton.cpp:390-413 | keeps the first occurrence of each draw: distinct, same members, no longer |
| SlotSwap.SlotDraws | Source/ScuddleSkeleton.cpp:392 | each raw draw becomes a slot index below the attribute count |
| SlotSwap.CollectSlotIndices | Source/ScuddleSkeleton.cpp:387-413 | the indices are the distinct draws in order; on success there are max(1, realSwap) of them and the last draw was the one that completed them |
| SlotSwap.GenomeByAlleles | Source/ScuddleSkeleton.cpp:414-450 | two genomes with the same alleles in every slot are equal |
| SlotSwap.SwapSlot | Source/ScuddleSkeleton.cpp:418-448 | exchanging one slot keeps both angle counts |
| SlotSwap.SwapSlots | Source/ScuddleSkeleton.cpp:414-450 | exchanging a list of slots keeps both angle counts |
| SlotSwap.SwapSlotsSnoc | Source/ScuddleSkeleton.cpp:414-450 | the slots are exchanged in list order |
| SlotSwap.SwapSlotAlleles | Source/ScuddleSkeleton.cpp:418-448 | one exchange swaps exactly the named slot, and only when both individuals have it |
| SlotSwap.SwapSlotsExchanges | Source/ScuddleSkeleton.cpp:414-450 | after exchanging distinct slots, each listed slot is swapped and every other slot is unchanged |
| SlotSwap.SwapSlotInvolution | Source/ScuddleSkeleton.cpp:418-448 | exchanging a slot twice restores both individuals |
| SlotSwap.SwapSlotCommute | Source/ScuddleSkeleton.cpp:418-448 | exchanges of two slots commute |
| SlotSwap.SwapSlotsCommute | Source/ScuddleSkeleton.cpp:414-450 | one exchange commutes with a list of exchanges |
| SlotSwap.SwapSlotsTwiceRestores | Source/ScuddleSkeleton.cpp:364-451 | exchanging the same slot list twice restores both individuals |
| Skeleton.HeightFromDraw | Source/ScuddleSkeleton.cpp:340-361 | a draw in [0, 1] lands in the Height level whose fifth of the interval contains it |
| Skeleton.AngleDraw | Source/ScuddleSkeleton.cpp:328-335 | the angles are drawn shoulders and elbows first, hips and knees second |
| Skeleton.NewGenome | Source/ScuddleSkeleton.cpp:321-362 | a fresh genome has eight angles |
| Skeleton.NewGenomeInDomain | Source/ScuddleSkeleton.cpp:321-362 | each fresh angle lies within its limb's 360 or 180 degree range |
| Skeleton.UpdateStateIdempotent | Source/ScuddleSkeleton.cpp:453-547 | updating fitness twice gives the same state as once; genome and mark are unchanged; the score is non-negative with coefficients in range |
| Skeleton.MutateChangesOneAngle | Source/ScuddleSkeleton.cpp:282-306 | mutation rewrites only the drawn angle, within its limb's range; qualities, Height and other angles are unchanged |
| Skeleton.SkeletonParameters.CurrentInRange | Source/ScuddleSkeleton.cpp:150-177 | the current coefficients lie within their [0, 10] bounds |
| Skeleton.SkeletonParameters.constructor | Source/ScuddleSkeleton.cpp:150-177 | the coefficients start at their initial values |
| Skeleton.SkeletonParameters.NewWeight | Source/ScuddleSkeleton.cpp:150-177 | each coefficient is a [0, 10] clamped value starting at its initial setting |
| Skeleton.SkeletonParameters.ResetParameters | Source/ScuddleSkeleton.cpp:308-319 | every coefficient is restored to its initial value |
| Skeleton.Skeleton.constructor | Source/ScuddleSkeleton.cpp:191-195 | a new skeleton holds a fresh genome, quadrants all -1, no score, unmarked |
| Skeleton.Skeleton.Copy | Source/ScuddleSkeleton.cpp:197-206 | the copy has the original's angles, quadrants, Effort and Height, and starts unmarked |
| Skeleton.Skeleton.DetermineQuadrants | Source/ScuddleSkeleton.cpp:216-242 | quadrants are recomputed from the angles and the quadrant score is their sum; nothing else changes |
| Skeleton.Skeleton.SumQuadrants | Source/ScuddleSkeleton.cpp:237-241 | the loop computes the quadrant sum |
| Skeleton.Skeleton.UpdateFitness | Source/ScuddleSkeleton.cpp:453-547 | the new state has recomputed quadrants and the fitness score; the quadrant score ends as the Height-adjusted score |
| Skeleton.Skeleton.Mutate | Source/ScuddleSkeleton.cpp:282-306 | uses two draws and replaces the genome by the single-angle mutation; only the angles may change, so quadrants, scores and mark are kept |
| Skeleton.Skeleton.SwapValues | Source/ScuddleSkeleton.cpp:364-451 | swaps max(1, min(numSwap, 13)) distinct slots drawn in order; quadrants, scores and marks are untouched |
| Skeleton.Skeleton.ExchangeSlot | Source/ScuddleSkeleton.cpp:418-448 | one switch case: the named slot is exchanged and nothing else changes |
| Skeleton.Skeleton.GetAngleAsDegrees | Source/ScuddleSkeleton.cpp:244-258 | an index in range gives that angle in degrees; out of range gives a random angle in [0, 360] |
| Skeleton.Skeleton.GetNumAngles | Source/ScuddleSkeleton.cpp:276-280 | returns the number of angles, which is 8 |
| Skeleton.Skeleton.GetFitnessScore | Source/ScuddleSkeleton.h:161-165 | returns the cached score without recomputing it |
| Skeleton.Skeleton.GetFlow | Source/ScuddleSkeleton.h:169-173 | returns the Flow quality |
| Skeleton.Skeleton.GetHeight | Source/ScuddleSkeleton.h:177-181 | returns the Height |
| Skeleton.Skeleton.GetSpace | Source/ScuddleSkeleton.h:190-194 | returns the Space quality |
| Skeleton.Skeleton.GetTime | Source/ScuddleSkeleton.h:198-202 | returns the Time quality |
| Skeleton.Skeleton.GetWeight | Source/ScuddleSkeleton.h:213-217 | returns the Weight quality |
| Skeleton.Skeleton.IsMarked | Source/ScuddleSkeleton.h:221-225 | returns the mark |
| Skeleton.Skeleton.SetMark | Source/ScuddleSkeleton.h:266-269 | sets the mark and changes nothing else |
| Skeleton.Skeleton.ClearMark | Source/ScuddleSkeleton.h:86-89 | clears the mark and changes nothing else |
| Body.LayoutIndex | Source/ScuddleBody.cpp:325-374 | the Body's case order of the angles maps one-to-one onto the Skeleton layout |
| Body.SkeletonSlot | Source/ScuddleBody.cpp:504-558 | each of the 13 Body slots names a Skeleton slot |
| Body.SkeletonSlotBijective | Source/ScuddleBody.cpp:504-558 | the Body slot numbering is a bijection onto the Skeleton's 13 slots |
| Body.SkeletonSlots | Source/ScuddleBody.cpp:504-558 | a slot list keeps its length when renumbered |
| Body.SkeletonSlotsDistinct | Source/ScuddleBody.cpp:476-500 | distinct Body slots stay distinct when renumbered |
| Body.MutateBodyChangesOneAngle | Source/ScuddleBody.cpp:325-374 | mutation rewrites one angle field, 360-degree limbs for cases 0/2/4/6 and 180-degree limbs for 1/3/5/7, and nothing else |
| Body.BodyHeightFactor | Source/ScuddleBody.cpp:654-676 | the height factor is defined exactly for MidLow, Middle and MidHigh |
| Body.LegTiers | Source/ScuddleBody.cpp:654-676 | the disjunction as written selects the fully-extended, lower-leg-extended and unextended tiers |
| Body.BodyScoreBounds | Source/ScuddleBody.cpp:677 | with coefficients in range the score lies in [0, 30 × adjusted score] |
| Body.BodyFitness | Source/ScuddleBody.cpp:570-678 | fitness is defined exactly when Height is MidLow, Middle or MidHigh |
| Body.BodyFitnessMatchesSkeleton | Source/ScuddleBody.cpp:570-678 | with unextended legs Body fitness equals Skeleton fitness: the chains are the same |
| Body.BodyFitnessBounds | Source/ScuddleBody.cpp:570-678 | a defined Body fitness lies in [0, 30 × adjusted score] |
| Body.BodyParameters.CurrentInRange | Source/ScuddleBody.cpp:185-218 | the eleven coefficients lie within their bounds |
| Body.BodyParameters.constructor | Source/ScuddleBody.cpp:185-218 | the coefficients start at their initial values |
| Body.BodyParameters.ResetParameters | Source/ScuddleBody.cpp:376-389 | all eleven coefficients are restored to their initial values |
| Body.Body.constructor | Source/ScuddleBody.cpp:391-429 | a new Body holds a fresh genome drawn as the Skeleton's, with no score, unmarked |
| Body.Body.Copy | Source/ScuddleBody.cpp:282-294 | the copy has the original's angles, Effort and Height, and starts unmarked |
| Body.Body.DetermineQuadrants | Source/ScuddleBody.cpp:305-323 | the named quadrant fields follow the table and the quadrant score is their sum; no other field may change |
| Body.Body.UpdateFitness | Source/ScuddleBody.cpp:570-678 | the score is the Body fitness, defined exactly for crouched Heights; only the quadrant and score fields may change, so genome and mark are kept |
| Body.Body.ChooseBartenieffFactor | Source/ScuddleBody.cpp:578-623 | the first-match chain gives the same factor as the Skeleton's |
| Body.Body.ChooseHeightFactor | Source/ScuddleBody.cpp:654-676 | for crouched Heights the chain gives the leg-tier factor |
| Body.Body.Mutate | Source/ScuddleBody.cpp:325-374 | uses three draws and replaces the genome by the single-angle mutation; quadrants, scores and mark are untouched |
| Body.Body.SwapValues | Source/ScuddleBody.cpp:454-568 | swaps max(1, min(numSwap, 13)) distinct slots, as the Skeleton swap on renumbered slots; quadrants, scores and marks of both are untouched |
| Body.Body.ExchangeSlot | Source/ScuddleBody.cpp:504-558 | one switch case: the named slot is exchanged and nothing else changes |
| Body.Body.ExchangeAngle | Source/ScuddleBody.cpp:506-537 | an angle case swaps only that angle field between the two Bodies |
| Body.Body.GetLeftKneeToFootAngle | Source/ScuddleBody.h:195-199 | returns the left elbow-to-wrist angle, as written, so it differs from the knee-to-foot angle whenever knee and elbow differ |
| Body.Body.GetRightKneeToFootAngle | Source/ScuddleBody.h:330-334 | returns the right elbow-to-wrist angle, as written, so it differs from the knee-to-foot angle whenever knee and elbow differ |
| Body.Body.GetLeftElbowToWristAngle | Source/ScuddleBody.h:133-137 | returns the left elbow-to-wrist angle |
| Body.Body.GetRightElbowToWristAngle | Source/ScuddleBody.h:267-271 | returns the right elbow-to-wrist angle |
| Body.Body.GetLeftHipToKneeAngle | Source/ScuddleBody.h:169-173 | returns the left hip-to-knee angle |
| Body.Body.GetRightHipToKneeAngle | Source/ScuddleBody.h:303-307 | returns the right hip-to-knee angle |
| Body.Body.GetLeftShoulderToElbowAngle | Source/ScuddleBody.h:221-225 | returns the left shoulder-to-elbow angle |
| Body.Body.GetRightShoulderToElbowAngle | Source/ScuddleBody.h:356-360 | returns the right shoulder-to-elbow angle |
| Body.Body.GetQuadrants | Source/ScuddleBody.h:141-145 | the eight quadrant getters return the quadrant fields |
| Body.Body.GetQualities | Source/ScuddleBody.h:382-412 | the quality getters return the Effort and Height fields |
| Body.Body.GetFitnessScore | Source/ScuddleBody.h:99-103 | returns the cached score without recomputing it |
| Body.Body.IsMarked | Source/ScuddleBody.h:416-420 | returns the mark |
| Body.Body.SetMark | Source/ScuddleBody.h:429-432 | sets the mark and changes nothing else |
| Body.Body.ClearMark | Source/ScuddleBody.h:92-95 | clears the mark and changes nothing else |
| LegacySkeleton.NewGenome | ScuddleSkeleton.cpp:162-194 | a fresh genome has exactly numAngles angles, each from RandomAngle(360) |
| LegacySkeleton.MutateDraws | ScuddleSkeleton.cpp:145-160 | mutation uses one draw, plus a second for the index when there is more than one angle |
| LegacySkeleton.MutateChangesAtMostOne | ScuddleSkeleton.cpp:145-160 | with no angles nothing changes; otherwise one angle gets a value in [0, 360] degrees and everything else is unchanged |
| LegacySkeleton.MutateReachesEveryAngle | ScuddleSkeleton.cpp:145-160 | with more than one angle every index up to RAND_MAX / 1000 can be the one mutated |
| LegacySkeleton.FitnessIsScoreWithoutQuadrants | ScuddleSkeleton.cpp:279-334 | the older fitness is the Skeleton score with a zero Bartenieff factor and only the Height adjustment in place of the quadrant score |
| LegacySkeleton.FitnessValues | ScuddleSkeleton.cpp:336-372 | effort is 0.6, 1.2 or 1.4, the height term is 0.3 when crouched, and the scale is 1 or 3, so fitness lies in [0.6, 5.1] |
| LegacySkeleton.Skeleton.constructor | ScuddleSkeleton.cpp:83-87 | a new skeleton holds a fresh genome of numAngles angles, with no score, unmarked |
| LegacySkeleton.Skeleton.Copy | ScuddleSkeleton.cpp:89-97 | the copy has the original's angles, Effort and Height, and starts unmarked |
| LegacySkeleton.Skeleton.GetAngleAsDegrees | ScuddleSkeleton.cpp:107-121 | an index in range gives that angle in degrees; out of range gives a random angle in [0, 360] |
| LegacySkeleton.Skeleton.GetNumAngles | ScuddleSkeleton.cpp:139-143 | returns the number of angles |
| LegacySkeleton.Skeleton.Mutate | ScuddleSkeleton.cpp:145-160 | uses one or two draws and replaces the genome by the older mutation |
| LegacySkeleton.Skeleton.SwapValues | ScuddleSkeleton.cpp:196-275 | swaps max(1, min(numSwap, 5 + shorter angle count)) distinct slots; an angle slot is swapped only below both sizes |
| LegacySkeleton.Skeleton.ExchangeSlots | ScuddleSkeleton.cpp:238-274 | the collected slots are exchanged in order |
| LegacySkeleton.Skeleton.ExchangeSlot | ScuddleSkeleton.cpp:242-273 | one switch case: the named slot is exchanged and nothing else changes |
| LegacySkeleton.Skeleton.UpdateFitness | ScuddleSkeleton.cpp:277-373 | stores the older fitness and changes nothing else |
| LegacySkeleton.Skeleton.GetFitnessScore | ScuddleSkeleton.h:106-110 | returns the cached score |
| LegacySkeleton.Skeleton.GetFlow | ScuddleSkeleton.h:114-118 | returns the Flow quality |
| LegacySkeleton.Skeleton.GetHeight | ScuddleSkeleton.h:122-126 | returns the Height |
| LegacySkeleton.Skeleton.GetSpace | ScuddleSkeleton.h:135-139 | returns the Space quality |
| LegacySkeleton.Skeleton.GetTime | ScuddleSkeleton.h:143-147 | returns the Time quality |
| LegacySkeleton.Skeleton.GetWeight | ScuddleSkeleton.h:151-155 | returns the Weight quality |
| LegacySkeleton.Skeleton.IsMarked | ScuddleSkeleton.h:159-163 | returns the mark |
| LegacySkeleton.Skeleton.SetMark | ScuddleSkeleton.h:168-172 | sets the mark and changes nothing else |
| LegacySkeleton.Skeleton.ClearMark | ScuddleSkeleton.h:86-90 | clears the mark and changes nothing else |
| Engine.GenerateSkeletons | Source/ScuddleMain.cpp:375-396 | creates n fresh, unmarked eight-angle skeletons from consecutive blocks of draws |
| Engine.CalculateFitnessValues | Source/ScuddleMain.cpp:191-218 | every member gets its fitness updated, and with coefficients in range every score is present and non-negative |
| Engine.UpdatedScoreNonNegative | Source/ScuddleMain.cpp:191-218 | an updated member has a non-negative score and still eight angles |
| Engine.PrefixScore | Source/ScuddleMain.cpp:455-481 | the running sum of a walk is non-negative |
| Engine.PrefixScoreMonotone | Source/ScuddleMain.cpp:455-481 | the running sum never decreases along the walk |
| Engine.HitsAreHits | Source/ScuddleMain.cpp:464-475 | a picked member is counted, has a positive score, and the draw falls strictly inside its interval |
| Engine.HitsAtMostOne | Source/ScuddleMain.cpp:455-481 | one walk picks at most one member, and after a pick the running sum exceeds the draw |
| Engine.ZeroScoreNeverHit | Source/ScuddleMain.cpp:468-469 | a member with zero score is never picked |
| Engine.SumOfScores | Source/ScuddleMain.cpp:427-439 | the sum is the total of all scores |
| Engine.Walk | Source/ScuddleMain.cpp:455-481 | the loop picks exactly the member whose interval strictly contains the draw |
| Engine.SelectStep | Source/ScuddleMain.cpp:455-481 | one walk keeps every member scored and the population size unchanged, and changes nothing but marks |
| Engine.SelectRun | Source/ScuddleMain.cpp:450-506 | the walks over a sequence of draws keep every member scored and the population size unchanged, and change nothing but marks |
| Engine.MakeSelection | Source/ScuddleMain.cpp:422-508 | the result is exactly the walks over the draws it used, stopping at the first draw that completes the selection; it marks exactly the selected members; the selection is distinct, of previously unmarked positive-score members, and complete exactly when it reaches floor(0.2 × size) |
| Engine.FinalPicks | Source/ScuddleMain.cpp:680-765 | every pick of the mark-ignoring walks is a member index with a positive score |
| Engine.MakeFinalSelection | Source/ScuddleMain.cpp:680-765 | the selection is exactly the picks of the walks over the draws it used, stopping at the first draw that completes it; members are picked by index, ignoring marks and allowing repeats; complete exactly when it has selectionSize entries |
| Engine.Survivors | Source/ScuddleMain.cpp:524-571 | the new population is the selection in order, every mark cleared |
| Engine.PickParents | Source/ScuddleMain.cpp:575-587 | the parents are distinct and below the size, the second being the first draw that differs; with one member no pair exists |
| Engine.BredExtend | Source/ScuddleMain.cpp:589-618 | appending the two swapped copies of two distinct members keeps the crossover invariant |
| Engine.DoCrossovers | Source/ScuddleMain.cpp:514-620 | the population is the survivors followed by pairs of swapped copies of distinct earlier members, each pair exchanging max(1, min(count, 13)) distinct valid slots, at least one pair, stopping at the first size of at least 200 |
| Engine.CrossoverRestoresPopulation | Source/ScuddleMain.cpp:614-618 | from an even survivor count below 200 the crossover ends at exactly 200 |
| Engine.MarkForMutation | Source/ScuddleMain.cpp:629-652 | marks distinct, previously unmarked members, exactly floor(0.1 × size) of them on success |
| Engine.MarkedBefore | Source/ScuddleMain.cpp:653-676 | counts at most n marked members |
| Engine.MutateMarked | Source/ScuddleMain.cpp:653-676 | each marked member is mutated with its own two draws, in order, and unmarked; the others are unchanged |
| Engine.MutatedProperties | Source/ScuddleMain.cpp:653-676 | after the pass no mark remains, unmarked members are untouched, and a mutated member differs in at most one angle |
| Engine.DoMutations | Source/ScuddleMain.cpp:623-677 | the marked population is the input with exactly the chosen members marked, and every member of the result is the mutation pass over it with the draws after the marking ones; a tenth of the population is mutated in one angle each; size is unchanged and no mark remains |
| Engine.ChosenIsMutated | Source/ScuddleMain.cpp:653-676 | a member chosen for mutation ends up with its genome mutated by its own two draws and its mark cleared |
| Engine.CreateMapForAngles | Source/ScuddleMain.cpp:262-311 | the map has 31 entries, angle indices at 2, 3, 8, 9, 21, 22 and 30 and -1 elsewhere |
| Engine.DisplayMapContents | Source/ScuddleMain.cpp:262-311 | the right elbow-to-wrist angle is never shown, because case 31 lies past the end; every other angle appears exactly once |
| Engine.SelectAndBreed | Source/ScuddleMain.cpp:828-835 | on success the selection is the roulette walks over the first draws used, 40 members, the last draw being the one that completed it, and the crossover breeds a full population of 200 from its survivors with the draws after those |
| Engine.Generation | Source/ScuddleMain.cpp:824-844 | a full population of 200 goes to a full population of 200 through the recorded passes: every member rescored, the selection equal to the walks over the first draws and stopping at the draw that makes it 40, the crossover bred from its survivors, and the result the mutation pass with the draws after those over exactly 20 distinct, previously unmarked members marked |
| Engine.SurvivorCarriesOver | Source/ScuddleMain.cpp:824-844 | a survivor that is not chosen for mutation enters the next generation as its rescored self, unmarked |
| Engine.Run | Source/ScuddleMain.cpp:793-890 | after five generations the population has 200 members, each scored with the fitness of its own genome, and the final selection is exactly the mark-ignoring picks of the window of draws it reports, five indices of positive-score members |

## Left out

- Floating point: `realType` is `float`. The model uses exact reals, so
  rounding in the products, in `static_cast<size_t>(0.2 × size)`, and in
  closeness tests at the edge of ε is not captured. The fractions are
  computed as size × percent / 100.
- π and ε are left abstract. The literal values (3.14159265 and the
  tolerance constant) are not used in any proof.
- The random-number generator is not modelled: `rand()`, seeding and the
  lazy initialisation flags. Draws are an injected stream.
- The injected draws are unbounded naturals; they are not limited to
  `[0, RAND_MAX]`. `RandMax` is abstract (at least 32767), and the reachability
  lemmas require `v <= RandMax / 1000`. `Common.RandUnsignedInRangeCap`
  states the other direction. So where `RAND_MAX` is 32767, the index draws
  can only reach members 0 to 32. This affects the parent choice in
  `doCrossovers` and the positions in `doMutations` (ranges up to 199).
  The engine contracts quantify over all streams, so they also admit
  picks above 32 that such a platform cannot produce.
- Retry loops in slot collection, parent choice, mutation marking and both
  roulette selections never terminate in the source when no further
  progress is possible (for example a population of one in the parent
  choice, or all scores zero in a selection). The model stops when the
  injected stream is exhausted and reports failure instead.
- Engine.MakeSelection: the source sets a member's mark inside the walk.
  The model marks it once the walk ends. One walk picks at most one
  member and never revisits it, so the picks are the same.
- Swaps require the two individuals to be distinct objects. Swapping an
  object with itself is not modelled.
- Body.BodyFitness: for Low and High Heights the source reads an
  uninitialised `heightFactor` at Source/ScuddleBody.cpp:677. The model
  returns no score rather than inventing a value.
- Engine.DoCrossovers: the contract says the parents are distinct members and each slot list holds distinct valid slots. It does not say which draws chose them. `PickParents` and `CollectSlotIndices` each tie their own result to the draws.
- Engine.Run: its contract does not relate one generation to the next. `Engine.Generation` states what each generation does.
- Engine.DoCrossovers requires a non-empty selection. With an empty one
  the source draws from `RandUnsignedInRange(size_t(-1))`, which is
  undefined behaviour.
- The population engine works on the Skeleton variant, the active build.
  Running it on Body objects is not modelled.
- Pointer identity, `delete` and `cleanup` are not modelled. The
  population is a sequence of values.
- Not modelled: quaternion conversion (`getAngleAsQuaternion`, a foreign
  glm call), the timing and printing code, `GENERATE_POSITIONS_` geometry,
  and the `USE_FRACTION_FOR_CROSSOVER_` variants.
- The Skeleton header's static setters and `g*` coefficients have no
  definitions. The model uses the `ConstrainedValue` coefficient objects
  of the .cpp files.
- The older tree never defines `RandomAngle`, `RandRealInRange`,
  `RandUnsignedInRange` or `ReallyClose`. The older Skeleton model uses
  the definitions of Source/ScuddleCommon.cpp.
- ScuddleMain.cpp and ScuddleBody.cpp at the repository root are not part
  of this model. They are disabled sketch code.
