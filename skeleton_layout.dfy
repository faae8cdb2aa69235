/**
 * The eight limb angles of a Skeleton (Source/ScuddleSkeleton.h), the
 * quadrant table that bins each angle into one of four quadrants, and the
 * quadrant score, their sum.
 */
module SkeletonLayout {
  import opened DataTypes
  import opened Common

  /** Number of limb angles a Skeleton carries. */
  const NumCalculatedAngles: nat := 8

  // Positions of the limb angles in the angle vector.
  const LeftHipToKnee: nat := 0
  const LeftKneeToFoot: nat := 1
  const RightHipToKnee: nat := 2
  const RightKneeToFoot: nat := 3
  const LeftShoulderToElbow: nat := 4
  const LeftElbowToWrist: nat := 5
  const RightShoulderToElbow: nat := 6
  const RightElbowToWrist: nat := 7

  /** The evolving attributes of a skeleton: four Effort qualities, a height and the limb angles. */
  datatype Genome = Genome(weight: Weight, space: Space, time: Time, flow: Flow, height: Height,
                           angles: seq<real>)

  /**
   * Largest angle, in degrees, drawn for a limb: hip-to-knee and
   * shoulder-to-elbow limbs turn through a full circle, the others through a
   * half circle.
   */
  function AngleLimit(k: nat): (degrees: real)
    ensures degrees == 360.0 <==> k in {LeftHipToKnee, RightHipToKnee, LeftShoulderToElbow, RightShoulderToElbow}
    ensures degrees == 360.0 || degrees == 180.0
  {
    if k == LeftHipToKnee || k == RightHipToKnee || k == LeftShoulderToElbow || k == RightShoulderToElbow
    then 360.0 else 180.0
  }

  /** Quadrant (1 to 4) of limb `k` at `angle` radians, per the fixed table of thresholds. */
  function QuadrantOf(k: nat, angle: real): (q: int)
    requires k < NumCalculatedAngles
    ensures 1 <= q <= 4
  {
    if k == LeftShoulderToElbow then MapAngleToQuadrant(angle, 90.0, 1, 180.0, 2, 270.0, 1, 4)
    else if k == RightShoulderToElbow then MapAngleToQuadrant(angle, 90.0, 2, 180.0, 1, 270.0, 4, 1)
    else if k == LeftElbowToWrist then MapAngleToQuadrant(angle, 45.0, 1, 90.0, 2, 135.0, 1, 4)
    else if k == RightElbowToWrist then MapAngleToQuadrant(angle, 45.0, 2, 90.0, 1, 135.0, 4, 1)
    else if k == LeftHipToKnee then MapAngleToQuadrant(angle, 90.0, 4, 180.0, 1, 270.0, 2, 1)
    else if k == RightHipToKnee then MapAngleToQuadrant(angle, 90.0, 1, 180.0, 4, 270.0, 1, 2)
    else if k == LeftKneeToFoot then MapAngleToQuadrant(angle, 45.0, 4, 90.0, 1, 135.0, 2, 1)
    else MapAngleToQuadrant(angle, 45.0, 1, 90.0, 4, 135.0, 1, 2)
  }

  /** The quadrant of every limb. */
  function Quadrants(angles: seq<real>): (q: seq<int>)
    requires |angles| == NumCalculatedAngles
    ensures |q| == NumCalculatedAngles
    ensures forall k :: 0 <= k < |q| ==> 1 <= q[k] <= 4
  {
    seq(NumCalculatedAngles, k requires 0 <= k < NumCalculatedAngles => QuadrantOf(k, angles[k]))
  }

  /** The quadrant table written out limb by limb. */
  lemma QuadrantsWrittenOut(a: seq<real>)
    requires |a| == NumCalculatedAngles
    ensures Quadrants(a) == [
      MapAngleToQuadrant(a[LeftHipToKnee], 90.0, 4, 180.0, 1, 270.0, 2, 1),
      MapAngleToQuadrant(a[LeftKneeToFoot], 45.0, 4, 90.0, 1, 135.0, 2, 1),
      MapAngleToQuadrant(a[RightHipToKnee], 90.0, 1, 180.0, 4, 270.0, 1, 2),
      MapAngleToQuadrant(a[RightKneeToFoot], 45.0, 1, 90.0, 4, 135.0, 1, 2),
      MapAngleToQuadrant(a[LeftShoulderToElbow], 90.0, 1, 180.0, 2, 270.0, 1, 4),
      MapAngleToQuadrant(a[LeftElbowToWrist], 45.0, 1, 90.0, 2, 135.0, 1, 4),
      MapAngleToQuadrant(a[RightShoulderToElbow], 90.0, 2, 180.0, 1, 270.0, 4, 1),
      MapAngleToQuadrant(a[RightElbowToWrist], 45.0, 2, 90.0, 1, 135.0, 4, 1)]
  {
  }

  /**
   * Table checks at the boundaries: the left arm at 90 degrees is still in
   * quadrant 1, the right arm at 180 degrees still in quadrant 1, the left
   * leg at 0 degrees in quadrant 4, and a left shoulder past 270 degrees in
   * quadrant 4.
   */
  lemma QuadrantTableBoundaries(x: real)
    requires 270.0 < x - Epsilon
    ensures QuadrantOf(LeftShoulderToElbow, DegreesToRadians(90.0)) == 1
    ensures QuadrantOf(RightShoulderToElbow, DegreesToRadians(180.0)) == 1
    ensures QuadrantOf(LeftHipToKnee, DegreesToRadians(0.0)) == 4
    ensures QuadrantOf(LeftShoulderToElbow, DegreesToRadians(x)) == 4
    ensures QuadrantOf(LeftKneeToFoot, DegreesToRadians(x)) == 1
  {
    MapAngleToQuadrantBands(90.0, 90.0, 1, 180.0, 2, 270.0, 1, 4);
    MapAngleToQuadrantBands(180.0, 90.0, 2, 180.0, 1, 270.0, 4, 1);
    MapAngleToQuadrantBands(0.0, 90.0, 4, 180.0, 1, 270.0, 2, 1);
    MapAngleToQuadrantBands(x, 90.0, 1, 180.0, 2, 270.0, 1, 4);
    MapAngleToQuadrantBands(x, 45.0, 4, 90.0, 1, 135.0, 2, 1);
  }

  /** Sum of a sequence of quadrants. */
  function Sum(s: seq<int>): int
  {
    if s == [] then 0 else Sum(s[..|s| - 1]) + s[|s| - 1]
  }

  /** A sum of quadrants lies between one and four per element. */
  lemma {:induction false} SumBounds(s: seq<int>)
    requires forall i :: 0 <= i < |s| ==> 1 <= s[i] <= 4
    ensures |s| <= Sum(s) <= 4 * |s|
  {
    if s != [] {
      SumBounds(s[..|s| - 1]);
    }
  }

  /** A sum of quadrants is as small as it can be exactly when every quadrant is 1. */
  lemma {:induction false} SumMinimalIffAllOnes(s: seq<int>)
    requires forall i :: 0 <= i < |s| ==> 1 <= s[i] <= 4
    ensures Sum(s) == |s| <==> forall i :: 0 <= i < |s| ==> s[i] == 1
  {
    if s != [] {
      var init := s[..|s| - 1];
      SumMinimalIffAllOnes(init);
      SumBounds(init);
      if Sum(s) == |s| {
        forall i | 0 <= i < |s| ensures s[i] == 1 {
          if i < |s| - 1 { assert s[i] == init[i]; }
        }
      } else {
        assert (forall i :: 0 <= i < |s| ==> s[i] == 1) ==> (forall i :: 0 <= i < |init| ==> init[i] == 1);
      }
    }
  }

  /** The quadrant score of a skeleton lies between 8 and 32. */
  lemma QuadrantScoreBounds(angles: seq<real>)
    requires |angles| == NumCalculatedAngles
    ensures NumCalculatedAngles <= Sum(Quadrants(angles)) <= 4 * NumCalculatedAngles
  {
    SumBounds(Quadrants(angles));
  }
}
