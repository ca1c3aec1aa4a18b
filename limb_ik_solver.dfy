/**
 * LimbIKSolver: the position half of a two-bone IK solve for a root-joint-tip
 * chain.  Bind-pose segment lengths are captured once; each frame the tip is
 * placed on the target (clamped to full reach unless the limb is stretchy), a
 * midline point is found on the root-tip line, a hint (pole) point is put one
 * upper-segment length off it along the midline object's forward axis, and the
 * joint is interpolated between midline point and hint by how close the tip is
 * to the midline point.  The root and target positions and the forward axis of
 * the oriented midline object are inputs of each frame.
 */
module LimbIKSolver {
  import opened UnityMath

  /** PositionTipBone: the target, or for a rigid limb out of reach, the point at full reach towards it. */
  function TipPosition(root: Vec3, target: Vec3, segment1: real, segment2: real, stretchy: bool, lib: UnityLib): (tip: Vec3)
    ensures stretchy ==> tip == target
    ensures lib.magnitude(Sub(target, root)) <= segment1 + segment2 ==> tip == target
  {
    var toTarget := Sub(target, root);
    var totalLimbLength := segment1 + segment2;
    if lib.magnitude(toTarget) > totalLimbLength && !stretchy then
      Add(root, Scale(Normalized(toTarget, lib), totalLimbLength))
    else target
  }

  /**
   * A rigid limb aimed out of reach puts the tip exactly seg1 + seg2 from the
   * root, on the ray from the root through the target.
   */
  lemma ClampedTipAtFullReach(root: Vec3, target: Vec3, segment1: real, segment2: real, lib: UnityLib)
    requires IsMagnitude(lib) && segment1 >= 0.0 && segment2 >= 0.0
    requires lib.magnitude(Sub(target, root)) > segment1 + segment2
    requires lib.magnitude(Sub(target, root)) > NormalizeEpsilon
    ensures Sub(TipPosition(root, target, segment1, segment2, false, lib), root)
         == Scale(Sub(target, root), (segment1 + segment2) / lib.magnitude(Sub(target, root)))
    ensures lib.magnitude(Sub(TipPosition(root, target, segment1, segment2, false, lib), root)) == segment1 + segment2
  {
    var d := Sub(target, root);
    var m := lib.magnitude(d);
    var total := segment1 + segment2;
    var u := Normalized(d, lib);
    assert u == Scale(d, 1.0 / m);
    var tip := TipPosition(root, target, segment1, segment2, false, lib);
    assert Sub(tip, root) == Scale(u, total);
    ScaleAlong(d, m, total);
    assert lib.magnitude(u) == 1.0;
    assert lib.magnitude(Scale(u, total)) == Abs(total) * lib.magnitude(u);
  }

  /** Step 2's angle theta, in radians, between the root-to-joint and root-to-tip directions. */
  function MidLineAngle(root: Vec3, joint: Vec3, tip: Vec3, lib: UnityLib): real {
    var rootToTipDirection := Normalized(Sub(tip, root), lib);
    var rootToJointDirection := Normalized(Sub(joint, root), lib);
    Deg2Rad * lib.angle(rootToJointDirection, rootToTipDirection)
  }

  /** Step 2's distanceToMidPoint: cos(theta) * segment1, the adjacent side when segment1 is the hypotenuse. */
  function DistanceToMidPoint(root: Vec3, joint: Vec3, tip: Vec3, segment1: real, lib: UnityLib): real {
    lib.cos(MidLineAngle(root, joint, tip, lib)) * segment1
  }

  /** The adjacent side is never longer than the hypotenuse. */
  lemma DistanceToMidPointBound(root: Vec3, joint: Vec3, tip: Vec3, segment1: real, lib: UnityLib)
    requires SinCosBounded(lib) && segment1 >= 0.0
    ensures Abs(DistanceToMidPoint(root, joint, tip, segment1, lib)) == Abs(lib.cos(MidLineAngle(root, joint, tip, lib))) * segment1
    ensures Abs(DistanceToMidPoint(root, joint, tip, segment1, lib)) <= segment1
  {
    var c := lib.cos(MidLineAngle(root, joint, tip, lib));
    assert -1.0 <= c <= 1.0;
    AbsProduct(c, segment1);
  }

  /** Step 2 of Update: the point on the root-tip line at signed distance distanceToMidPoint from the root. */
  function MidLinePoint(root: Vec3, joint: Vec3, tip: Vec3, segment1: real, lib: UnityLib): Vec3 {
    var rootToTipDirection := Normalized(Sub(tip, root), lib);
    Add(root, Scale(rootToTipDirection, DistanceToMidPoint(root, joint, tip, segment1, lib)))
  }

  /** The midline point is on the root-tip line, distanceToMidPoint / |tip - root| of the way along it. */
  lemma MidLinePointOnRootTipLine(root: Vec3, joint: Vec3, tip: Vec3, segment1: real, lib: UnityLib)
    requires lib.magnitude(Sub(tip, root)) > NormalizeEpsilon
    ensures Sub(MidLinePoint(root, joint, tip, segment1, lib), root)
         == Scale(Sub(tip, root), DistanceToMidPoint(root, joint, tip, segment1, lib) / lib.magnitude(Sub(tip, root)))
  {
    var d := Sub(tip, root);
    var m := lib.magnitude(d);
    var k := DistanceToMidPoint(root, joint, tip, segment1, lib);
    assert Normalized(d, lib) == Scale(d, 1.0 / m);
    assert Sub(MidLinePoint(root, joint, tip, segment1, lib), root) == Scale(Normalized(d, lib), k);
    ScaleAlong(d, m, k);
  }

  /** The midline point is |distanceToMidPoint| from the root, hence never further than segment1. */
  lemma MidLinePointDistance(root: Vec3, joint: Vec3, tip: Vec3, segment1: real, lib: UnityLib)
    requires IsMagnitude(lib)
    requires lib.magnitude(Sub(tip, root)) > NormalizeEpsilon
    ensures Distance(MidLinePoint(root, joint, tip, segment1, lib), root, lib)
         == Abs(DistanceToMidPoint(root, joint, tip, segment1, lib))
    ensures SinCosBounded(lib) && segment1 >= 0.0 ==>
      Distance(MidLinePoint(root, joint, tip, segment1, lib), root, lib) <= segment1
  {
    var k := DistanceToMidPoint(root, joint, tip, segment1, lib);
    var u := Normalized(Sub(tip, root), lib);
    assert Sub(MidLinePoint(root, joint, tip, segment1, lib), root) == Scale(u, k);
    UnitScaleMagnitude(u, k, lib);
    if SinCosBounded(lib) && segment1 >= 0.0 {
      DistanceToMidPointBound(root, joint, tip, segment1, lib);
    }
  }

  lemma AbsProduct(c: real, s: real)
    requires s >= 0.0
    ensures Abs(c * s) == Abs(c) * s
    ensures -1.0 <= c <= 1.0 ==> Abs(c) * s <= s
  {
    if c < 0.0 {
      assert -(c * s) == (-c) * s;
    }
  }

  /** Step 4 of Update: segment1 from the midline point along the midline object's forward axis. */
  function HintPosition(midLinePoint: Vec3, midLineForward: Vec3, segment1: real): Vec3 {
    Add(midLinePoint, Scale(midLineForward, segment1))
  }

  /** For a unit forward axis the hint is exactly segment1 from the midline point. */
  lemma HintAtSegment1(midLinePoint: Vec3, midLineForward: Vec3, segment1: real, lib: UnityLib)
    requires IsMagnitude(lib) && segment1 >= 0.0 && lib.magnitude(midLineForward) == 1.0
    ensures Distance(HintPosition(midLinePoint, midLineForward, segment1), midLinePoint, lib) == segment1
  {
    assert Sub(HintPosition(midLinePoint, midLineForward, segment1), midLinePoint) == Scale(midLineForward, segment1);
  }

  /** Step 5's interpolation parameter: 1 with the tip on the midline point, 0 once it is segment2 away. */
  function JointParameter(midLineToTipDistance: real, segment2: real): (t: real)
    ensures 0.0 <= t <= 1.0
    ensures segment2 != 0.0 && midLineToTipDistance == 0.0 ==> t == 1.0
    ensures segment2 >= 0.0 && midLineToTipDistance >= segment2 ==> t == 0.0
  {
    var t := InverseLerp(segment2, 0.0, midLineToTipDistance);
    assert segment2 > 0.0 && midLineToTipDistance >= segment2 ==> (midLineToTipDistance - segment2) / (0.0 - segment2) <= 0.0;
    t
  }

  /** Step 5: the joint between the midline point (t = 0) and the hint (t = 1). */
  function JointPosition(midLinePoint: Vec3, hint: Vec3, tip: Vec3, segment2: real, lib: UnityLib): (joint: Vec3)
    ensures JointParameter(Distance(midLinePoint, tip, lib), segment2) == 0.0 ==> joint == midLinePoint
    ensures JointParameter(Distance(midLinePoint, tip, lib), segment2) == 1.0 ==> joint == hint
    ensures Sub(joint, midLinePoint) == Scale(Sub(hint, midLinePoint), JointParameter(Distance(midLinePoint, tip, lib), segment2))
  {
    LerpVec(midLinePoint, hint, JointParameter(Distance(midLinePoint, tip, lib), segment2))
  }

  class LimbIKSolver {
    const isStretchyLimb: bool
    /** Bind-pose lengths, set by Start only. */
    const segment1Length: real
    const segment2Length: real
    var jointPosition: Vec3
    var tipPosition: Vec3
    var midLinePoint: Vec3
    var hintPosition: Vec3
    var midPointToHintDistance: real

    /** Start: capture the two segment lengths from the bind pose. */
    constructor Start(isStretchyLimb: bool, rootPosition: Vec3, jointPosition: Vec3, tipPosition: Vec3, lib: UnityLib)
      ensures this.isStretchyLimb == isStretchyLimb
      ensures segment1Length == Distance(rootPosition, jointPosition, lib)
      ensures segment2Length == Distance(jointPosition, tipPosition, lib)
      ensures this.jointPosition == jointPosition && this.tipPosition == tipPosition
    {
      this.isStretchyLimb := isStretchyLimb;
      segment1Length := Distance(rootPosition, jointPosition, lib);
      segment2Length := Distance(jointPosition, tipPosition, lib);
      this.jointPosition := jointPosition;
      this.tipPosition := tipPosition;
      midLinePoint := Zero;
      hintPosition := Zero;
      midPointToHintDistance := 0.0;
    }

    /** PositionTipBone, as the source writes it: the clamp in place, then the write. */
    method PositionTipBone(rootPosition: Vec3, targetObjectPosition: Vec3, lib: UnityLib)
      modifies this`tipPosition
      ensures tipPosition == TipPosition(rootPosition, targetObjectPosition, segment1Length, segment2Length, isStretchyLimb, lib)
    {
      var targetPosition := targetObjectPosition;
      var toTargetDirection := Sub(targetObjectPosition, rootPosition);
      var totalLimbLength := segment1Length + segment2Length;

      if lib.magnitude(toTargetDirection) > totalLimbLength && !isStretchyLimb {
        toTargetDirection := Scale(Normalized(toTargetDirection, lib), totalLimbLength);
        targetPosition := Add(rootPosition, toTargetDirection);
      }

      tipPosition := targetPosition;
    }

    /**
     * The position steps of Update, in the source's order: tip, midline point,
     * hint, joint.  The midline uses the joint where the previous frame left it.
     */
    method Update(rootPosition: Vec3, targetObjectPosition: Vec3, midLineForward: Vec3, lib: UnityLib)
      modifies this
      ensures tipPosition == TipPosition(rootPosition, targetObjectPosition, segment1Length, segment2Length, isStretchyLimb, lib)
      ensures midLinePoint == MidLinePoint(rootPosition, old(jointPosition), tipPosition, segment1Length, lib)
      ensures midPointToHintDistance == segment1Length
      ensures hintPosition == HintPosition(midLinePoint, midLineForward, segment1Length)
      ensures jointPosition == JointPosition(midLinePoint, hintPosition, tipPosition, segment2Length, lib)
    {
      PositionTipBone(rootPosition, targetObjectPosition, lib);

      var rootToTipDirection := Normalized(Sub(tipPosition, rootPosition), lib);
      var rootToJointDirection := Normalized(Sub(jointPosition, rootPosition), lib);
      var angleBetween := lib.angle(rootToJointDirection, rootToTipDirection);
      var thetaRadians := Deg2Rad * angleBetween;
      var distanceToMidPoint := lib.cos(thetaRadians) * segment1Length;
      assert distanceToMidPoint == DistanceToMidPoint(rootPosition, old(jointPosition), tipPosition, segment1Length, lib);
      midLinePoint := Add(rootPosition, Scale(rootToTipDirection, distanceToMidPoint));
      assert midLinePoint == MidLinePoint(rootPosition, old(jointPosition), tipPosition, segment1Length, lib);

      midPointToHintDistance := segment1Length;
      hintPosition := Add(midLinePoint, Scale(midLineForward, midPointToHintDistance));
      assert hintPosition == HintPosition(midLinePoint, midLineForward, segment1Length);

      var midLinePointToTipDistance := Distance(midLinePoint, tipPosition, lib);
      var t := InverseLerp(segment2Length, 0.0, midLinePointToTipDistance);
      jointPosition := LerpVec(midLinePoint, hintPosition, t);
    }
  }
}
