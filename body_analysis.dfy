/**
 * The geometry library of the scripts: conversion of the sensor's joint
 * dictionaries to Unity vectors, the affine rescale from the colour frame to
 * the screen, limb lengths, body height and the clinical angles.  The float
 * library (`MathLib`) is opaque; what is modelled is which joints, which
 * plane and which formula each function feeds to it.
 */
module BodyAnalysis {
  import opened Wrappers
  import opened Numerics
  import opened Kinect

  /** The colour frame's resolution, the reference of the screen rescale. */
  const ColorWidth: real := 1920.0
  const ColorHeight: real := 1080.0

  /** The constant added to the body height for the foot-to-ground clearance. */
  const FootClearance: real := 0.08

  // ---------------------------------------------------------------------
  // Conversions
  // ---------------------------------------------------------------------

  function ToVector3(p: CameraSpacePoint): Vec3 {
    Vec3(p.x, p.y, p.z)
  }

  function ToQuaternion(o: JointOrientation): Quat {
    Quat(o.x, o.y, o.z, o.w)
  }

  /** The array `convertToUnityPosition` returns, as a value. */
  function UnityPositions(joints: seq<Joint>): (ps: seq<Vec3>)
    ensures |ps| == |joints|
    ensures forall i :: 0 <= i < |joints| ==> ps[i] == ToVector3(joints[i].position)
  {
    seq(|joints|, i requires 0 <= i < |joints| => ToVector3(joints[i].position))
  }

  /** The array `convertToUnityOrientation` returns, as a value. */
  function UnityOrientations(orientations: seq<JointOrientation>): (qs: seq<Quat>)
    ensures |qs| == |orientations|
    ensures forall i :: 0 <= i < |orientations| ==> qs[i] == ToQuaternion(orientations[i])
  {
    seq(|orientations|, i requires 0 <= i < |orientations| => ToQuaternion(orientations[i]))
  }

  /** Slot i of the result holds joint i's position, X, Y and Z in that order. */
  method ConvertToUnityPosition(kinectJoint: seq<Joint>) returns (unityJoint: seq<Vec3>)
    ensures |unityJoint| == |kinectJoint|
    ensures forall i :: 0 <= i < |kinectJoint| ==>
      unityJoint[i] == Vec3(kinectJoint[i].position.x, kinectJoint[i].position.y, kinectJoint[i].position.z)
    ensures unityJoint == UnityPositions(kinectJoint)
  {
    var a := new Vec3[|kinectJoint|];
    for i := 0 to |kinectJoint|
      invariant forall k :: 0 <= k < i ==> a[k] == ToVector3(kinectJoint[k].position)
    {
      a[i] := Vec3(kinectJoint[i].position.x, kinectJoint[i].position.y, kinectJoint[i].position.z);
    }
    unityJoint := a[..];
  }

  /** Slot i of the result holds joint i's orientation, X, Y, Z and W in that order. */
  method ConvertToUnityOrientation(kinectJoint: seq<JointOrientation>) returns (unityJoint: seq<Quat>)
    ensures |unityJoint| == |kinectJoint|
    ensures forall i :: 0 <= i < |kinectJoint| ==>
      unityJoint[i] == Quat(kinectJoint[i].x, kinectJoint[i].y, kinectJoint[i].z, kinectJoint[i].w)
    ensures unityJoint == UnityOrientations(kinectJoint)
  {
    var a := new Quat[|kinectJoint|];
    for i := 0 to |kinectJoint|
      invariant forall k :: 0 <= k < i ==> a[k] == ToQuaternion(kinectJoint[k])
    {
      a[i] := Quat(kinectJoint[i].x, kinectJoint[i].y, kinectJoint[i].z, kinectJoint[i].w);
    }
    unityJoint := a[..];
  }

  // ---------------------------------------------------------------------
  // Colour frame to screen
  // ---------------------------------------------------------------------

  /** `x * scale.x / 1920 - scale.x / 2 + position.x`, evaluated left to right. */
  function ScreenX(colorX: Float, scale: Real2, position: Real2): Float {
    Add(Sub(Div(Mul(colorX, Finite(scale.x)), Finite(ColorWidth)), Finite(scale.x / 2.0)), Finite(position.x))
  }

  /** `scale.y / 2 - y * scale.y / 1080 + position.y`, evaluated left to right. */
  function ScreenY(colorY: Float, scale: Real2, position: Real2): Float {
    Add(Sub(Finite(scale.y / 2.0), Div(Mul(colorY, Finite(scale.y)), Finite(ColorHeight))), Finite(position.y))
  }

  function ToScreen(p: ColorSpacePoint, scale: Real2, position: Real2): Vec2 {
    Vec2(ScreenX(p.x, scale, position), ScreenY(p.y, scale, position))
  }

  function ScreenPositions(colorPoints: seq<ColorSpacePoint>, scale: Real2, position: Real2): (ps: seq<Vec2>)
    ensures |ps| == |colorPoints|
    ensures forall i :: 0 <= i < |colorPoints| ==> ps[i] == ToScreen(colorPoints[i], scale, position)
  {
    seq(|colorPoints|, i requires 0 <= i < |colorPoints| => ToScreen(colorPoints[i], scale, position))
  }

  /** The mapper's image of the 25 joint positions. */
  function MapToColorSpace(mapper: Mapper, joints: seq<Joint>): (cs: seq<ColorSpacePoint>)
    requires |joints| == JointCount
    ensures |cs| == JointCount && forall jt: JointType :: cs[jt] == mapper(joints[jt].position)
  {
    seq(JointCount, k requires 0 <= k < JointCount => mapper(joints[k].position))
  }

  /** The array `convertToUnity2DPosition` returns, as a value. */
  function Screen2D(mapper: Mapper, joints: seq<Joint>, scale: Real2, position: Real2): (ps: seq<Vec2>)
    requires |joints| == JointCount
    ensures |ps| == JointCount
  {
    ScreenPositions(MapToColorSpace(mapper, joints), scale, position)
  }

  /**
   * `convertToUnity2DPosition`: the 25 camera-space joint positions go
   * through the coordinate mapper, and each colour point is rescaled to the
   * screen of size `scale` centred at `position`.
   */
  method ConvertToUnity2DPosition(mapper: Mapper, kinectJoint: seq<Joint>, scale: Real2, position: Real2)
    returns (colorJointPosition: seq<Vec2>)
    requires |kinectJoint| == JointCount
    ensures |colorJointPosition| == JointCount
    ensures forall jt: JointType :: (
      var c := mapper(kinectJoint[jt].position);
      colorJointPosition[jt] ==
        Vec2(Add(Sub(Div(Mul(c.x, Finite(scale.x)), Finite(1920.0)), Finite(scale.x / 2.0)), Finite(position.x)),
             Add(Sub(Finite(scale.y / 2.0), Div(Mul(c.y, Finite(scale.y)), Finite(1080.0))), Finite(position.y))))
    ensures colorJointPosition == Screen2D(mapper, kinectJoint, scale, position)
  {
    var cameraPoints := new CameraSpacePoint[JointCount];
    var jt := SpineBase as int;
    while jt <= ThumbRight
      invariant 0 <= jt <= JointCount
      invariant forall k :: 0 <= k < jt ==> cameraPoints[k] == kinectJoint[k].position
    {
      cameraPoints[jt] := kinectJoint[jt].position;
      jt := jt + 1;
    }

    var colorPoints := seq(JointCount, k requires 0 <= k < JointCount reads cameraPoints => mapper(cameraPoints[k]));
    assert colorPoints == MapToColorSpace(mapper, kinectJoint);

    var a := new Vec2[JointCount];
    jt := SpineBase as int;
    while jt <= ThumbRight
      invariant 0 <= jt <= JointCount
      invariant forall k :: 0 <= k < jt ==> a[k] == ToScreen(colorPoints[k], scale, position)
    {
      a[jt] := Vec2(colorPoints[jt].x, colorPoints[jt].y);
      a[jt] := a[jt].(x := Add(Sub(Div(Mul(a[jt].x, Finite(scale.x)), Finite(1920.0)), Finite(scale.x / 2.0)), Finite(position.x)));
      a[jt] := a[jt].(y := Add(Sub(Finite(scale.y / 2.0), Div(Mul(a[jt].y, Finite(scale.y)), Finite(1080.0))), Finite(position.y)));
      jt := jt + 1;
    }
    colorJointPosition := a[..];
  }

  /** A finite colour point lands on the affine image of the colour frame. */
  lemma RescaleFinite(cx: real, cy: real, scale: Real2, position: Real2)
    ensures ToScreen(ColorSpacePoint(Finite(cx), Finite(cy)), scale, position) ==
      Vec2(Finite(cx * scale.x / 1920.0 - scale.x / 2.0 + position.x),
           Finite(scale.y / 2.0 - cy * scale.y / 1080.0 + position.y))
  {
    assert Div(Mul(Finite(cx), Finite(scale.x)), Finite(ColorWidth)) == Finite(cx * scale.x / 1920.0);
    assert Div(Mul(Finite(cy), Finite(scale.y)), Finite(ColorHeight)) == Finite(cy * scale.y / 1080.0);
  }

  /** The colour frame's top-left corner goes to the screen's top-left corner. */
  lemma RescaleTopLeft(scale: Real2, position: Real2)
    ensures ToScreen(ColorSpacePoint(Finite(0.0), Finite(0.0)), scale, position) ==
      Vec2(Finite(position.x - scale.x / 2.0), Finite(position.y + scale.y / 2.0))
  {
    assert Mul(Finite(0.0), Finite(scale.x)) == Finite(0.0);
    assert Div(Finite(0.0), Finite(ColorWidth)) == Finite(0.0);
    assert ScreenX(Finite(0.0), scale, position) == Finite(position.x - scale.x / 2.0);
    assert Mul(Finite(0.0), Finite(scale.y)) == Finite(0.0);
    assert Div(Finite(0.0), Finite(ColorHeight)) == Finite(0.0);
    assert ScreenY(Finite(0.0), scale, position) == Finite(position.y + scale.y / 2.0);
  }

  /** The colour frame's bottom-right corner goes to the screen's bottom-right corner. */
  lemma RescaleBottomRight(scale: Real2, position: Real2)
    ensures ToScreen(ColorSpacePoint(Finite(1920.0), Finite(1080.0)), scale, position) ==
      Vec2(Finite(position.x + scale.x / 2.0), Finite(position.y - scale.y / 2.0))
  {
    RescaleFinite(1920.0, 1080.0, scale, position);
    assert 1920.0 * scale.x / 1920.0 == scale.x;
    assert 1080.0 * scale.y / 1080.0 == scale.y;
  }

  /** The inverse of the rescale on a finite coordinate: back from the screen to the colour frame. */
  function ColorXFromScreen(x: real, scale: Real2, position: Real2): real
    requires scale.x != 0.0
  {
    (x - position.x + scale.x / 2.0) * 1920.0 / scale.x
  }

  function ColorYFromScreen(y: real, scale: Real2, position: Real2): real
    requires scale.y != 0.0
  {
    (scale.y / 2.0 + position.y - y) * 1080.0 / scale.y
  }

  /** Scaling by `s / w` and back by `w / s` is the identity. */
  lemma ScaleBack(c: real, s: real, w: real)
    requires s != 0.0 && w != 0.0
    ensures (c * s / w) * w / s == c
  {
    var u := c * s / w;
    assert u * w == c * s;
    assert (c * s) / s == c;
  }

  /** On a screen of non-zero size the rescale loses nothing: the inverse recovers the colour point. */
  lemma RescaleRoundTrip(cx: real, cy: real, scale: Real2, position: Real2)
    requires scale.x != 0.0 && scale.y != 0.0
    ensures var p := ToScreen(ColorSpacePoint(Finite(cx), Finite(cy)), scale, position);
      && p.x.Finite? && p.y.Finite?
      && ColorXFromScreen(p.x.v, scale, position) == cx
      && ColorYFromScreen(p.y.v, scale, position) == cy
  {
    RescaleFinite(cx, cy, scale, position);
    var p := ToScreen(ColorSpacePoint(Finite(cx), Finite(cy)), scale, position);
    var sx, sy := scale.x, scale.y;
    var u, w := cx * sx / 1920.0, cy * sy / 1080.0;
    assert p.x.v - position.x + sx / 2.0 == u;
    assert sy / 2.0 + position.y - p.y.v == w;
    ScaleBack(cx, sx, 1920.0);
    ScaleBack(cy, sy, 1080.0);
  }

  /**
   * The unmappable sentinel survives the rescale: on a screen of non-zero
   * size, a screen point passes the marker guard exactly when neither colour
   * coordinate is infinite.
   */
  lemma RescaleKeepsSentinel(p: ColorSpacePoint, scale: Real2, position: Real2)
    requires scale.x != 0.0 && scale.y != 0.0
    ensures Usable(ToScreen(p, scale, position)) <==> !IsInfinite(p.x) && !IsInfinite(p.y)
  {
  }

  // ---------------------------------------------------------------------
  // Limb lengths
  // ---------------------------------------------------------------------

  /** The joints of an arm, shoulder to hand. */
  function ArmChain(rightArm: bool): seq<JointType> {
    if rightArm then [ShoulderRight, ElbowRight, WristRight, HandRight]
    else [ShoulderLeft, ElbowLeft, WristLeft, HandLeft]
  }

  /** The joints of a leg, hip to foot. */
  function LegChain(rightLeg: bool): seq<JointType> {
    if rightLeg then [HipRight, KneeRight, AnkleRight, FootRight]
    else [HipLeft, KneeLeft, AnkleLeft, FootLeft]
  }

  function Pick<V>(points: seq<V>, chain: seq<JointType>): (r: seq<V>)
    requires |points| == JointCount
    ensures |r| == |chain| && forall k :: 0 <= k < |chain| ==> r[k] == points[chain[k]]
  {
    seq(|chain|, k requires 0 <= k < |chain| => points[chain[k]])
  }

  /** Reference definition: the length of a polyline, segment by segment from the start. */
  function PolylineLength<V>(distance: (V, V) -> Float, points: seq<V>): Float
  {
    if |points| < 2 then Finite(0.0)
    else Add(PolylineLength(distance, points[..|points| - 1]), distance(points[|points| - 2], points[|points| - 1]))
  }

  lemma {:induction false} PolylineLengthNonNegative<V>(distance: (V, V) -> Float, points: seq<V>)
    requires forall a, b :: NonNegative(distance(a, b))
    ensures NonNegative(PolylineLength(distance, points))
  {
    if |points| >= 2 {
      PolylineLengthNonNegative(distance, points[..|points| - 1]);
    }
  }

  /** The length of a four-joint chain is the sum of its three segments, from 0. */
  lemma {:induction false} PolylineOfFour<V>(distance: (V, V) -> Float, p: seq<V>)
    requires |p| == 4
    ensures PolylineLength(distance, p) ==
      Add(Add(Add(Finite(0.0), distance(p[0], p[1])), distance(p[1], p[2])), distance(p[2], p[3]))
  {
    var p3, p2, p1 := p[..3], p[..3][..2], p[..3][..2][..1];
    assert p3[1] == p[1] && p3[2] == p[2] && p2[0] == p[0] && p2[1] == p[1];
    calc {
      PolylineLength(distance, p);
      Add(PolylineLength(distance, p3), distance(p[2], p[3]));
      Add(Add(PolylineLength(distance, p2), distance(p[1], p[2])), distance(p[2], p[3]));
      Add(Add(Add(PolylineLength(distance, p1), distance(p[0], p[1])), distance(p[1], p[2])), distance(p[2], p[3]));
    }
  }

  function ComputeArmLength(math: MathLib, body: Body, rightArm: bool): Float
    requires WellFormed(body)
  {
    var jointPos := UnityPositions(body.joints);
    if rightArm then
      Add(Add(math.distance3(jointPos[ShoulderRight], jointPos[ElbowRight]),
              math.distance3(jointPos[ElbowRight], jointPos[WristRight])),
          math.distance3(jointPos[WristRight], jointPos[HandRight]))
    else
      Add(Add(math.distance3(jointPos[ShoulderLeft], jointPos[ElbowLeft]),
              math.distance3(jointPos[ElbowLeft], jointPos[WristLeft])),
          math.distance3(jointPos[WristLeft], jointPos[HandLeft]))
  }

  function ComputeLegLength(math: MathLib, body: Body, rightLeg: bool): Float
    requires WellFormed(body)
  {
    var jointPos := UnityPositions(body.joints);
    if rightLeg then
      Add(Add(math.distance3(jointPos[HipRight], jointPos[KneeRight]),
              math.distance3(jointPos[KneeRight], jointPos[AnkleRight])),
          math.distance3(jointPos[AnkleRight], jointPos[FootRight]))
    else
      Add(Add(math.distance3(jointPos[HipLeft], jointPos[KneeLeft]),
              math.distance3(jointPos[KneeLeft], jointPos[AnkleLeft])),
          math.distance3(jointPos[AnkleLeft], jointPos[FootLeft]))
  }

  function ComputeArmLength2D(math: MathLib, mapper: Mapper, body: Body, scale: Real2, position: Real2,
                              rightArm: bool): Float
    requires WellFormed(body)
  {
    var jointPos := Screen2D(mapper, body.joints, scale, position);
    var length := Finite(0.0);
    if rightArm then
      Add(Add(Add(length, math.distance2(jointPos[ShoulderRight], jointPos[ElbowRight])),
              math.distance2(jointPos[ElbowRight], jointPos[WristRight])),
          math.distance2(jointPos[WristRight], jointPos[HandRight]))
    else
      Add(Add(Add(length, math.distance2(jointPos[ShoulderLeft], jointPos[ElbowLeft])),
              math.distance2(jointPos[ElbowLeft], jointPos[WristLeft])),
          math.distance2(jointPos[WristLeft], jointPos[HandLeft]))
  }

  function ComputeLegLength2D(math: MathLib, mapper: Mapper, body: Body, scale: Real2, position: Real2,
                              rightLeg: bool): Float
    requires WellFormed(body)
  {
    var jointPos := Screen2D(mapper, body.joints, scale, position);
    var length := Finite(0.0);
    if rightLeg then
      Add(Add(Add(length, math.distance2(jointPos[HipRight], jointPos[KneeRight])),
              math.distance2(jointPos[KneeRight], jointPos[AnkleRight])),
          math.distance2(jointPos[AnkleRight], jointPos[FootRight]))
    else
      Add(Add(Add(length, math.distance2(jointPos[HipLeft], jointPos[KneeLeft])),
              math.distance2(jointPos[KneeLeft], jointPos[AnkleLeft])),
          math.distance2(jointPos[AnkleLeft], jointPos[FootLeft]))
  }

  /** Arm and leg lengths in 3-D are the polyline lengths of their joint chains on the chosen side. */
  lemma LimbLengthsArePolylines(math: MathLib, body: Body, right: bool)
    requires WellFormed(body)
    ensures ComputeArmLength(math, body, right) ==
      PolylineLength(math.distance3, Pick(UnityPositions(body.joints), ArmChain(right)))
    ensures ComputeLegLength(math, body, right) ==
      PolylineLength(math.distance3, Pick(UnityPositions(body.joints), LegChain(right)))
  {
    var ps := UnityPositions(body.joints);
    PolylineOfFour(math.distance3, Pick(ps, ArmChain(right)));
    PolylineOfFour(math.distance3, Pick(ps, LegChain(right)));
    AddZeroLeft(math.distance3(ps[ArmChain(right)[0]], ps[ArmChain(right)[1]]));
    AddZeroLeft(math.distance3(ps[LegChain(right)[0]], ps[LegChain(right)[1]]));
  }

  /** Arm and leg lengths on the screen are the polyline lengths of their joint chains on the chosen side. */
  lemma LimbLengths2DArePolylines(math: MathLib, mapper: Mapper, body: Body, scale: Real2, position: Real2,
                                  right: bool)
    requires WellFormed(body)
    ensures ComputeArmLength2D(math, mapper, body, scale, position, right) ==
      PolylineLength(math.distance2, Pick(Screen2D(mapper, body.joints, scale, position), ArmChain(right)))
    ensures ComputeLegLength2D(math, mapper, body, scale, position, right) ==
      PolylineLength(math.distance2, Pick(Screen2D(mapper, body.joints, scale, position), LegChain(right)))
  {
    var ps := Screen2D(mapper, body.joints, scale, position);
    PolylineOfFour(math.distance2, Pick(ps, ArmChain(right)));
    PolylineOfFour(math.distance2, Pick(ps, LegChain(right)));
  }

  /** With a non-negative metric every limb length is non-negative (possibly +infinity). */
  lemma LimbLengthsNonNegative(math: MathLib, mapper: Mapper, body: Body, scale: Real2, position: Real2, right: bool)
    requires WellFormed(body)
    requires DistancesNonNegative(math)
    ensures NonNegative(ComputeArmLength(math, body, right))
    ensures NonNegative(ComputeLegLength(math, body, right))
    ensures NonNegative(ComputeArmLength2D(math, mapper, body, scale, position, right))
    ensures NonNegative(ComputeLegLength2D(math, mapper, body, scale, position, right))
  {
    LimbLengthsArePolylines(math, body, right);
    LimbLengths2DArePolylines(math, mapper, body, scale, position, right);
    var ps := UnityPositions(body.joints);
    var qs := Screen2D(mapper, body.joints, scale, position);
    PolylineLengthNonNegative(math.distance3, Pick(ps, ArmChain(right)));
    PolylineLengthNonNegative(math.distance3, Pick(ps, LegChain(right)));
    PolylineLengthNonNegative(math.distance2, Pick(qs, ArmChain(right)));
    PolylineLengthNonNegative(math.distance2, Pick(qs, LegChain(right)));
  }

  // ---------------------------------------------------------------------
  // Body height
  // ---------------------------------------------------------------------

  function TrackedIndicator(body: Body, j: JointType): nat
    requires WellFormed(body)
  {
    if body.joints[j].trackingState == Tracked then 1 else 0
  }

  /** The positions along a leg's chain (0 hip, 1 knee, 2 ankle, 3 foot) whose joint the sensor reports as tracked. */
  function TrackedLegSlots(body: Body, rightLeg: bool): set<int>
    requires WellFormed(body)
  {
    set k | 0 <= k < 4 && IsTrackedJoint(body, LegChain(rightLeg)[k])
  }

  /** The members of `slots` below `m`. */
  function Below(slots: set<int>, m: int): set<int> {
    set k | k in slots && k < m
  }

  /** Raising the bound by one adds `m` exactly when it is a member. */
  lemma BelowGrows(slots: set<int>, m: int)
    ensures |Below(slots, m + 1)| == |Below(slots, m)| + (if m in slots then 1 else 0)
  {
    if m in slots {
      assert Below(slots, m + 1) == Below(slots, m) + {m};
    } else {
      assert Below(slots, m + 1) == Below(slots, m);
    }
  }

  /**
   * The number of joints of one leg (hip, knee, ankle, foot) the sensor
   * reports as tracked: the two counters of the height functions.
   */
  function TrackedLegJoints(body: Body, rightLeg: bool): (n: nat)
    requires WellFormed(body)
    ensures n == |TrackedLegSlots(body, rightLeg)|
    ensures n <= 4
    ensures n == 4 <==> forall k :: 0 <= k < 4 ==> IsTrackedJoint(body, LegChain(rightLeg)[k])
    ensures n == 0 <==> forall k :: 0 <= k < 4 ==> !IsTrackedJoint(body, LegChain(rightLeg)[k])
  {
    var slots := TrackedLegSlots(body, rightLeg);
    var c := LegChain(rightLeg);
    BelowGrows(slots, 0);
    BelowGrows(slots, 1);
    BelowGrows(slots, 2);
    BelowGrows(slots, 3);
    assert Below(slots, 0) == {};
    assert Below(slots, 4) == slots;
    assert forall k :: 0 <= k < 4 ==> (k in slots <==> TrackedIndicator(body, c[k]) == 1);
    TrackedIndicator(body, c[0]) + TrackedIndicator(body, c[1]) + TrackedIndicator(body, c[2]) + TrackedIndicator(body, c[3])
  }

  /**
   * The leg-selection rule: the right leg is measured unless the left leg
   * has strictly more tracked joints; so a fully tracked right leg, or a
   * left leg with no tracked joint, always selects the right leg.
   */
  function UsesRightLeg(body: Body): (right: bool)
    requires WellFormed(body)
    ensures right <==> |TrackedLegSlots(body, false)| <= |TrackedLegSlots(body, true)|
    ensures (forall k :: 0 <= k < 4 ==> IsTrackedJoint(body, LegChain(true)[k])) ==> right
    ensures (forall k :: 0 <= k < 4 ==> !IsTrackedJoint(body, LegChain(false)[k])) ==> right
    ensures !right ==> exists k :: 0 <= k < 4 && IsTrackedJoint(body, LegChain(false)[k])
  {
    var trackedJointsLeft := TrackedLegJoints(body, false);
    var trackedJointsRight := TrackedLegJoints(body, true);
    !(trackedJointsLeft > trackedJointsRight)
  }

  /** Head to neck, neck to spine-shoulder, spine-shoulder to spine-base. */
  function TorsoLength<V>(distance: (V, V) -> Float, jointPos: seq<V>): Float
    requires |jointPos| == JointCount
  {
    Add(Add(distance(jointPos[Head], jointPos[Neck]), distance(jointPos[Neck], jointPos[SpineShoulder])),
        distance(jointPos[SpineShoulder], jointPos[SpineBase]))
  }

  /** `ComputeBodyHeight`, as written: both branches of the leg selection pass `false`. */
  function ComputeBodyHeight(math: MathLib, body: Body): Float
    requires WellFormed(body)
  {
    var jointPos := UnityPositions(body.joints);
    var dHead2Neck := math.distance3(jointPos[Head], jointPos[Neck]);
    var dNeck2SpineShoulder := math.distance3(jointPos[Neck], jointPos[SpineShoulder]);
    var dSpine := math.distance3(jointPos[SpineShoulder], jointPos[SpineBase]);
    var trackedJointsLeft := TrackedLegJoints(body, false);
    var trackedJointsRight := TrackedLegJoints(body, true);
    var dLeg := if trackedJointsLeft > trackedJointsRight then ComputeLegLength(math, body, false)
                else ComputeLegLength(math, body, false);
    Add(Add(Add(Add(dHead2Neck, dNeck2SpineShoulder), dSpine), dLeg), Finite(FootClearance))
  }

  /** The 3-D height with the leg-selection rule applied as the 2-D height applies it. */
  function ComputeBodyHeightCorrected(math: MathLib, body: Body): Float
    requires WellFormed(body)
  {
    var jointPos := UnityPositions(body.joints);
    var dLeg := ComputeLegLength(math, body, UsesRightLeg(body));
    Add(Add(TorsoLength(math.distance3, jointPos), dLeg), Finite(FootClearance))
  }

  function ComputeBodyHeightInScreenCoordinates(math: MathLib, mapper: Mapper, body: Body,
                                                scale: Real2, position: Real2): Float
    requires WellFormed(body)
  {
    var jointPos := Screen2D(mapper, body.joints, scale, position);
    var dHead2Neck := math.distance2(jointPos[Head], jointPos[Neck]);
    var dNeck2SpineShoulder := math.distance2(jointPos[Neck], jointPos[SpineShoulder]);
    var dSpine := math.distance2(jointPos[SpineShoulder], jointPos[SpineBase]);
    var trackedJointsLeft := TrackedLegJoints(body, false);
    var trackedJointsRight := TrackedLegJoints(body, true);
    var legLength := if trackedJointsLeft > trackedJointsRight
                     then ComputeLegLength2D(math, mapper, body, scale, position, false)
                     else ComputeLegLength2D(math, mapper, body, scale, position, true);
    Add(Add(Add(Add(dHead2Neck, dNeck2SpineShoulder), dSpine), legLength), Finite(FootClearance))
  }

  /**
   * The 3-D height always adds the LEFT leg, whatever the tracked-joint
   * counts: with a tie, or a better-tracked right leg, it still differs from
   * the height the selection rule asks for by the difference of the two legs.
   */
  lemma ComputeBodyHeightAlwaysLeft(math: MathLib, body: Body)
    requires WellFormed(body)
    ensures ComputeBodyHeight(math, body) ==
      Add(Add(TorsoLength(math.distance3, UnityPositions(body.joints)), ComputeLegLength(math, body, false)),
          Finite(FootClearance))
    ensures UsesRightLeg(body) ==>
      ComputeBodyHeightCorrected(math, body) ==
        Add(Add(TorsoLength(math.distance3, UnityPositions(body.joints)), ComputeLegLength(math, body, true)),
            Finite(FootClearance))
  {
  }

  /**
   * The screen height is torso + the selected leg + 0.08; when both are
   * finite, the height minus the selected leg is the torso plus the
   * clearance, whichever leg is selected.
   */
  lemma HeightSelectsLeg2D(math: MathLib, mapper: Mapper, body: Body, scale: Real2, position: Real2)
    requires WellFormed(body)
    ensures var torso := TorsoLength(math.distance2, Screen2D(mapper, body.joints, scale, position));
      var leg := ComputeLegLength2D(math, mapper, body, scale, position, UsesRightLeg(body));
      && ComputeBodyHeightInScreenCoordinates(math, mapper, body, scale, position) ==
         Add(Add(torso, leg), Finite(FootClearance))
      && (torso.Finite? && leg.Finite? ==>
          ComputeBodyHeightInScreenCoordinates(math, mapper, body, scale, position) ==
          Finite(torso.v + leg.v + FootClearance))
  {
    var pts := Screen2D(mapper, body.joints, scale, position);
    var leg := ComputeLegLength2D(math, mapper, body, scale, position, UsesRightLeg(body));
    assert ComputeBodyHeightInScreenCoordinates(math, mapper, body, scale, position) ==
           Add(Add(TorsoLength(math.distance2, pts), leg), Finite(FootClearance));
  }

  /** The corrected 3-D height is likewise torso + the selected leg + 0.08. */
  lemma HeightSelectsLeg(math: MathLib, body: Body)
    requires WellFormed(body)
    ensures var torso := TorsoLength(math.distance3, UnityPositions(body.joints));
      var leg := ComputeLegLength(math, body, UsesRightLeg(body));
      torso.Finite? && leg.Finite? ==>
        ComputeBodyHeightCorrected(math, body) == Finite(torso.v + leg.v + FootClearance)
  {
  }

  /** Ties, including a body with no tracked leg joint, measure the right leg. */
  lemma LegSelectionTieGoesRight(body: Body)
    requires WellFormed(body)
    requires TrackedLegJoints(body, false) == TrackedLegJoints(body, true)
    ensures UsesRightLeg(body)
  {
  }

  // ---------------------------------------------------------------------
  // Angles: which joints and which plane feed the opaque angle
  // ---------------------------------------------------------------------

  /** Spine base minus spine shoulder: the torso's reference vector. */
  function SpineVector(jointPos: seq<Vec3>): Vec3
    requires |jointPos| == JointCount
  {
    Minus(jointPos[SpineBase], jointPos[SpineShoulder])
  }

  /** Shoulder minus elbow on one side. */
  function UpperArmVector(jointPos: seq<Vec3>, rightArm: bool): Vec3
    requires |jointPos| == JointCount
  {
    if rightArm then Minus(jointPos[ShoulderRight], jointPos[ElbowRight])
    else Minus(jointPos[ShoulderLeft], jointPos[ElbowLeft])
  }

  /** Hip minus knee on one side. */
  function ThighVector(jointPos: seq<Vec3>, rightLeg: bool): Vec3
    requires |jointPos| == JointCount
  {
    if rightLeg then Minus(jointPos[HipRight], jointPos[KneeRight])
    else Minus(jointPos[HipLeft], jointPos[KneeLeft])
  }

  /** The spine projected on the coronal (x, y) or the sagittal (z, y) plane. */
  function SpinePlaneVector(body: Body, coronalPlane: bool): Vec2
    requires WellFormed(body)
  {
    var spineVec := SpineVector(UnityPositions(body.joints));
    if coronalPlane then Vec2(spineVec.x, spineVec.y) else Vec2(spineVec.z, spineVec.y)
  }

  function FlexionSpineAngle(math: MathLib, body: Body, coronalPlane: bool): Float
    requires WellFormed(body)
  {
    math.angle(Up, SpinePlaneVector(body, coronalPlane))
  }

  function AbductionShoulderAngle(math: MathLib, body: Body, rightArm: bool): Float
    requires WellFormed(body)
  {
    var jointPos := UnityPositions(body.joints);
    math.angle(XY(SpineVector(jointPos)), XY(UpperArmVector(jointPos, rightArm)))
  }

  /** `AbductionLegAngle`, as written: the "leg" vector is shoulder minus elbow. */
  function AbductionLegAngle(math: MathLib, body: Body, rightLeg: bool): Float
    requires WellFormed(body)
  {
    var jointPos := UnityPositions(body.joints);
    var spineVec := Minus(jointPos[SpineBase], jointPos[SpineShoulder]);
    var legVec := if rightLeg then Minus(jointPos[ShoulderRight], jointPos[ElbowRight])
                  else Minus(jointPos[ShoulderLeft], jointPos[ElbowLeft]);
    math.angle(Vec2(spineVec.x, spineVec.y), Vec2(legVec.x, legVec.y))
  }

  /** The leg abduction angle with the thigh (hip minus knee) as the limb vector. */
  function AbductionLegAngleCorrected(math: MathLib, body: Body, rightLeg: bool): Float
    requires WellFormed(body)
  {
    var jointPos := UnityPositions(body.joints);
    math.angle(XY(SpineVector(jointPos)), XY(ThighVector(jointPos, rightLeg)))
  }

  function FlexionShoulderAngle(math: MathLib, body: Body, rightArm: bool): Float
    requires WellFormed(body)
  {
    var armVec := UpperArmVector(UnityPositions(body.joints), rightArm);
    math.angle(Down, Vec2(armVec.z, armVec.y))
  }

  /** `acos(dot(u, v) / (|u| * |v|))` with no guard and no clamp. */
  function AngleBetween(math: MathLib, u: Vec3, v: Vec3): Float {
    math.acos(Div(Dot(u, v), Mul(math.magnitude(u), math.magnitude(v))))
  }

  /** Radians between shoulder minus elbow and elbow minus wrist; the cosine is not clamped to [-1, 1] before `acos`. */
  function FlexionElbowAngle(math: MathLib, body: Body, rightArm: bool): Float
    requires WellFormed(body)
  {
    var jointPos := UnityPositions(body.joints);
    if rightArm then
      AngleBetween(math, Minus(jointPos[ShoulderRight], jointPos[ElbowRight]),
                   Minus(jointPos[ElbowRight], jointPos[WristRight]))
    else
      AngleBetween(math, Minus(jointPos[ShoulderLeft], jointPos[ElbowLeft]),
                   Minus(jointPos[ElbowLeft], jointPos[WristLeft]))
  }

  /** `FlexionLegAngle`, as written: the 3-D thigh vector is passed, so Unity keeps its (x, y). */
  function FlexionLegAngle(math: MathLib, body: Body, rightLeg: bool): Float
    requires WellFormed(body)
  {
    var legVec := ThighVector(UnityPositions(body.joints), rightLeg);
    math.angle(Down, XY(legVec))
  }

  /** The leg flexion angle measured, like the shoulder flexion, in the sagittal (z, y) plane. */
  function FlexionLegAngleCorrected(math: MathLib, body: Body, rightLeg: bool): Float
    requires WellFormed(body)
  {
    var legVec := ThighVector(UnityPositions(body.joints), rightLeg);
    math.angle(Down, Vec2(legVec.z, legVec.y))
  }

  /** Radians between hip minus knee and knee minus ankle; the cosine is not clamped to [-1, 1] before `acos`. */
  function FlexionKneeAngle(math: MathLib, body: Body, rightLeg: bool): Float
    requires WellFormed(body)
  {
    var jointPos := UnityPositions(body.joints);
    if rightLeg then
      AngleBetween(math, Minus(jointPos[HipRight], jointPos[KneeRight]),
                   Minus(jointPos[KneeRight], jointPos[AnkleRight]))
    else
      AngleBetween(math, Minus(jointPos[HipLeft], jointPos[KneeLeft]),
                   Minus(jointPos[KneeLeft], jointPos[AnkleLeft]))
  }

  // Agreement of two bodies on some coordinates of some joints.

  predicate SameXY(b1: Body, b2: Body, j: JointType)
    requires WellFormed(b1) && WellFormed(b2)
  {
    b1.joints[j].position.x == b2.joints[j].position.x && b1.joints[j].position.y == b2.joints[j].position.y
  }

  predicate SameZY(b1: Body, b2: Body, j: JointType)
    requires WellFormed(b1) && WellFormed(b2)
  {
    b1.joints[j].position.z == b2.joints[j].position.z && b1.joints[j].position.y == b2.joints[j].position.y
  }

  /** The coronal spine angle reads only x and y, the sagittal one only z and y, of the two spine joints. */
  lemma FlexionSpineAnglePlanes(math: MathLib, b1: Body, b2: Body)
    requires WellFormed(b1) && WellFormed(b2)
    ensures SameXY(b1, b2, SpineBase) && SameXY(b1, b2, SpineShoulder) ==>
      FlexionSpineAngle(math, b1, true) == FlexionSpineAngle(math, b2, true)
    ensures SameZY(b1, b2, SpineBase) && SameZY(b1, b2, SpineShoulder) ==>
      FlexionSpineAngle(math, b1, false) == FlexionSpineAngle(math, b2, false)
  {
  }

  /** The shoulder abduction angle lies in the frontal plane: depth never changes it. */
  lemma AbductionShoulderAngleFrontal(math: MathLib, b1: Body, b2: Body, rightArm: bool)
    requires WellFormed(b1) && WellFormed(b2)
    requires SameXY(b1, b2, SpineBase) && SameXY(b1, b2, SpineShoulder)
    requires SameXY(b1, b2, ArmChain(rightArm)[0]) && SameXY(b1, b2, ArmChain(rightArm)[1])
    ensures AbductionShoulderAngle(math, b1, rightArm) == AbductionShoulderAngle(math, b2, rightArm)
  {
  }

  /** The shoulder flexion angle lies in the sagittal plane: sideways motion never changes it. */
  lemma FlexionShoulderAngleSagittal(math: MathLib, b1: Body, b2: Body, rightArm: bool)
    requires WellFormed(b1) && WellFormed(b2)
    requires SameZY(b1, b2, ArmChain(rightArm)[0]) && SameZY(b1, b2, ArmChain(rightArm)[1])
    ensures FlexionShoulderAngle(math, b1, rightArm) == FlexionShoulderAngle(math, b2, rightArm)
  {
  }

  /** As written, the leg abduction angle is the shoulder abduction angle of the same side. */
  lemma AbductionLegAngleIsShoulderAngle(math: MathLib, body: Body, right: bool)
    requires WellFormed(body)
    ensures AbductionLegAngle(math, body, right) == AbductionShoulderAngle(math, body, right)
  {
  }

  /** The corrected leg abduction angle reads the spine, hip and knee in the frontal plane only. */
  lemma AbductionLegAngleCorrectedFrontal(math: MathLib, b1: Body, b2: Body, rightLeg: bool)
    requires WellFormed(b1) && WellFormed(b2)
    requires SameXY(b1, b2, SpineBase) && SameXY(b1, b2, SpineShoulder)
    requires SameXY(b1, b2, LegChain(rightLeg)[0]) && SameXY(b1, b2, LegChain(rightLeg)[1])
    ensures AbductionLegAngleCorrected(math, b1, rightLeg) == AbductionLegAngleCorrected(math, b2, rightLeg)
  {
  }

  /**
   * As written, the leg flexion angle ignores depth: two bodies whose hip
   * and knee differ only in z read the same flexion, so a forward leg raise
   * (a change in z) is invisible to it.
   */
  lemma FlexionLegAngleIgnoresDepth(math: MathLib, b1: Body, b2: Body, rightLeg: bool)
    requires WellFormed(b1) && WellFormed(b2)
    requires SameXY(b1, b2, LegChain(rightLeg)[0]) && SameXY(b1, b2, LegChain(rightLeg)[1])
    ensures FlexionLegAngle(math, b1, rightLeg) == FlexionLegAngle(math, b2, rightLeg)
  {
  }

  /** The corrected leg flexion angle lies in the sagittal plane, like the shoulder flexion. */
  lemma FlexionLegAngleCorrectedSagittal(math: MathLib, b1: Body, b2: Body, rightLeg: bool)
    requires WellFormed(b1) && WellFormed(b2)
    requires SameZY(b1, b2, LegChain(rightLeg)[0]) && SameZY(b1, b2, LegChain(rightLeg)[1])
    ensures FlexionLegAngleCorrected(math, b1, rightLeg) == FlexionLegAngleCorrected(math, b2, rightLeg)
  {
  }

  predicate SamePosition(b1: Body, b2: Body, j: JointType)
    requires WellFormed(b1) && WellFormed(b2)
  {
    b1.joints[j].position == b2.joints[j].position
  }

  /** The elbow angle reads only the 3-D positions of the side's shoulder, elbow and wrist: the hand and every other joint never change it. */
  lemma FlexionElbowAngleFromChain(math: MathLib, b1: Body, b2: Body, rightArm: bool)
    requires WellFormed(b1) && WellFormed(b2)
    requires SamePosition(b1, b2, ArmChain(rightArm)[0]) && SamePosition(b1, b2, ArmChain(rightArm)[1])
    requires SamePosition(b1, b2, ArmChain(rightArm)[2])
    ensures FlexionElbowAngle(math, b1, rightArm) == FlexionElbowAngle(math, b2, rightArm)
  {
  }

  /** The knee angle reads only the 3-D positions of the side's hip, knee and ankle: the foot and every other joint never change it. */
  lemma FlexionKneeAngleFromChain(math: MathLib, b1: Body, b2: Body, rightLeg: bool)
    requires WellFormed(b1) && WellFormed(b2)
    requires SamePosition(b1, b2, LegChain(rightLeg)[0]) && SamePosition(b1, b2, LegChain(rightLeg)[1])
    requires SamePosition(b1, b2, LegChain(rightLeg)[2])
    ensures FlexionKneeAngle(math, b1, rightLeg) == FlexionKneeAngle(math, b2, rightLeg)
  {
  }
}
