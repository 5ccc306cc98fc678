/**
 * The shoulder abduction supervisor: for the tracked body it draws a marker
 * on each shoulder and hand, an elbow marker that shows only while the elbow
 * is bent past 30 degrees, and a text box beside each shoulder with the
 * shoulder's abduction angle.
 */
module ShoulderAbduction {
  import opened Numerics
  import opened Kinect
  import opened Scene
  import BodyAnalysis

  /** The prefabs the script instantiates, and its own transform. */
  datatype Config = Config(shoulderMarker: Marker, elbowMarker: Marker, handMarker: Marker, textBox: Marker,
                           screen: Screen)

  /** The elbow angle, in degrees, above which the elbow marker is shown. */
  const MinElbowAngle: real := 30.0

  /** Index of a side's first child: the left side comes first. */
  function SideBase(right: bool): nat {
    if right then 4 else 0
  }

  function ShoulderName(right: bool): Name { if right then RightShoulder else LeftShoulder }
  function ElbowName(right: bool): Name { if right then RightElbow else LeftElbow }
  function HandName(right: bool): Name { if right then RightHand else LeftHand }
  function TextName(right: bool): Name { if right then RightText else LeftText }

  /** The children `CreateBody` adds, in order: the left side's four, then the right side's. */
  predicate Shaped(children: seq<Marker>) {
    && |children| == 8
    && children[0].name == LeftShoulder && children[1].name == LeftElbow
    && children[2].name == LeftHand && children[3].name == LeftText
    && children[4].name == RightShoulder && children[5].name == RightElbow
    && children[6].name == RightHand && children[7].name == RightText
  }

  /** In a body object of this script, every child is found at its creation index. */
  lemma FindInShaped(children: seq<Marker>, right: bool)
    requires Shaped(children)
    ensures Find(children, ShoulderName(right)) == SideBase(right)
    ensures Find(children, ElbowName(right)) == SideBase(right) + 1
    ensures Find(children, HandName(right)) == SideBase(right) + 2
    ensures Find(children, TextName(right)) == SideBase(right) + 3
  {
    FindDistinct(children, SideBase(right));
    FindDistinct(children, SideBase(right) + 1);
    FindDistinct(children, SideBase(right) + 2);
    FindDistinct(children, SideBase(right) + 3);
  }

  /** The child `CreateBody` makes for a slot: a copy of the slot's prefab; elbow markers start hidden. */
  function NewChild(config: Config, right: bool, slot: nat): (m: Marker)
    ensures m.name == SlotName(right, slot)
    ensures slot == 1 ==> !m.active
  {
    if slot == 0 then Instantiate(config.shoulderMarker, ShoulderName(right))
    else if slot == 1 then Instantiate(config.elbowMarker, ElbowName(right)).(active := false)
    else if slot == 2 then Instantiate(config.handMarker, HandName(right))
    else Instantiate(config.textBox, TextName(right))
  }

  /** One side's children in creation order: shoulder, elbow, hand, text box. */
  function NewSide(config: Config, right: bool): (cs: seq<Marker>)
    ensures |cs| == 4 && forall slot :: 0 <= slot < 4 ==> cs[slot] == NewChild(config, right, slot)
  {
    [NewChild(config, right, 0), NewChild(config, right, 1), NewChild(config, right, 2), NewChild(config, right, 3)]
  }

  /** Four children per side, the left side first, each a copy of its prefab; both elbow markers start hidden. */
  function CreateBody(config: Config, id: TrackingId): (b: BodyObject)
    ensures b.id == id && Shaped(b.children)
    ensures forall k :: 0 <= k < 8 ==> b.children[k] == NewChild(config, k >= 4, k - SideBase(k >= 4))
  {
    BodyObject(id, NewSide(config, false) + NewSide(config, true))
  }

  /** The elbow flexion converted to degrees, `angle * 180 / PI` in that order. */
  function ElbowDegrees(math: MathLib, body: Body, right: bool): Float
    requires WellFormed(body)
  {
    Div(Mul(BodyAnalysis.FlexionElbowAngle(math, body, right), Finite(180.0)), Finite(PI))
  }

  /** Where the guarded markers go: the joint's screen point, half a unit in front of the screen. */
  function MarkerTarget(p: Vec2, screen: Screen): Vec3 {
    Vec3(p.x, p.y, Finite(screen.position.z - 0.5))
  }

  /** Where a text box goes: two units outside the shoulder, at depth `position.x - 0.5`, with no guard. */
  function TextTarget(p: Vec2, screen: Screen, right: bool): Vec3 {
    Vec3(if right then Add(p.x, Finite(2.0)) else Sub(p.x, Finite(2.0)), p.y, Finite(screen.position.x - 0.5))
  }

  /** What one side's refresh reads from the body: three screen points and two angles. */
  datatype SideReadings = SideReadings(shoulder: Vec2, elbow: Vec2, hand: Vec2, abduction: Float, elbowDegrees: Float)

  function Readings(math: MathLib, body: Body, pts: seq<Vec2>, right: bool): SideReadings
    requires WellFormed(body) && |pts| == JointCount
  {
    var chain := BodyAnalysis.ArmChain(right);
    SideReadings(pts[chain[0]], pts[chain[1]], pts[chain[3]],
                 BodyAnalysis.AbductionShoulderAngle(math, body, right), ElbowDegrees(math, body, right))
  }

  /**
   * What the refresh makes of the child in `slot` (shoulder, elbow, hand,
   * text box) of one side: shoulder and hand markers move only past the
   * infinity guard; the elbow marker, past the guard, moves and is shown iff
   * the elbow is bent past 30 degrees; the text box always moves beside the
   * shoulder and shows the shoulder's abduction angle.
   */
  function SlotUpdate(screen: Screen, rd: SideReadings, m: Marker, right: bool, slot: nat): (r: Marker)
    ensures r.name == m.name
  {
    if slot == 0 then
      (if Usable(rd.shoulder) then m.(position := MarkerTarget(rd.shoulder, screen)) else m)
    else if slot == 1 then
      (if Usable(rd.elbow)
       then m.(active := Greater(rd.elbowDegrees, MinElbowAngle), position := MarkerTarget(rd.elbow, screen))
       else m)
    else if slot == 2 then
      (if Usable(rd.hand) then m.(position := MarkerTarget(rd.hand, screen)) else m)
    else
      m.(position := TextTarget(rd.shoulder, screen, right), text := AngleText(rd.abduction))
  }

  /** The name of the child in `slot` of a side: shoulder, elbow, hand, text box. */
  function SlotName(right: bool, slot: nat): Name {
    if slot == 0 then ShoulderName(right)
    else if slot == 1 then ElbowName(right)
    else if slot == 2 then HandName(right)
    else TextName(right)
  }

  /** One step of the refresh: the slot's child, looked up by name in the current children, gets its update. */
  function RefreshSlot(screen: Screen, rd: SideReadings, children: seq<Marker>, right: bool, slot: nat)
    : (r: seq<Marker>)
    requires Shaped(children) && slot < 4
    ensures Shaped(r)
    ensures forall k :: 0 <= k < 8 ==>
      r[k] == if k == SideBase(right) + slot then SlotUpdate(screen, rd, children[k], right, slot) else children[k]
  {
    FindInShaped(children, right);
    var joint := Find(children, SlotName(right, slot));
    children[joint := SlotUpdate(screen, rd, children[joint], right, slot)]
  }

  /** One side of the refresh: shoulder marker, text box, elbow marker, hand marker, in that order. */
  function RefreshSide(config: Config, math: MathLib, body: Body, pts: seq<Vec2>, children: seq<Marker>, right: bool)
    : (r: seq<Marker>)
    requires WellFormed(body) && |pts| == JointCount && Shaped(children)
    ensures Shaped(r)
  {
    var rd := Readings(math, body, pts, right);
    var c1 := RefreshSlot(config.screen, rd, children, right, 0);
    var c2 := RefreshSlot(config.screen, rd, c1, right, 3);
    var c3 := RefreshSlot(config.screen, rd, c2, right, 1);
    RefreshSlot(config.screen, rd, c3, right, 2)
  }

  /** Both sides, the left one first. */
  function RefreshSides(config: Config, math: MathLib, body: Body, pts: seq<Vec2>, children: seq<Marker>)
    : (r: seq<Marker>)
    requires WellFormed(body) && |pts| == JointCount && Shaped(children)
    ensures Shaped(r)
  {
    RefreshSide(config, math, body, pts, RefreshSide(config, math, body, pts, children, false), true)
  }

  /** `RefreshBodyObject`: the two sides, from the body's 2-D joint positions. */
  function RefreshBodyObject(config: Config, math: MathLib, mapper: Mapper, body: Body, obj: BodyObject)
    : (r: BodyObject)
    requires WellFormed(body) && Shaped(obj.children)
    ensures r.id == obj.id && Shaped(r.children)
  {
    var pts := BodyAnalysis.Screen2D(mapper, body.joints, ScreenScale(config.screen), ScreenPosition(config.screen));
    BodyObject(obj.id, RefreshSides(config, math, body, pts, obj.children))
  }

  /** The side's four slots are updated, whatever the order, and the other side is left alone. */
  lemma SlotsEffect(screen: Screen, rd: SideReadings, children: seq<Marker>, right: bool)
    requires Shaped(children)
    ensures var r := RefreshSlot(screen, rd, RefreshSlot(screen, rd, RefreshSlot(screen, rd,
                       RefreshSlot(screen, rd, children, right, 0), right, 3), right, 1), right, 2);
      var b := SideBase(right);
      forall k :: 0 <= k < 8 ==>
        r[k] == if b <= k < b + 4 then SlotUpdate(screen, rd, children[k], right, k - b) else children[k]
  {
  }

  /** One side's refresh updates that side's four children slot by slot and leaves the other side alone. */
  lemma RefreshSideEffect(config: Config, math: MathLib, body: Body, pts: seq<Vec2>, children: seq<Marker>,
                          right: bool)
    requires WellFormed(body) && |pts| == JointCount && Shaped(children)
    ensures var r := RefreshSide(config, math, body, pts, children, right);
      var rd := Readings(math, body, pts, right);
      var b := SideBase(right);
      forall k :: 0 <= k < 8 ==>
        r[k] == if b <= k < b + 4 then SlotUpdate(config.screen, rd, children[k], right, k - b) else children[k]
  {
    SlotsEffect(config.screen, Readings(math, body, pts, right), children, right);
  }

  /** Both sides' refresh: every child ends as its side's `SlotUpdate` makes it. */
  lemma RefreshSidesEffect(config: Config, math: MathLib, body: Body, pts: seq<Vec2>, children: seq<Marker>)
    requires WellFormed(body) && |pts| == JointCount && Shaped(children)
    ensures var r := RefreshSides(config, math, body, pts, children);
      forall k :: 0 <= k < 8 ==>
        r[k] == SlotUpdate(config.screen, Readings(math, body, pts, k >= 4), children[k], k >= 4, k - SideBase(k >= 4))
  {
    var left := RefreshSide(config, math, body, pts, children, false);
    var r := RefreshSide(config, math, body, pts, left, true);
    RefreshSideEffect(config, math, body, pts, children, false);
    RefreshSideEffect(config, math, body, pts, left, true);
    forall k | 0 <= k < 8
      ensures r[k] == SlotUpdate(config.screen, Readings(math, body, pts, k >= 4), children[k], k >= 4, k - SideBase(k >= 4))
    {
      if k < 4 {
        assert r[k] == left[k];
      }
    }
  }

  /**
   * The whole refresh: every child of either side ends as `SlotUpdate` makes
   * it from what it was and from that side's readings of the body; the two
   * sides do not interfere.
   */
  lemma RefreshBodyObjectEffect(config: Config, math: MathLib, mapper: Mapper, body: Body, obj: BodyObject)
    requires WellFormed(body) && Shaped(obj.children)
    ensures var pts := BodyAnalysis.Screen2D(mapper, body.joints, ScreenScale(config.screen), ScreenPosition(config.screen));
      var r := RefreshBodyObject(config, math, mapper, body, obj).children;
      forall k :: 0 <= k < 8 ==>
        r[k] == SlotUpdate(config.screen, Readings(math, body, pts, k >= 4), obj.children[k], k >= 4, k - SideBase(k >= 4))
  {
    var pts := BodyAnalysis.Screen2D(mapper, body.joints, ScreenScale(config.screen), ScreenPosition(config.screen));
    RefreshSidesEffect(config, math, body, pts, obj.children);
  }

  /**
   * After a refresh from any screen points, an elbow marker whose point passed the guard is active
   * exactly when that elbow is bent past 30 degrees; otherwise its activity
   * is what it was.
   */
  lemma ElbowMarkerVisibility(config: Config, math: MathLib, body: Body, pts: seq<Vec2>, children: seq<Marker>,
                              right: bool)
    requires WellFormed(body) && |pts| == JointCount && Shaped(children)
    ensures var r := RefreshSides(config, math, body, pts, children);
      var e := SideBase(right) + 1;
      var elbow := pts[BodyAnalysis.ArmChain(right)[1]];
      && r[e].name == ElbowName(right)
      && (Usable(elbow) ==> (r[e].active <==> Greater(ElbowDegrees(math, body, right), MinElbowAngle)))
      && (!Usable(elbow) ==> r[e].active == children[e].active)
  {
    var e := SideBase(right) + 1;
    var left := RefreshSide(config, math, body, pts, children, false);
    RefreshSideEffect(config, math, body, pts, children, false);
    RefreshSideEffect(config, math, body, pts, left, true);
    assert RefreshSides(config, math, body, pts, children)[e] ==
           SlotUpdate(config.screen, Readings(math, body, pts, right), children[e], right, 1);
  }
}
