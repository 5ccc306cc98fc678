/**
 * The body-angle viewer: a marker on every joint of the tracked body, and
 * two text boxes, one at the head with the coronal and sagittal spine
 * angles, one at the right shoulder with its flexion and abduction angles.
 */
module ViewBodyAngles {
  import opened Numerics
  import opened Kinect
  import opened Scene
  import BodyAnalysis

  datatype Config = Config(marker: Marker, textBox: Marker, screen: Screen)

  /** Where the two text boxes sit among the children: after the 25 joint markers. */
  const SpineBox: nat := 25
  const ShoulderBox: nat := 26

  /** The children `CreateBody` makes: joint markers in joint-type order, then the two text boxes. */
  predicate Shaped(children: seq<Marker>) {
    && |children| == JointCount + 2
    && (forall jt: JointType :: children[jt].name == JointName(jt))
    && children[SpineBox].name == SpineAngles
    && children[ShoulderBox].name == RightShoulderAngles
  }

  /** The text boxes are found at their creation indices. */
  lemma FindBoxes(children: seq<Marker>)
    requires Shaped(children)
    ensures Find(children, SpineAngles) == SpineBox
    ensures Find(children, RightShoulderAngles) == ShoulderBox
  {
    assert forall k :: 0 <= k < SpineBox ==> children[k].name.JointName?;
    FindFirst(children, SpineAngles);
    FindFirst(children, RightShoulderAngles);
  }

  function CreateBody(config: Config, id: TrackingId): (b: BodyObject)
    ensures b.id == id && Shaped(b.children)
    ensures forall jt: JointType :: b.children[jt] == Instantiate(config.marker, JointName(jt))
    ensures b.children[SpineBox] == Instantiate(config.textBox, SpineAngles)
    ensures b.children[ShoulderBox] == Instantiate(config.textBox, RightShoulderAngles)
  {
    BodyObject(id, JointMarkers(config.marker) +
                   [Instantiate(config.textBox, SpineAngles), Instantiate(config.textBox, RightShoulderAngles)])
  }

  /** The 2-D joint positions the refresh works from; the script repeats the conversion of `SimpleBodyTracker.Points`. */
  function Points(config: Config, mapper: Mapper, body: Body): (pts: seq<Vec2>)
    requires WellFormed(body)
    ensures |pts| == JointCount
  {
    BodyAnalysis.Screen2D(mapper, body.joints, ScreenScale(config.screen), ScreenPosition(config.screen))
  }

  /** Where a text box goes: the joint's screen point, half a unit in front of the screen, with no guard. */
  function BoxTarget(p: Vec2, screen: Screen): Vec3 {
    Vec3(p.x, p.y, Finite(screen.position.z - 0.5))
  }

  /** The spine box's text: the truncated coronal and sagittal spine angles. */
  function SpineLabel(math: MathLib, body: Body): Label
    requires WellFormed(body)
  {
    SpineText(TruncateToInt(BodyAnalysis.FlexionSpineAngle(math, body, true)),
              TruncateToInt(BodyAnalysis.FlexionSpineAngle(math, body, false)))
  }

  /** The right shoulder box's text: the truncated flexion and abduction angles of the right shoulder. */
  function ShoulderLabel(math: MathLib, body: Body): Label
    requires WellFormed(body)
  {
    ShoulderText(TruncateToInt(BodyAnalysis.FlexionShoulderAngle(math, body, true)),
                 TruncateToInt(BodyAnalysis.AbductionShoulderAngle(math, body, true)))
  }

  /** The part of the refresh after the child loop: both text boxes, found by name, placed and labelled. */
  function PlaceTextBoxes(config: Config, math: MathLib, body: Body, pts: seq<Vec2>, children: seq<Marker>)
    : (r: seq<Marker>)
    requires WellFormed(body) && |pts| == JointCount && Shaped(children)
    ensures Shaped(r)
    ensures forall jt: JointType :: r[jt] == children[jt]
    ensures r[SpineBox] == children[SpineBox].(position := BoxTarget(pts[Head], config.screen), text := SpineLabel(math, body))
    ensures r[ShoulderBox] == children[ShoulderBox].(position := BoxTarget(pts[ShoulderRight], config.screen),
                                                     text := ShoulderLabel(math, body))
  {
    FindBoxes(children);
    var spineBox := Find(children, SpineAngles);
    var c1 := children[spineBox := children[spineBox].(position := BoxTarget(pts[Head], config.screen),
                                                     text := SpineLabel(math, body))];
    FindBoxes(c1);
    var rightShoulderBox := Find(c1, RightShoulderAngles);
    c1[rightShoulderBox := c1[rightShoulderBox].(position := BoxTarget(pts[ShoulderRight], config.screen),
                                                 text := ShoulderLabel(math, body))]
  }

  /** `RefreshBodyObject`: the child loop over the joint markers, then the text boxes. */
  function RefreshBodyObject(config: Config, math: MathLib, mapper: Mapper, body: Body, obj: BodyObject)
    : (r: BodyObject)
    requires WellFormed(body) && Shaped(obj.children)
    ensures r.id == obj.id && Shaped(r.children)
  {
    var pts := Points(config, mapper, body);
    var moved := MovedChildren(obj.children, pts, AtDepth(pts, config.screen.position.z),
                               BodyAnalysis.UnityOrientations(body.jointOrientations));
    MovedChildrenKeepShape(obj.children, pts, AtDepth(pts, config.screen.position.z),
                           BodyAnalysis.UnityOrientations(body.jointOrientations));
    BodyObject(obj.id, PlaceTextBoxes(config, math, body, pts, moved))
  }

  /**
   * After a refresh, joint marker k sits at joint k's screen point (depth
   * `position.z`) with joint k's orientation unless that point has an
   * infinite coordinate, in which case it is untouched; the loop never
   * reaches the text boxes, which are placed afterwards at the head and the
   * right shoulder, half a unit in front, with their angle texts.
   */
  lemma RefreshBodyObjectEffect(config: Config, math: MathLib, mapper: Mapper, body: Body, obj: BodyObject)
    requires WellFormed(body) && Shaped(obj.children)
    ensures var pts := Points(config, mapper, body);
      var r := RefreshBodyObject(config, math, mapper, body, obj).children;
      && (forall jt: JointType :: r[jt] ==
            if Usable(pts[jt])
            then obj.children[jt].(position := Vec3(pts[jt].x, pts[jt].y, Finite(config.screen.position.z)),
                                   rotation := BodyAnalysis.ToQuaternion(body.jointOrientations[jt]))
            else obj.children[jt])
      && r[SpineBox] == obj.children[SpineBox].(position := BoxTarget(pts[Head], config.screen),
                                                text := SpineLabel(math, body))
      && r[ShoulderBox] == obj.children[ShoulderBox].(position := BoxTarget(pts[ShoulderRight], config.screen),
                                                      text := ShoulderLabel(math, body))
  {
    var pts := Points(config, mapper, body);
    var moved := MovedChildren(obj.children, pts, AtDepth(pts, config.screen.position.z),
                               BodyAnalysis.UnityOrientations(body.jointOrientations));
    MovedChildrenKeepShape(obj.children, pts, AtDepth(pts, config.screen.position.z),
                           BodyAnalysis.UnityOrientations(body.jointOrientations));
    FindBoxes(moved);
  }
}
