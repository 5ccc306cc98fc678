/**
 * The simple body tracker: a marker on every joint of every tracked body,
 * drawn on the screen in front of the colour image.
 */
module SimpleBodyTracker {
  import opened Numerics
  import opened Kinect
  import opened Scene
  import BodyAnalysis

  datatype Config = Config(marker: Marker, screen: Screen)

  /** The 25 joint markers in joint-type order. */
  predicate Shaped(children: seq<Marker>) {
    |children| == JointCount && forall jt: JointType :: children[jt].name == JointName(jt)
  }

  /** One joint marker per joint type; `BoxSkeleton.CreateBody` models the identical copy of this method in `BoxSkeleton.cs`. */
  function CreateBody(config: Config, id: TrackingId): (b: BodyObject)
    ensures b.id == id && Shaped(b.children)
    ensures b.children == JointMarkers(config.marker)
  {
    BodyObject(id, JointMarkers(config.marker))
  }

  /** The body's screen points, which the child loop lifts to the screen's depth; `ViewBodyAngles.Points` is the same conversion, as `ViewBodyAngles.cs` repeats it. */
  function Points(config: Config, mapper: Mapper, body: Body): (pts: seq<Vec2>)
    requires WellFormed(body)
    ensures |pts| == JointCount
  {
    BodyAnalysis.Screen2D(mapper, body.joints, ScreenScale(config.screen), ScreenPosition(config.screen))
  }

  function RefreshBodyObject(config: Config, mapper: Mapper, body: Body, obj: BodyObject): (r: BodyObject)
    requires WellFormed(body) && Shaped(obj.children)
    ensures r.id == obj.id && Shaped(r.children)
  {
    var pts := Points(config, mapper, body);
    var orientations := BodyAnalysis.UnityOrientations(body.jointOrientations);
    MovedChildrenKeepShape(obj.children, pts, AtDepth(pts, config.screen.position.z), orientations);
    BodyObject(obj.id, MovedChildren(obj.children, pts, AtDepth(pts, config.screen.position.z), orientations))
  }

  /**
   * After a refresh, marker k sits at joint k's screen point, at the
   * screen's depth, with joint k's orientation, unless that point has an
   * infinite coordinate, in which case the marker is untouched.
   */
  lemma RefreshBodyObjectEffect(config: Config, mapper: Mapper, body: Body, obj: BodyObject)
    requires WellFormed(body) && Shaped(obj.children)
    ensures var pts := Points(config, mapper, body);
      var r := RefreshBodyObject(config, mapper, body, obj).children;
      forall jt: JointType :: r[jt] ==
        if Usable(pts[jt])
        then obj.children[jt].(position := Vec3(pts[jt].x, pts[jt].y, Finite(config.screen.position.z)),
                               rotation := BodyAnalysis.ToQuaternion(body.jointOrientations[jt]))
        else obj.children[jt]
  {
  }
}
