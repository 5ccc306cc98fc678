/**
 * The box skeleton: a marker on every joint of the tracked body, placed at
 * the joint's camera-space position times a scale factor.
 */
module BoxSkeleton {
  import opened Numerics
  import opened Kinect
  import opened Scene
  import BodyAnalysis

  /** The marker prefab and the scale factor (1 by default). */
  datatype Config = Config(marker: Marker, scale: real)

  predicate Shaped(children: seq<Marker>) {
    |children| == JointCount && forall jt: JointType :: children[jt].name == JointName(jt)
  }

  /** One joint marker per joint type, as in `SimpleBodyTracker.CreateBody`: the two scripts carry separate copies of this method. */
  function CreateBody(config: Config, id: TrackingId): (b: BodyObject)
    ensures b.id == id && Shaped(b.children)
    ensures b.children == JointMarkers(config.marker)
  {
    BodyObject(id, JointMarkers(config.marker))
  }

  /** The guard points of the loop: the (x, y) of each unscaled joint position. */
  function Guards(positions: seq<Vec3>): (gs: seq<Vec2>)
    ensures |gs| == |positions| && forall k :: 0 <= k < |positions| ==> gs[k] == XY(positions[k])
  {
    seq(|positions|, k requires 0 <= k < |positions| => XY(positions[k]))
  }

  /** The targets of the loop: each joint position times the scale factor. */
  function Scaled(positions: seq<Vec3>, scale: real): (ts: seq<Vec3>)
    ensures |ts| == |positions| && forall k :: 0 <= k < |positions| ==> ts[k] == Times(positions[k], scale)
  {
    seq(|positions|, k requires 0 <= k < |positions| => Times(positions[k], scale))
  }

  function RefreshBodyObject(config: Config, body: Body, obj: BodyObject): (r: BodyObject)
    requires WellFormed(body) && Shaped(obj.children)
    ensures r.id == obj.id && Shaped(r.children)
  {
    var bodyJoints := BodyAnalysis.UnityPositions(body.joints);
    var bodyOrientation := BodyAnalysis.UnityOrientations(body.jointOrientations);
    MovedChildrenKeepShape(obj.children, Guards(bodyJoints), Scaled(bodyJoints, config.scale), bodyOrientation);
    BodyObject(obj.id, MovedChildren(obj.children, Guards(bodyJoints), Scaled(bodyJoints, config.scale), bodyOrientation))
  }

  /**
   * After a refresh, marker k sits at joint k's position times the scale,
   * with joint k's orientation, unless joint k's x or y is infinite; an
   * infinite or NaN z, or a NaN x or y, does not stop the move.
   */
  lemma RefreshBodyObjectEffect(config: Config, body: Body, obj: BodyObject)
    requires WellFormed(body) && Shaped(obj.children)
    ensures var r := RefreshBodyObject(config, body, obj).children;
      forall jt: JointType :: (
        var p := body.joints[jt].position;
        r[jt] == if !IsInfinite(p.x) && !IsInfinite(p.y)
                 then obj.children[jt].(position := Vec3(Mul(p.x, Finite(config.scale)), Mul(p.y, Finite(config.scale)),
                                                         Mul(p.z, Finite(config.scale))),
                                        rotation := BodyAnalysis.ToQuaternion(body.jointOrientations[jt]))
                 else obj.children[jt])
  {
  }
}
