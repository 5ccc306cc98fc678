/**
 * The hand tracker: one marker per hand of the tracked body, each shown
 * only when its hand is to be tracked and moved to that hand's screen point.
 */
module HandTracker {
  import opened Numerics
  import opened Kinect
  import opened Scene
  import BodyAnalysis

  /** The marker prefab, which hands to track (right by default, not left) and the script's transform. */
  datatype Config = Config(marker: Marker, trackRightHand: bool, trackLeftHand: bool, screen: Screen)

  /** Child 0 is the right hand's marker, child 1 the left hand's. */
  predicate Shaped(children: seq<Marker>) {
    |children| == 2 && children[0].name == RightHand && children[1].name == LeftHand
  }

  function CreateBody(config: Config, id: TrackingId): (b: BodyObject)
    ensures b.id == id && Shaped(b.children)
    ensures b.children[0].active == config.trackRightHand && b.children[1].active == config.trackLeftHand
    ensures b.children[0].position == config.marker.position && b.children[1].position == config.marker.position
  {
    BodyObject(id, [Instantiate(config.marker, RightHand).(active := config.trackRightHand),
                    Instantiate(config.marker, LeftHand).(active := config.trackLeftHand)])
  }

  /** A hand marker's target: the hand's screen point at the screen's depth. */
  function HandTarget(p: Vec2, screen: Screen): Vec3 {
    Vec3(p.x, p.y, Finite(screen.position.z))
  }

  /** `RefreshBodyObject`: reset both activity flags, then move each tracked hand's marker past the guard. */
  function RefreshBodyObject(config: Config, mapper: Mapper, body: Body, obj: BodyObject): (r: BodyObject)
    requires WellFormed(body) && Shaped(obj.children)
    ensures r.id == obj.id && Shaped(r.children)
  {
    var pts := BodyAnalysis.Screen2D(mapper, body.joints, ScreenScale(config.screen), ScreenPosition(config.screen));
    var c0 := obj.children[0 := obj.children[0].(active := config.trackRightHand)];
    var c1 := c0[1 := c0[1].(active := config.trackLeftHand)];

    var rightHandPos := pts[HandRight];
    var c2 := if config.trackRightHand && Usable(rightHandPos)
              then c1[0 := c1[0].(position := HandTarget(rightHandPos, config.screen))] else c1;

    var leftHandPos := pts[HandLeft];
    var c3 := if config.trackLeftHand && Usable(leftHandPos)
              then c2[1 := c2[1].(position := HandTarget(leftHandPos, config.screen))] else c2;
    BodyObject(obj.id, c3)
  }

  /**
   * After a refresh each hand marker is active exactly when its hand is
   * tracked, whatever it was before, and it sits at its hand's screen point
   * when the hand is tracked and the point passed the guard; otherwise it
   * has not moved.  Nothing else about the markers changes.
   */
  lemma RefreshBodyObjectEffect(config: Config, mapper: Mapper, body: Body, obj: BodyObject)
    requires WellFormed(body) && Shaped(obj.children)
    ensures var pts := BodyAnalysis.Screen2D(mapper, body.joints, ScreenScale(config.screen), ScreenPosition(config.screen));
      var r := RefreshBodyObject(config, mapper, body, obj).children;
      && r[0].active == config.trackRightHand && r[1].active == config.trackLeftHand
      && r[0].position == (if config.trackRightHand && Usable(pts[HandRight])
                           then HandTarget(pts[HandRight], config.screen) else obj.children[0].position)
      && r[1].position == (if config.trackLeftHand && Usable(pts[HandLeft])
                           then HandTarget(pts[HandLeft], config.screen) else obj.children[1].position)
      && r[0].rotation == obj.children[0].rotation && r[1].rotation == obj.children[1].rotation
      && r[0].text == obj.children[0].text && r[1].text == obj.children[1].text
  {
  }

  /** A hand that is not tracked keeps a hidden marker that never moves, however many refreshes it sees. */
  lemma {:induction false} UntrackedHandStill(config: Config, mapper: Mapper, bodies: seq<Body>, obj: BodyObject)
    requires !config.trackLeftHand
    requires forall i :: 0 <= i < |bodies| ==> WellFormed(bodies[i])
    requires Shaped(obj.children)
    ensures var r := RefreshAll(config, mapper, bodies, obj);
      Shaped(r.children) && r.children[1].position == obj.children[1].position
      && (|bodies| > 0 ==> !r.children[1].active)
    decreases |bodies|
  {
    if |bodies| > 0 {
      UntrackedHandStill(config, mapper, bodies[..|bodies| - 1], obj);
      RefreshBodyObjectEffect(config, mapper, bodies[|bodies| - 1],
                              RefreshAll(config, mapper, bodies[..|bodies| - 1], obj));
    }
  }

  /** Refreshes with each body of `bodies`, in order. */
  function RefreshAll(config: Config, mapper: Mapper, bodies: seq<Body>, obj: BodyObject): (r: BodyObject)
    requires forall i :: 0 <= i < |bodies| ==> WellFormed(bodies[i])
    requires Shaped(obj.children)
    ensures Shaped(r.children) && r.id == obj.id
    decreases |bodies|
  {
    if |bodies| == 0 then obj
    else RefreshBodyObject(config, mapper, bodies[|bodies| - 1], RefreshAll(config, mapper, bodies[..|bodies| - 1], obj))
  }
}
