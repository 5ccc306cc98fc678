/**
 * The part of the Unity scene the tracking scripts touch.  A marker is a
 * child game object: its name, its world position, its local rotation,
 * whether it is active, and the text of the text mesh it carries (text boxes
 * only).  A body object is the parent game object created for one tracking
 * id, with its children in creation order.
 */
module Scene {
  import opened Wrappers
  import opened Numerics
  import opened Kinect

  /** The names the scripts give to the children they create. */
  datatype Name =
    | JointName(joint: JointType)
    | LeftShoulder | LeftElbow | LeftHand | LeftText
    | RightShoulder | RightElbow | RightHand | RightText
    | SpineAngles | RightShoulderAngles
    | PrefabName

  /** What a text box displays: the angle it was given, or the truncated angles it shows. */
  datatype Label =
    | NoText
    | AngleText(angle: Float)
    | SpineText(coronal: Option<int>, sagittal: Option<int>)
    | ShoulderText(flexion: Option<int>, abduction: Option<int>)

  datatype Marker = Marker(name: Name, position: Vec3, rotation: Quat, active: bool, text: Label)

  datatype BodyObject = BodyObject(id: TrackingId, children: seq<Marker>)

  /** A script's own transform, read once when it starts: the screen size and its centre. */
  datatype Screen = Screen(scale: Real3, position: Real3)

  function ScreenScale(screen: Screen): Real2 {
    Real2(screen.scale.x, screen.scale.y)
  }

  function ScreenPosition(screen: Screen): Real2 {
    Real2(screen.position.x, screen.position.y)
  }

  /** A copy of a prefab under a new name. */
  function Instantiate(prefab: Marker, name: Name): (m: Marker)
    ensures m.name == name
    ensures m.position == prefab.position && m.rotation == prefab.rotation
    ensures m.active == prefab.active && m.text == prefab.text
  {
    prefab.(name := name)
  }

  function Names(children: seq<Marker>): (ns: seq<Name>)
    ensures |ns| == |children| && forall k :: 0 <= k < |children| ==> ns[k] == children[k].name
  {
    seq(|children|, k requires 0 <= k < |children| => children[k].name)
  }

  /** `transform.Find`: the index of the first child with that name, or -1. */
  function Find(children: seq<Marker>, name: Name): (k: int)
    ensures -1 <= k < |children|
    decreases |children|
  {
    if |children| == 0 then -1
    else if children[|children| - 1].name == name && Find(children[..|children| - 1], name) == -1 then |children| - 1
    else Find(children[..|children| - 1], name)
  }

  /** `Find` returns the first child with the name, and -1 exactly when no child has it. */
  lemma {:induction false} FindFirst(children: seq<Marker>, name: Name)
    ensures var k := Find(children, name);
      && (k >= 0 ==> children[k].name == name && forall j :: 0 <= j < k ==> children[j].name != name)
      && (k == -1 <==> forall j :: 0 <= j < |children| ==> children[j].name != name)
    decreases |children|
  {
    if |children| > 0 {
      var front := children[..|children| - 1];
      FindFirst(front, name);
      assert forall j :: 0 <= j < |front| ==> front[j] == children[j];
    }
  }

  /** In a list of distinct names, `Find` returns the name's own index. */
  lemma FindDistinct(children: seq<Marker>, k: nat)
    requires k < |children|
    requires forall i, j :: 0 <= i < j < |children| ==> children[i].name != children[j].name
    ensures Find(children, children[k].name) == k
  {
    FindFirst(children, children[k].name);
  }

  // ---------------------------------------------------------------------
  // The 25 joint markers
  // ---------------------------------------------------------------------

  /** One copy of the prefab per joint type, named after it, in joint-type order. */
  function JointMarkers(prefab: Marker): (ms: seq<Marker>)
    ensures |ms| == JointCount
    ensures forall jt: JointType :: ms[jt] == Instantiate(prefab, JointName(jt))
  {
    seq(JointCount, k requires 0 <= k < JointCount => Instantiate(prefab, JointName(k)))
  }

  /** The joint-marker loop of `CreateBody`: from `SpineBase` to `ThumbRight`, one child each. */
  method InstantiateJointMarkers(prefab: Marker) returns (children: seq<Marker>)
    ensures children == JointMarkers(prefab)
    ensures forall jt: JointType :: children[jt].name == JointName(jt)
  {
    children := [];
    var jt := SpineBase as int;
    while jt <= ThumbRight
      invariant 0 <= jt <= JointCount
      invariant children == JointMarkers(prefab)[..jt]
    {
      var joint := Instantiate(prefab, JointName(jt));
      children := children + [joint];
      jt := jt + 1;
    }
  }

  // ---------------------------------------------------------------------
  // The child loop: child k follows joint k
  // ---------------------------------------------------------------------

  /** The 2-D screen points lifted to depth `z`: the targets of the 2-D child loops. */
  function AtDepth(pts: seq<Vec2>, z: real): (ts: seq<Vec3>)
    ensures |ts| == |pts| && forall k :: 0 <= k < |pts| ==> ts[k] == Vec3(pts[k].x, pts[k].y, Finite(z))
  {
    seq(|pts|, k requires 0 <= k < |pts| => Vec3(pts[k].x, pts[k].y, Finite(z)))
  }

  /** Child k after the loop: moved to target k with orientation k when guard point k is usable, else untouched. */
  function MovedChild(children: seq<Marker>, guards: seq<Vec2>, targets: seq<Vec3>, orientations: seq<Quat>,
                      k: nat): Marker
    requires k < |children|
    requires |guards| == |targets| == |orientations|
  {
    if k < |guards| && Usable(guards[k]) then children[k].(position := targets[k], rotation := orientations[k])
    else children[k]
  }

  function MovedChildren(children: seq<Marker>, guards: seq<Vec2>, targets: seq<Vec3>, orientations: seq<Quat>)
    : (r: seq<Marker>)
    requires |guards| == |targets| == |orientations|
    ensures |r| == |children|
    ensures forall k :: 0 <= k < |children| ==> r[k] == MovedChild(children, guards, targets, orientations, k)
  {
    seq(|children|, k requires 0 <= k < |children| => MovedChild(children, guards, targets, orientations, k))
  }

  /**
   * The `foreach (Transform child ...)` loop with its counter `i`: child i
   * takes target i and orientation i unless guard point i has an infinite
   * coordinate; the loop leaves once `i` reaches the number of joints, so
   * children past the last joint are never visited.
   */
  method MoveChildren(children: seq<Marker>, guards: seq<Vec2>, targets: seq<Vec3>, orientations: seq<Quat>)
    returns (r: seq<Marker>)
    requires |guards| == |targets| == |orientations|
    requires |children| == 0 || |guards| > 0
    ensures |r| == |children|
    ensures forall k :: 0 <= k < |children| && k < |guards| && Usable(guards[k]) ==>
      r[k] == children[k].(position := targets[k], rotation := orientations[k])
    ensures forall k :: 0 <= k < |children| && (k >= |guards| || !Usable(guards[k])) ==> r[k] == children[k]
    ensures r == MovedChildren(children, guards, targets, orientations)
  {
    r := children;
    var i := 0;
    while i < |children|
      invariant 0 <= i <= |children| && i <= |guards|
      invariant i < |guards| || i == |children|
      invariant |r| == |children|
      invariant forall k :: 0 <= k < i ==> r[k] == MovedChild(children, guards, targets, orientations, k)
      invariant forall k :: i <= k < |children| ==> r[k] == children[k]
    {
      if !Usable(guards[i]) {
        i := i + 1;
        if i >= |guards| { break; }
        continue;
      }
      r := r[i := r[i].(position := targets[i], rotation := orientations[i])];
      i := i + 1;
      if i >= |guards| { break; }
    }
  }

  /** Children moved by the loop keep their names, activity and text: only positions and rotations change. */
  lemma MovedChildrenKeepShape(children: seq<Marker>, guards: seq<Vec2>, targets: seq<Vec3>, orientations: seq<Quat>)
    requires |guards| == |targets| == |orientations|
    ensures var r := MovedChildren(children, guards, targets, orientations);
      && Names(r) == Names(children)
      && forall k :: 0 <= k < |children| ==> r[k].active == children[k].active && r[k].text == children[k].text
  {
    var r := MovedChildren(children, guards, targets, orientations);
    assert forall k :: 0 <= k < |children| ==> Names(r)[k] == Names(children)[k];
  }
}
