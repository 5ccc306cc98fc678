/**
 * The arm routine: it keeps one empty object for the tracked body and does
 * nothing with it yet.
 */
module ArmRoutine {
  import opened Kinect
  import opened Scene

  predicate Shaped(children: seq<Marker>) {
    |children| == 0
  }

  /** An empty, named object. */
  function CreateBody(id: TrackingId): (b: BodyObject)
    ensures b.id == id && Shaped(b.children)
  {
    BodyObject(id, [])
  }

  /** The refresh is empty: the object stays as it is. */
  function RefreshBodyObject(body: Body, obj: BodyObject): (r: BodyObject)
    ensures r == obj
  {
    obj
  }
}
