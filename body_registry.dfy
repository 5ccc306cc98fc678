/**
 * The frame loop every body-tracking script shares: each frame it reads the
 * sensor's bodies, destroys the object of every body no longer tracked,
 * creates an object for every newly tracked body and refreshes it.  Most
 * scripts follow only the first tracked body; the simple body tracker
 * follows them all.
 */
module BodyRegistry {
  import opened Wrappers
  import opened Numerics
  import opened Kinect
  import opened Scene
  import BodyAnalysis
  import ShoulderAbduction
  import ViewBodyAngles
  import HandTracker
  import SimpleBodyTracker
  import BoxSkeleton
  import ArmRoutine

  /** The script that owns the registry, with its inspector settings and its transform. */
  datatype Script =
    | ShoulderAbductionScript(shoulderAbduction: ShoulderAbduction.Config)
    | ViewBodyAnglesScript(viewBodyAngles: ViewBodyAngles.Config)
    | HandTrackerScript(handTracker: HandTracker.Config)
    | SimpleBodyTrackerScript(simpleBodyTracker: SimpleBodyTracker.Config)
    | BoxSkeletonScript(boxSkeleton: BoxSkeleton.Config)
    | ArmRoutineScript

  /** Every script but the simple body tracker leaves its visiting loop after the first tracked body. */
  predicate SingleBody(script: Script) {
    !script.SimpleBodyTrackerScript?
  }

  /** The children a body object of this script has from its creation on. */
  predicate Shaped(script: Script, children: seq<Marker>) {
    match script
    case ShoulderAbductionScript(_) => ShoulderAbduction.Shaped(children)
    case ViewBodyAnglesScript(_) => ViewBodyAngles.Shaped(children)
    case HandTrackerScript(_) => HandTracker.Shaped(children)
    case SimpleBodyTrackerScript(_) => SimpleBodyTracker.Shaped(children)
    case BoxSkeletonScript(_) => BoxSkeleton.Shaped(children)
    case ArmRoutineScript => ArmRoutine.Shaped(children)
  }

  /** The script's `CreateBody`. */
  function InitialBody(script: Script, id: TrackingId): (b: BodyObject)
    ensures b.id == id && Shaped(script, b.children)
  {
    match script
    case ShoulderAbductionScript(c) => ShoulderAbduction.CreateBody(c, id)
    case ViewBodyAnglesScript(c) => ViewBodyAngles.CreateBody(c, id)
    case HandTrackerScript(c) => HandTracker.CreateBody(c, id)
    case SimpleBodyTrackerScript(c) => SimpleBodyTracker.CreateBody(c, id)
    case BoxSkeletonScript(c) => BoxSkeleton.CreateBody(c, id)
    case ArmRoutineScript => ArmRoutine.CreateBody(id)
  }

  /** The script's `RefreshBodyObject`, with the frame's coordinate mapper. */
  function RefreshedBody(script: Script, math: MathLib, mapper: Mapper, body: Body, obj: BodyObject): (r: BodyObject)
    requires WellFormed(body) && Shaped(script, obj.children)
    ensures r.id == obj.id && Shaped(script, r.children)
  {
    match script
    case ShoulderAbductionScript(c) => ShoulderAbduction.RefreshBodyObject(c, math, mapper, body, obj)
    case ViewBodyAnglesScript(c) => ViewBodyAngles.RefreshBodyObject(c, math, mapper, body, obj)
    case HandTrackerScript(c) => HandTracker.RefreshBodyObject(c, mapper, body, obj)
    case SimpleBodyTrackerScript(c) => SimpleBodyTracker.RefreshBodyObject(c, mapper, body, obj)
    case BoxSkeletonScript(c) => BoxSkeleton.RefreshBodyObject(c, body, obj)
    case ArmRoutineScript => ArmRoutine.RefreshBodyObject(body, obj)
  }

  /**
   * What one frame offers: no sensor object, a sensor object without a body
   * reader, a body reader without body data, or the body array (whose
   * entries may be null) with the reader's coordinate mapper.
   */
  datatype Feed =
    | NoSensor
    | NoBodyReader
    | NoBodyData
    | Bodies(data: seq<Option<Body>>, mapper: Mapper)

  predicate Tracked(b: Option<Body>) {
    b.Some? && b.value.isTracked
  }

  /** The sensor delivers every tracked body with all 25 joints. */
  predicate BodiesWellFormed(data: seq<Option<Body>>) {
    forall i :: 0 <= i < |data| && Tracked(data[i]) ==> WellFormed(data[i].value)
  }

  predicate FeedWellFormed(feed: Feed) {
    feed.Bodies? ==> BodiesWellFormed(feed.data)
  }

  /** The script's body dictionary: tracking id to body object. */
  type BodyDict = map<TrackingId, BodyObject>

  /** Every object sits under its own tracking id and has the script's children. */
  predicate DictValid(script: Script, dict: BodyDict) {
    forall id | id in dict :: dict[id].id == id && Shaped(script, dict[id].children)
  }

  /**
   * What the shared frame loop needs of a script: its `CreateBody`, its
   * `RefreshBodyObject` (with the frame's coordinate mapper), and whether it
   * leaves the visiting loop after the first tracked body.
   */
  datatype Routine = Routine(create: TrackingId -> BodyObject, refresh: (Mapper, Body, BodyObject) -> BodyObject,
                             singleBody: bool)

  /**
   * The routine of a script.  A refresh only ever meets a full body and an
   * object the script created; on anything else the routine leaves the
   * object as it is.
   */
  function ScriptRoutine(script: Script, math: MathLib): (rt: Routine)
    ensures rt.singleBody == SingleBody(script)
    ensures forall id :: rt.create(id) == InitialBody(script, id)
    ensures forall mapper: Mapper, body: Body, obj: BodyObject | WellFormed(body) && Shaped(script, obj.children) ::
      rt.refresh(mapper, body, obj) == RefreshedBody(script, math, mapper, body, obj)
  {
    Routine((id: TrackingId) => InitialBody(script, id),
            (mapper: Mapper, body: Body, obj: BodyObject) =>
              if WellFormed(body) && Shaped(script, obj.children) then RefreshedBody(script, math, mapper, body, obj)
              else obj,
            SingleBody(script))
  }

  // ---------------------------------------------------------------------
  // One frame, as a function of the dictionary
  // ---------------------------------------------------------------------

  /** The tracking ids of the tracked bodies, in array order. */
  function TrackedIds(data: seq<Option<Body>>): (ids: seq<TrackingId>)
    ensures forall id :: id in ids <==> exists i :: 0 <= i < |data| && Tracked(data[i]) && data[i].value.trackingId == id
    decreases |data|
  {
    if |data| == 0 then []
    else
      var last := data[|data| - 1];
      var front := TrackedIds(data[..|data| - 1]);
      assert forall i :: 0 <= i < |data| - 1 ==> data[..|data| - 1][i] == data[i];
      if Tracked(last) then front + [last.value.trackingId] else front
  }

  /** The removal loop: every body no longer tracked loses its object; the others keep theirs. */
  function RemoveAbsent(dict: BodyDict, trackedIds: seq<TrackingId>): (r: BodyDict)
    ensures forall id :: id in r <==> id in dict && id in trackedIds
    ensures forall id | id in r :: r[id] == dict[id]
  {
    map id | id in dict && id in trackedIds :: dict[id]
  }

  /** One tracked body: its object, created if it has none, refreshed. */
  function Visit(rt: Routine, mapper: Mapper, dict: BodyDict, body: Body): (r: BodyDict)
    ensures r.Keys == dict.Keys + {body.trackingId}
  {
    var obj := if body.trackingId in dict then dict[body.trackingId] else rt.create(body.trackingId);
    dict[body.trackingId := rt.refresh(mapper, body, obj)]
  }

  /** The visiting loop over the body array, from the front. */
  function VisitAll(rt: Routine, mapper: Mapper, dict: BodyDict, data: seq<Option<Body>>): (r: BodyDict)
    decreases |data|
  {
    if |data| == 0 then dict
    else if !Tracked(data[0]) then VisitAll(rt, mapper, dict, data[1..])
    else
      var visited := Visit(rt, mapper, dict, data[0].value);
      if rt.singleBody then visited else VisitAll(rt, mapper, visited, data[1..])
  }

  /** One whole `Update`: nothing happens without body data; otherwise removal, then the visits. */
  function Pass(rt: Routine, dict: BodyDict, feed: Feed): BodyDict {
    if !feed.Bodies? then dict
    else VisitAll(rt, feed.mapper, RemoveAbsent(dict, TrackedIds(feed.data)), feed.data)
  }

  /** Index of the first tracked body, or -1. */
  function FirstTracked(data: seq<Option<Body>>): (k: int)
    ensures -1 <= k < |data|
    ensures k >= 0 ==> Tracked(data[k]) && forall j :: 0 <= j < k ==> !Tracked(data[j])
    ensures k == -1 <==> forall j :: 0 <= j < |data| ==> !Tracked(data[j])
    decreases |data|
  {
    if |data| == 0 then -1
    else if Tracked(data[0]) then 0
    else
      var k := FirstTracked(data[1..]);
      assert forall j :: 1 <= j < |data| ==> data[1..][j - 1] == data[j];
      if k < 0 then -1 else k + 1
  }

  // ---------------------------------------------------------------------
  // What a frame does
  // ---------------------------------------------------------------------

  /** A visit keeps every object under its own id and with its script's children. */
  lemma VisitKeepsValid(script: Script, math: MathLib, mapper: Mapper, dict: BodyDict, body: Body)
    requires DictValid(script, dict) && WellFormed(body)
    ensures DictValid(script, Visit(ScriptRoutine(script, math), mapper, dict, body))
  {
    var rt := ScriptRoutine(script, math);
    var obj := if body.trackingId in dict then dict[body.trackingId] else rt.create(body.trackingId);
    assert obj.id == body.trackingId && Shaped(script, obj.children);
    assert rt.refresh(mapper, body, obj) == RefreshedBody(script, math, mapper, body, obj);
  }

  lemma {:induction false} VisitAllKeepsValid(script: Script, math: MathLib, mapper: Mapper, dict: BodyDict,
                                              data: seq<Option<Body>>)
    requires DictValid(script, dict) && BodiesWellFormed(data)
    ensures DictValid(script, VisitAll(ScriptRoutine(script, math), mapper, dict, data))
    decreases |data|
  {
    if |data| > 0 {
      assert BodiesWellFormed(data[1..]) by {
        assert forall i :: 0 <= i < |data| - 1 ==> data[1..][i] == data[i + 1];
      }
      if Tracked(data[0]) {
        VisitKeepsValid(script, math, mapper, dict, data[0].value);
        VisitAllKeepsValid(script, math, mapper, Visit(ScriptRoutine(script, math), mapper, dict, data[0].value), data[1..]);
      } else {
        VisitAllKeepsValid(script, math, mapper, dict, data[1..]);
      }
    }
  }

  /** A frame keeps every object under its own id and with its script's children. */
  lemma PassKeepsValid(script: Script, math: MathLib, dict: BodyDict, feed: Feed)
    requires DictValid(script, dict) && FeedWellFormed(feed)
    ensures DictValid(script, Pass(ScriptRoutine(script, math), dict, feed))
  {
    if feed.Bodies? {
      VisitAllKeepsValid(script, math, feed.mapper, RemoveAbsent(dict, TrackedIds(feed.data)), feed.data);
    }
  }

  /** A single-body script visits exactly the first tracked body, if there is one. */
  lemma {:induction false} SingleBodyVisitsFirst(rt: Routine, mapper: Mapper, dict: BodyDict, data: seq<Option<Body>>)
    requires rt.singleBody
    ensures var k := FirstTracked(data);
      VisitAll(rt, mapper, dict, data) == if k < 0 then dict else Visit(rt, mapper, dict, data[k].value)
    decreases |data|
  {
    if |data| > 0 && !Tracked(data[0]) {
      SingleBodyVisitsFirst(rt, mapper, dict, data[1..]);
      var k := FirstTracked(data[1..]);
      if k >= 0 {
        assert data[1..][k] == data[k + 1];
      }
    }
  }

  /** A tracked id is tracked by the first body or by one of the rest. */
  lemma TrackedIdsFront(data: seq<Option<Body>>)
    requires |data| > 0
    ensures forall id :: id in TrackedIds(data) <==>
      (Tracked(data[0]) && id == data[0].value.trackingId) || id in TrackedIds(data[1..])
  {
    forall id
      ensures id in TrackedIds(data) <==> (Tracked(data[0]) && id == data[0].value.trackingId) || id in TrackedIds(data[1..])
    {
      if id in TrackedIds(data) {
        var i :| 0 <= i < |data| && Tracked(data[i]) && data[i].value.trackingId == id;
        if i > 0 {
          assert data[1..][i - 1] == data[i];
        }
      }
      if id in TrackedIds(data[1..]) {
        var i :| 0 <= i < |data| - 1 && Tracked(data[1..][i]) && data[1..][i].value.trackingId == id;
        assert data[i + 1] == data[1..][i];
      }
    }
  }

  /** The simple body tracker ends a visit with an object for every body it held or visited. */
  lemma {:induction false} AllBodiesVisitKeys(rt: Routine, mapper: Mapper, dict: BodyDict, data: seq<Option<Body>>)
    requires !rt.singleBody
    ensures forall id :: id in VisitAll(rt, mapper, dict, data) <==> id in dict || id in TrackedIds(data)
    decreases |data|
  {
    if |data| > 0 {
      var d := if Tracked(data[0]) then Visit(rt, mapper, dict, data[0].value) else dict;
      AllBodiesVisitKeys(rt, mapper, d, data[1..]);
      TrackedIdsFront(data);
    }
  }

  /** The tracked bodies carrying `id`, in array order. */
  function BodiesOf(data: seq<Option<Body>>, id: TrackingId): (bs: seq<Body>)
    ensures forall b | b in bs :: b.trackingId == id
    decreases |data|
  {
    if |data| == 0 then []
    else if Tracked(data[0]) && data[0].value.trackingId == id then [data[0].value] + BodiesOf(data[1..], id)
    else BodiesOf(data[1..], id)
  }

  /** An object refreshed with each of `bodies` in turn. */
  function RefreshedWith(rt: Routine, mapper: Mapper, obj: BodyObject, bodies: seq<Body>): BodyObject
    decreases |bodies|
  {
    if |bodies| == 0 then obj else RefreshedWith(rt, mapper, rt.refresh(mapper, bodies[0], obj), bodies[1..])
  }

  /** The object a visit starts from: the one the dictionary holds, or a new one. */
  function StartObject(rt: Routine, dict: BodyDict, id: TrackingId): BodyObject {
    if id in dict then dict[id] else rt.create(id)
  }

  /**
   * The simple body tracker refreshes each id's object with every tracked
   * body carrying that id, starting from the object the dictionary already
   * held: an object is created only for an id the dictionary lacks.
   */
  lemma {:induction false} AllBodiesVisitObjects(rt: Routine, mapper: Mapper, dict: BodyDict, data: seq<Option<Body>>)
    requires !rt.singleBody
    ensures var r := VisitAll(rt, mapper, dict, data);
      forall id | id in dict || id in TrackedIds(data) ::
        id in r && r[id] == RefreshedWith(rt, mapper, StartObject(rt, dict, id), BodiesOf(data, id))
    decreases |data|
  {
    AllBodiesVisitKeys(rt, mapper, dict, data);
    if |data| > 0 {
      var d := if Tracked(data[0]) then Visit(rt, mapper, dict, data[0].value) else dict;
      AllBodiesVisitObjects(rt, mapper, d, data[1..]);
      TrackedIdsFront(data);
      forall id | id in dict || id in TrackedIds(data)
        ensures RefreshedWith(rt, mapper, StartObject(rt, d, id), BodiesOf(data[1..], id)) ==
                RefreshedWith(rt, mapper, StartObject(rt, dict, id), BodiesOf(data, id))
      {
        if Tracked(data[0]) && id == data[0].value.trackingId {
          var bs := BodiesOf(data, id);
          assert bs[0] == data[0].value && bs[1..] == BodiesOf(data[1..], id);
        }
      }
    }
  }

  /** Without body data a frame changes nothing. */
  lemma PassWithoutBodies(rt: Routine, dict: BodyDict, feed: Feed)
    requires !feed.Bodies?
    ensures Pass(rt, dict, feed) == dict
  {
  }

  /** The simple body tracker holds an object for exactly the bodies tracked in the frame. */
  lemma AllBodiesPassKeys(rt: Routine, dict: BodyDict, feed: Feed)
    requires !rt.singleBody && feed.Bodies?
    ensures forall id :: id in Pass(rt, dict, feed) <==> id in TrackedIds(feed.data)
  {
    AllBodiesVisitKeys(rt, feed.mapper, RemoveAbsent(dict, TrackedIds(feed.data)), feed.data);
  }

  /**
   * The simple body tracker refreshes the object of every tracked id, and
   * an id tracked in the previous frame keeps its object: the refreshes
   * start from it.
   */
  lemma AllBodiesPassObjects(rt: Routine, dict: BodyDict, feed: Feed)
    requires !rt.singleBody && feed.Bodies?
    ensures var r := Pass(rt, dict, feed);
      forall id | id in TrackedIds(feed.data) ::
        id in r && r[id] == RefreshedWith(rt, feed.mapper, StartObject(rt, dict, id), BodiesOf(feed.data, id))
  {
    var kept := RemoveAbsent(dict, TrackedIds(feed.data));
    AllBodiesVisitObjects(rt, feed.mapper, kept, feed.data);
    assert forall id | id in TrackedIds(feed.data) :: StartObject(rt, kept, id) == StartObject(rt, dict, id);
  }

  /**
   * A single-body script keeps the objects of the bodies that are still
   * tracked, drops the others, and adds one only for the first tracked body.
   */
  lemma SingleBodyPassKeys(rt: Routine, dict: BodyDict, feed: Feed)
    requires rt.singleBody && feed.Bodies?
    ensures var k := FirstTracked(feed.data);
      forall id :: id in Pass(rt, dict, feed) <==>
        (id in dict && id in TrackedIds(feed.data)) || (k >= 0 && id == feed.data[k].value.trackingId)
  {
    SingleBodyVisitsFirst(rt, feed.mapper, RemoveAbsent(dict, TrackedIds(feed.data)), feed.data);
  }

  /**
   * A single-body script refreshes the first tracked body's object (its old
   * one if it had one, a new one otherwise) and leaves every other
   * surviving object exactly as it was.
   */
  lemma SingleBodyPassObjects(rt: Routine, dict: BodyDict, feed: Feed)
    requires rt.singleBody && feed.Bodies?
    ensures var r := Pass(rt, dict, feed);
      var k := FirstTracked(feed.data);
      && (k >= 0 ==>
            var body := feed.data[k].value;
            var id := body.trackingId;
            id in r && r[id] == rt.refresh(feed.mapper, body, if id in dict then dict[id] else rt.create(id)))
      && (forall id | id in r && id in dict && (k < 0 || id != feed.data[k].value.trackingId) :: r[id] == dict[id])
  {
    var k := FirstTracked(feed.data);
    if k >= 0 {
      assert feed.data[k].value.trackingId in TrackedIds(feed.data);
    }
    SingleBodyVisitsFirst(rt, feed.mapper, RemoveAbsent(dict, TrackedIds(feed.data)), feed.data);
  }

  // ---------------------------------------------------------------------
  // Which objects a frame creates and destroys
  // ---------------------------------------------------------------------

  /**
   * The ids the visiting loop instantiates an object for, in order, when it
   * starts with objects for `keys`: every visited body whose id has none yet.
   */
  function Created(keys: set<TrackingId>, data: seq<Option<Body>>, singleBody: bool): seq<TrackingId>
    decreases |data|
  {
    if |data| == 0 then []
    else if !Tracked(data[0]) then Created(keys, data[1..], singleBody)
    else
      var id := data[0].value.trackingId;
      var here := if id in keys then [] else [id];
      if singleBody then here else here + Created(keys + {id}, data[1..], singleBody)
  }

  /** The ids whose objects one `Update` creates. */
  function PassCreated(singleBody: bool, dict: BodyDict, feed: Feed): seq<TrackingId> {
    if !feed.Bodies? then [] else Created(RemoveAbsent(dict, TrackedIds(feed.data)).Keys, feed.data, singleBody)
  }

  /** The ids whose objects one `Update` destroys: those the dictionary holds and the frame does not track. */
  function PassDestroyed(dict: BodyDict, feed: Feed): set<TrackingId> {
    if !feed.Bodies? then {} else set id | id in dict && id !in TrackedIds(feed.data)
  }

  /** A visiting loop creates objects only for tracked ids it had no object for, and each at most once. */
  lemma {:induction false} CreatedFresh(keys: set<TrackingId>, data: seq<Option<Body>>, singleBody: bool)
    ensures var ids := Created(keys, data, singleBody);
      && (forall id | id in ids :: id !in keys && id in TrackedIds(data))
      && (forall i, j | 0 <= i < j < |ids| :: ids[i] != ids[j])
    decreases |data|
  {
    if |data| > 0 {
      TrackedIdsFront(data);
      if !Tracked(data[0]) {
        assert Created(keys, data, singleBody) == Created(keys, data[1..], singleBody);
        CreatedFresh(keys, data[1..], singleBody);
      } else if !singleBody {
        var id := data[0].value.trackingId;
        CreatedFresh(keys + {id}, data[1..], singleBody);
        var here := if id in keys then [] else [id];
        var rest := Created(keys + {id}, data[1..], singleBody);
        var ids := here + rest;
        forall i, j | 0 <= i < j < |ids|
          ensures ids[i] != ids[j]
        {
          if i < |here| {
            assert ids[j] == rest[j - |here|];
          } else {
            assert ids[i] == rest[i - |here|] && ids[j] == rest[j - |here|];
          }
        }
      }
    }
  }

  /** The simple body tracker creates an object for exactly the tracked ids that had none. */
  lemma {:induction false} AllBodiesCreated(keys: set<TrackingId>, data: seq<Option<Body>>)
    ensures forall id :: id in Created(keys, data, false) <==> id !in keys && id in TrackedIds(data)
    decreases |data|
  {
    if |data| > 0 {
      TrackedIdsFront(data);
      if !Tracked(data[0]) {
        AllBodiesCreated(keys, data[1..]);
      } else {
        AllBodiesCreated(keys + {data[0].value.trackingId}, data[1..]);
      }
    }
  }

  /** A single-body script creates at most one object: the first tracked body's, when it had none. */
  lemma {:induction false} SingleBodyCreated(keys: set<TrackingId>, data: seq<Option<Body>>)
    ensures var k := FirstTracked(data);
      Created(keys, data, true) ==
        if k < 0 || data[k].value.trackingId in keys then [] else [data[k].value.trackingId]
    decreases |data|
  {
    if |data| > 0 && !Tracked(data[0]) {
      SingleBodyCreated(keys, data[1..]);
      var k := FirstTracked(data[1..]);
      if k >= 0 {
        assert data[1..][k] == data[k + 1];
      }
    }
  }

  /** After a visiting loop, an id has an object exactly when it had one before or the loop created one. */
  lemma {:induction false} VisitAllCreates(rt: Routine, mapper: Mapper, dict: BodyDict, data: seq<Option<Body>>)
    ensures forall id :: id in VisitAll(rt, mapper, dict, data) <==> id in dict || id in Created(dict.Keys, data, rt.singleBody)
    decreases |data|
  {
    if |data| > 0 {
      if !Tracked(data[0]) {
        VisitAllCreates(rt, mapper, dict, data[1..]);
      } else if !rt.singleBody {
        var visited := Visit(rt, mapper, dict, data[0].value);
        assert visited.Keys == dict.Keys + {data[0].value.trackingId};
        VisitAllCreates(rt, mapper, visited, data[1..]);
      }
    }
  }

  /**
   * One frame's logs account for the dictionary: an id has an object
   * afterwards exactly when it kept its old one or the frame created one; a
   * created id had no object before, so a body tracked in both frames keeps
   * its object; a destroyed id has none afterwards.
   */
  lemma PassLogs(rt: Routine, dict: BodyDict, feed: Feed)
    ensures var r := Pass(rt, dict, feed);
      var created, destroyed := PassCreated(rt.singleBody, dict, feed), PassDestroyed(dict, feed);
      && (forall id :: id in r <==> (id in dict && id !in destroyed) || id in created)
      && (forall id | id in created :: id !in dict)
      && (forall id | id in destroyed :: id in dict && id !in r)
  {
    if feed.Bodies? {
      var kept := RemoveAbsent(dict, TrackedIds(feed.data));
      VisitAllCreates(rt, feed.mapper, kept, feed.data);
      CreatedFresh(kept.Keys, feed.data, rt.singleBody);
    }
  }

  /** The simple body tracker creates an object for exactly the tracked bodies that had none in the previous frame. */
  lemma AllBodiesPassCreated(dict: BodyDict, feed: Feed)
    requires feed.Bodies?
    ensures forall id :: id in PassCreated(false, dict, feed) <==> id in TrackedIds(feed.data) && id !in dict
  {
    AllBodiesCreated(RemoveAbsent(dict, TrackedIds(feed.data)).Keys, feed.data);
  }

  /** The loop collecting the tracked ids; null entries are skipped. */
  method CollectTrackedIds(data: seq<Option<Body>>) returns (trackedIds: seq<TrackingId>)
    ensures trackedIds == TrackedIds(data)
  {
    trackedIds := [];
    var i := 0;
    while i < |data|
      invariant 0 <= i <= |data|
      invariant trackedIds == TrackedIds(data[..i])
    {
      assert data[..i + 1][..i] == data[..i];
      if data[i].Some? && data[i].value.isTracked {
        trackedIds := trackedIds + [data[i].value.trackingId];
      }
      i := i + 1;
    }
    assert data[..|data|] == data;
  }

  // ---------------------------------------------------------------------
  // The script's state and its Update
  // ---------------------------------------------------------------------

  class Registry {
    const script: Script
    const math: MathLib
    var bodyDict: BodyDict
    /** The ids of the body objects instantiated so far, in order. */
    ghost var created: seq<TrackingId>
    /** The ids of the body objects destroyed so far. */
    ghost var destroyed: seq<TrackingId>

    ghost predicate Valid()
      reads this
    {
      DictValid(script, bodyDict)
    }

    constructor (script: Script, math: MathLib)
      ensures this.script == script && this.math == math
      ensures bodyDict == map[] && Valid()
      ensures created == [] && destroyed == []
    {
      this.script := script;
      this.math := math;
      bodyDict := map[];
      created, destroyed := [], [];
    }

    /** The script's `CreateBody`; the joint-marker scripts build their children with the joint loop. */
    method CreateBody(id: TrackingId) returns (b: BodyObject)
      ensures b == InitialBody(script, id)
    {
      match script {
        case SimpleBodyTrackerScript(c) =>
          var children := InstantiateJointMarkers(c.marker);
          b := BodyObject(id, children);
        case BoxSkeletonScript(c) =>
          var children := InstantiateJointMarkers(c.marker);
          b := BodyObject(id, children);
        case ViewBodyAnglesScript(c) =>
          var children := InstantiateJointMarkers(c.marker);
          var spineBox := Instantiate(c.textBox, SpineAngles);
          var shoulderBox := Instantiate(c.textBox, RightShoulderAngles);
          b := BodyObject(id, children + [spineBox, shoulderBox]);
        case _ =>
          b := InitialBody(script, id);
      }
    }

    /** The script's `RefreshBodyObject`; the joint-marker scripts run the conversion and child loops. */
    method RefreshBodyObject(mapper: Mapper, body: Body, obj: BodyObject) returns (r: BodyObject)
      requires WellFormed(body) && Shaped(script, obj.children)
      ensures r == RefreshedBody(script, math, mapper, body, obj)
    {
      match script {
        case SimpleBodyTrackerScript(c) =>
          var bodyJoints2D := BodyAnalysis.ConvertToUnity2DPosition(mapper, body.joints, ScreenScale(c.screen),
                                                                    ScreenPosition(c.screen));
          var bodyOrientation := BodyAnalysis.ConvertToUnityOrientation(body.jointOrientations);
          var children := MoveChildren(obj.children, bodyJoints2D, AtDepth(bodyJoints2D, c.screen.position.z),
                                       bodyOrientation);
          r := BodyObject(obj.id, children);
        case BoxSkeletonScript(c) =>
          var bodyJoints := BodyAnalysis.ConvertToUnityPosition(body.joints);
          var bodyOrientation := BodyAnalysis.ConvertToUnityOrientation(body.jointOrientations);
          var children := MoveChildren(obj.children, BoxSkeleton.Guards(bodyJoints),
                                       BoxSkeleton.Scaled(bodyJoints, c.scale), bodyOrientation);
          r := BodyObject(obj.id, children);
        case ViewBodyAnglesScript(c) =>
          var bodyJoints2D := BodyAnalysis.ConvertToUnity2DPosition(mapper, body.joints, ScreenScale(c.screen),
                                                                    ScreenPosition(c.screen));
          var bodyOrientation := BodyAnalysis.ConvertToUnityOrientation(body.jointOrientations);
          var children := MoveChildren(obj.children, bodyJoints2D, AtDepth(bodyJoints2D, c.screen.position.z),
                                       bodyOrientation);
          MovedChildrenKeepShape(obj.children, bodyJoints2D, AtDepth(bodyJoints2D, c.screen.position.z),
                                 bodyOrientation);
          assert ViewBodyAngles.Shaped(children);
          r := BodyObject(obj.id, ViewBodyAngles.PlaceTextBoxes(c, math, body, bodyJoints2D, children));
        case _ =>
          r := RefreshedBody(script, math, mapper, body, obj);
      }
    }

    /** The removal loop, over a snapshot of the dictionary's keys; each removal is logged. */
    method RemoveAbsentBodies(trackedIds: seq<TrackingId>)
      requires Valid()
      modifies this
      ensures Valid()
      ensures bodyDict == RemoveAbsent(old(bodyDict), trackedIds)
      ensures created == old(created)
      ensures |destroyed| >= |old(destroyed)| && destroyed[..|old(destroyed)|] == old(destroyed)
      ensures forall id :: id in destroyed[|old(destroyed)|..] <==> id in old(bodyDict) && id !in trackedIds
      ensures forall i, j | |old(destroyed)| <= i < j < |destroyed| :: destroyed[i] != destroyed[j]
    {
      ghost var known0 := bodyDict;
      ghost var removed: seq<TrackingId> := [];
      var knownIds := bodyDict.Keys;
      while knownIds != {}
        invariant knownIds <= known0.Keys
        invariant forall id :: id in bodyDict <==> id in known0 && (id in knownIds || id in trackedIds)
        invariant forall id | id in bodyDict :: bodyDict[id] == known0[id]
        invariant created == old(created) && destroyed == old(destroyed) + removed
        invariant forall id :: id in removed <==> id in known0 && id !in knownIds && id !in trackedIds
        invariant forall i, j | 0 <= i < j < |removed| :: removed[i] != removed[j]
        decreases knownIds
      {
        var trackingId :| trackingId in knownIds;
        if trackingId !in trackedIds {
          DestroyBody(trackingId);
          removed := removed + [trackingId];
        }
        knownIds := knownIds - {trackingId};
      }
      assert destroyed[|old(destroyed)|..] == removed;
    }

    /** `Destroy` of one body object, logged. */
    method DestroyBody(id: TrackingId)
      requires Valid() && id in bodyDict
      modifies this
      ensures Valid()
      ensures bodyDict == old(bodyDict) - {id}
      ensures created == old(created) && destroyed == old(destroyed) + [id]
    {
      bodyDict := bodyDict - {id};
      destroyed := destroyed + [id];
    }

    /** One tracked body: instantiate (and log) its object if it has none, then refresh it. */
    method VisitBody(mapper: Mapper, body: Body)
      requires Valid() && WellFormed(body)
      modifies this
      ensures Valid()
      ensures bodyDict == Visit(ScriptRoutine(script, math), mapper, old(bodyDict), body)
      ensures created == old(created) + (if body.trackingId in old(bodyDict) then [] else [body.trackingId])
      ensures destroyed == old(destroyed)
    {
      if body.trackingId !in bodyDict {
        var obj := CreateBody(body.trackingId);
        bodyDict := bodyDict[body.trackingId := obj];
        created := created + [body.trackingId];
      }
      var refreshed := RefreshBodyObject(mapper, body, bodyDict[body.trackingId]);
      bodyDict := bodyDict[body.trackingId := refreshed];
      VisitKeepsValid(script, math, mapper, old(bodyDict), body);
    }

    /** The visiting loop: create if needed, refresh, and leave after the first tracked body unless following all. */
    method VisitBodies(data: seq<Option<Body>>, mapper: Mapper)
      requires Valid() && BodiesWellFormed(data)
      modifies this
      ensures Valid()
      ensures bodyDict == VisitAll(ScriptRoutine(script, math), mapper, old(bodyDict), data)
      ensures created == old(created) + Created(old(bodyDict).Keys, data, SingleBody(script))
      ensures destroyed == old(destroyed)
    {
      var i := 0;
      while i < |data|
        invariant 0 <= i <= |data|
        invariant Valid()
        invariant VisitAll(ScriptRoutine(script, math), mapper, bodyDict, data[i..]) ==
                  VisitAll(ScriptRoutine(script, math), mapper, old(bodyDict), data)
        invariant created + Created(bodyDict.Keys, data[i..], SingleBody(script)) ==
                  old(created) + Created(old(bodyDict).Keys, data, SingleBody(script))
        invariant destroyed == old(destroyed)
      {
        assert data[i..][0] == data[i] && data[i..][1..] == data[i + 1..];
        if data[i].None? {
          i := i + 1;
          continue;
        }
        var body := data[i].value;
        if body.isTracked {
          VisitBody(mapper, body);
          if SingleBody(script) {
            break;
          }
        }
        i := i + 1;
      }
    }

    /**
     * One frame: give up on a missing sensor, reader or body array; collect
     * the tracked ids; destroy the objects of bodies no longer tracked; then
     * create and refresh the objects of the tracked bodies.
     */
    method Update(feed: Feed)
      requires Valid() && FeedWellFormed(feed)
      modifies this
      ensures Valid()
      ensures bodyDict == Pass(ScriptRoutine(script, math), old(bodyDict), feed)
      ensures created == old(created) + PassCreated(SingleBody(script), old(bodyDict), feed)
      ensures |destroyed| >= |old(destroyed)| && destroyed[..|old(destroyed)|] == old(destroyed)
      ensures forall id :: id in destroyed[|old(destroyed)|..] <==> id in PassDestroyed(old(bodyDict), feed)
      ensures forall i, j | |old(destroyed)| <= i < j < |destroyed| :: destroyed[i] != destroyed[j]
    {
      if feed.NoSensor? { return; }
      if feed.NoBodyReader? { return; }
      if feed.NoBodyData? { return; }
      var trackedIds := CollectTrackedIds(feed.data);
      RemoveAbsentBodies(trackedIds);
      VisitBodies(feed.data, feed.mapper);
    }
  }
}
