/**
 * The sensor's body frame as the scripts receive it (Kinect v2 body data).
 * A joint dictionary keyed by `JointType` is a sequence indexed by the joint
 * type's number; a body from the sensor always carries all 25 joints and all
 * 25 joint orientations.
 */
module Kinect {
  import opened Numerics

  const JointCount: nat := 25

  /** `JointType`, in the sensor's enumeration order. */
  type JointType = j: int | 0 <= j < 25

  const SpineBase: JointType := 0
  const SpineMid: JointType := 1
  const Neck: JointType := 2
  const Head: JointType := 3
  const ShoulderLeft: JointType := 4
  const ElbowLeft: JointType := 5
  const WristLeft: JointType := 6
  const HandLeft: JointType := 7
  const ShoulderRight: JointType := 8
  const ElbowRight: JointType := 9
  const WristRight: JointType := 10
  const HandRight: JointType := 11
  const HipLeft: JointType := 12
  const KneeLeft: JointType := 13
  const AnkleLeft: JointType := 14
  const FootLeft: JointType := 15
  const HipRight: JointType := 16
  const KneeRight: JointType := 17
  const AnkleRight: JointType := 18
  const FootRight: JointType := 19
  const SpineShoulder: JointType := 20
  const HandTipLeft: JointType := 21
  const ThumbLeft: JointType := 22
  const HandTipRight: JointType := 23
  const ThumbRight: JointType := 24

  /** A body's `TrackingId`, an unsigned 64-bit integer. */
  type TrackingId = i: int | 0 <= i < 0x1_0000_0000_0000_0000

  datatype TrackingState = NotTracked | Inferred | Tracked

  /** A 3-D point in camera space (metres). */
  datatype CameraSpacePoint = CameraSpacePoint(x: Float, y: Float, z: Float)

  /** A 2-D point in the 1920 x 1080 colour frame; unmappable points carry infinities. */
  datatype ColorSpacePoint = ColorSpacePoint(x: Float, y: Float)

  /** The sensor's coordinate mapper from camera space to the colour frame; unmappable points come back infinite. */
  type Mapper = CameraSpacePoint -> ColorSpacePoint

  datatype Joint = Joint(position: CameraSpacePoint, trackingState: TrackingState)

  /** A joint orientation: the sensor's (X, Y, Z, W) quaternion. */
  datatype JointOrientation = JointOrientation(x: Float, y: Float, z: Float, w: Float)

  datatype Body = Body(
    isTracked: bool,
    trackingId: TrackingId,
    joints: seq<Joint>,
    jointOrientations: seq<JointOrientation>)

  /** A body as the sensor delivers it: one entry per joint type. */
  predicate WellFormed(body: Body) {
    |body.joints| == JointCount && |body.jointOrientations| == JointCount
  }

  predicate IsTrackedJoint(body: Body, j: JointType)
    requires WellFormed(body)
  {
    body.joints[j].trackingState == Tracked
  }
}
