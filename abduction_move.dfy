/**
 * The on-screen abduction/adduction exercise: a marker swings on a circle
 * around a pivot, back and forth between two angles, and every reversal of
 * direction counts one half repetition.  The pure `Step`/`Run` functions
 * specify one frame and a sequence of frames; the `AbductionMove` class holds
 * the component's fields and is proved to follow them.
 */
module Abduction {
  import opened Wrappers
  import opened Numerics

  /** A C# `int`. */
  type Int32 = x: int | -0x8000_0000 <= x < 0x8000_0000

  /** Two's-complement wrap-around of an `int` product or sum. */
  function Wrap32(x: int): (r: Int32)
    ensures -0x8000_0000 <= x < 0x8000_0000 ==> r == x
    ensures (r - x) % 0x1_0000_0000 == 0
  {
    var m := x % 0x1_0000_0000;
    if m < 0x8000_0000 then m else m - 0x1_0000_0000
  }

  /** The part of the component's state an update changes, and the finish flag. */
  datatype MoveState = MoveState(angle: real, dAngle: real, repetitions: int, done: bool)

  /** The bounds, the speed and the angular step chosen when the exercise starts. */
  datatype Setup = Setup(minAngle: real, maxAngle: real, speed: real)

  function DegreesToRadians(deg: real): real {
    deg * PI / 180.0
  }

  /** The setup and the first state, from the configured degrees and repetition count. */
  function StartSetup(minAngleInDegrees: real, maxAngleInDegrees: real, speed: real): Setup {
    Setup(DegreesToRadians(minAngleInDegrees), DegreesToRadians(maxAngleInDegrees), speed)
  }

  function StartState(setup: Setup, numRepetitions: Int32): MoveState {
    MoveState(setup.minAngle, if setup.minAngle < setup.maxAngle then 0.1 else -0.1,
              Wrap32(numRepetitions * 2), false)
  }

  /** The angle after one frame of `deltaTime` seconds. */
  function Advance(s: MoveState, setup: Setup, deltaTime: real): real {
    s.angle + s.dAngle * setup.speed * deltaTime
  }

  /** One frame: finish when no reversal is left, else move and reverse at either bound. */
  function Step(s: MoveState, setup: Setup, deltaTime: real): MoveState {
    if s.repetitions <= 0 then s.(done := true)
    else
      var a := Advance(s, setup, deltaTime);
      if a < setup.minAngle || a > setup.maxAngle then MoveState(a, -s.dAngle, s.repetitions - 1, s.done)
      else s.(angle := a)
  }

  /** The frames of `frameTimes`, in order. */
  function Run(s: MoveState, setup: Setup, frameTimes: seq<real>): MoveState
    decreases |frameTimes|
  {
    if |frameTimes| == 0 then s
    else Step(Run(s, setup, frameTimes[..|frameTimes| - 1]), setup, frameTimes[|frameTimes| - 1])
  }

  /** What every reachable state satisfies: the exercise is done only once no reversal is left. */
  predicate Consistent(s: MoveState) {
    s.done ==> s.repetitions <= 0
  }

  /** The direction points up the range exactly when the minimum is below the maximum, in degrees as in radians. */
  lemma StartDirection(minAngleInDegrees: real, maxAngleInDegrees: real, speed: real, numRepetitions: Int32)
    ensures var s := StartState(StartSetup(minAngleInDegrees, maxAngleInDegrees, speed), numRepetitions);
      && (s.dAngle > 0.0 <==> minAngleInDegrees < maxAngleInDegrees)
      && (s.dAngle == 0.1 || s.dAngle == -0.1)
      && s.angle == DegreesToRadians(minAngleInDegrees)
      && !s.done && Consistent(s)
  {
    var a, b := minAngleInDegrees, maxAngleInDegrees;
    if a < b {
      assert a * PI < b * PI;
    } else {
      assert b * PI <= a * PI;
    }
  }

  /**
   * The exercise asks for twice the configured count of reversals, as long
   * as that product fits in an `int`; a count of 2^30 wraps to a negative
   * number and the exercise is over on the first frame.
   */
  lemma StartRepetitions(setup: Setup, numRepetitions: Int32)
    ensures -0x4000_0000 <= numRepetitions < 0x4000_0000 ==>
      StartState(setup, numRepetitions).repetitions == 2 * numRepetitions
    ensures numRepetitions == 0x4000_0000 ==>
      StartState(setup, numRepetitions).repetitions == -0x8000_0000
      && forall deltaTime: real {:trigger Step(StartState(setup, numRepetitions), setup, deltaTime)} ::
           Step(StartState(setup, numRepetitions), setup, deltaTime).done
  {
  }

  /** One frame keeps the state consistent, never brings back a finished exercise and spends at most one reversal. */
  lemma StepKeepsConsistent(s: MoveState, setup: Setup, deltaTime: real)
    requires Consistent(s)
    ensures var t := Step(s, setup, deltaTime);
      && Consistent(t)
      && (s.done ==> t.done && t == s)
      && (t.repetitions == s.repetitions || (s.repetitions > 0 && t.repetitions == s.repetitions - 1))
      && (t.done <==> s.done || s.repetitions <= 0)
  {
  }

  /**
   * A frame with reversals left reverses the direction exactly when the new
   * angle falls outside [minAngle, maxAngle], and then spends one reversal;
   * inside the range it only moves the angle.
   */
  lemma StepReversesAtBounds(s: MoveState, setup: Setup, deltaTime: real)
    requires s.repetitions > 0 && s.dAngle != 0.0
    ensures var t := Step(s, setup, deltaTime);
      var a := s.angle + s.dAngle * setup.speed * deltaTime;
      && t.angle == a && !t.done == !s.done
      && (t.dAngle == -s.dAngle <==> a < setup.minAngle || a > setup.maxAngle)
      && (t.repetitions == s.repetitions - 1 <==> a < setup.minAngle || a > setup.maxAngle)
      && (t.dAngle == s.dAngle <==> setup.minAngle <= a <= setup.maxAngle)
  {
  }

  /** Over any run, the reversals spent are at most the frames, and a non-negative count stays non-negative. */
  lemma {:induction false} RunRepetitions(s: MoveState, setup: Setup, frameTimes: seq<real>)
    requires Consistent(s)
    ensures var t := Run(s, setup, frameTimes);
      && Consistent(t)
      && s.repetitions - |frameTimes| <= t.repetitions <= s.repetitions
      && (s.repetitions >= 0 ==> t.repetitions >= 0)
      && (s.done ==> t == s)
    decreases |frameTimes|
  {
    if |frameTimes| > 0 {
      var prefix := frameTimes[..|frameTimes| - 1];
      RunRepetitions(s, setup, prefix);
      StepKeepsConsistent(Run(s, setup, prefix), setup, frameTimes[|frameTimes| - 1]);
    }
  }

  /**
   * A run ends finished exactly when it started finished or some frame began
   * with no reversal left.
   */
  lemma {:induction false} RunDoneIff(s: MoveState, setup: Setup, frameTimes: seq<real>)
    ensures Run(s, setup, frameTimes).done <==>
      s.done || exists k :: 0 <= k < |frameTimes| && Run(s, setup, frameTimes[..k]).repetitions <= 0
    decreases |frameTimes|
  {
    if |frameTimes| > 0 {
      var n := |frameTimes| - 1;
      var prefix := frameTimes[..n];
      RunDoneIff(s, setup, prefix);
      assert forall k :: 0 <= k <= n ==> frameTimes[..k] == prefix[..k];
      if Run(s, setup, frameTimes).done && !s.done {
        if !Run(s, setup, prefix).done {
          assert Run(s, setup, frameTimes[..n]).repetitions <= 0;
        } else {
          var k :| 0 <= k < n && Run(s, setup, prefix[..k]).repetitions <= 0;
          assert Run(s, setup, frameTimes[..k]).repetitions <= 0;
        }
      }
      if exists k :: 0 <= k < |frameTimes| && Run(s, setup, frameTimes[..k]).repetitions <= 0 {
        var k :| 0 <= k < |frameTimes| && Run(s, setup, frameTimes[..k]).repetitions <= 0;
        if k < n {
          assert Run(s, setup, prefix[..k]).repetitions <= 0;
        }
      }
    }
  }

  /**
   * With 2n reversals to make, the exercise cannot be finished in fewer than
   * 2n + 1 frames: each frame spends at most one reversal and the frame that
   * sets the flag spends none.
   */
  lemma RunNeedsFrames(s: MoveState, setup: Setup, frameTimes: seq<real>)
    requires Consistent(s) && !s.done && s.repetitions >= 0
    requires Run(s, setup, frameTimes).done
    ensures |frameTimes| > s.repetitions
  {
    RunDoneIff(s, setup, frameTimes);
    var k :| 0 <= k < |frameTimes| && Run(s, setup, frameTimes[..k]).repetitions <= 0;
    RunRepetitions(s, setup, frameTimes[..k]);
  }

  /**
   * The reversal test ignores the direction of motion: a frame that starts
   * past the upper bound already heading back down, and is too short to
   * re-enter the range, flips the direction outward again and spends a
   * reversal although the marker did not turn at the bound.
   */
  lemma InwardFrameOutsideReverses(s: MoveState, setup: Setup, deltaTime: real)
    requires s.repetitions > 0 && s.angle > setup.maxAngle && s.dAngle < 0.0
    requires Advance(s, setup, deltaTime) > setup.maxAngle
    ensures var t := Step(s, setup, deltaTime);
      && t.dAngle > 0.0
      && t.repetitions == s.repetitions - 1
  {
  }

  /**
   * A concrete run: after a turn at the top of the range, a frame shorter than
   * the one before it leaves the angle above the maximum, the direction flips
   * back outward and a second reversal is counted for a single turn.
   */
  lemma ShorterFrameCountsTwoReversals()
    ensures var setup := Setup(0.0, 1.0, 1.0);
      var s := MoveState(0.95, 0.1, 4, false);
      var t := Run(s, setup, [1.0, 0.2]);
      && t.repetitions == 2
      && t.dAngle == 0.1
      && t.angle > setup.maxAngle
  {
    var setup := Setup(0.0, 1.0, 1.0);
    var s := MoveState(0.95, 0.1, 4, false);
    assert [1.0, 0.2][..1] == [1.0];
    assert [1.0][..0] == [];
    assert Run(s, setup, [1.0]) == MoveState(1.05, -0.1, 3, false);
    InwardFrameOutsideReverses(Run(s, setup, [1.0]), setup, 0.2);
  }

  /** One frame that reverses only when the marker has passed the bound it was moving towards. */
  function StepCorrected(s: MoveState, setup: Setup, deltaTime: real): MoveState {
    if s.repetitions <= 0 then s.(done := true)
    else
      var a := Advance(s, setup, deltaTime);
      if (a < setup.minAngle && s.dAngle < 0.0) || (a > setup.maxAngle && s.dAngle > 0.0)
      then MoveState(a, -s.dAngle, s.repetitions - 1, s.done)
      else s.(angle := a)
  }

  /**
   * With time running forward, the corrected frame spends a reversal only
   * when it turns the marker back towards the range, and spends none while
   * the marker is heading back without overshooting the far bound; from inside the range it agrees with
   * `Step` whenever the direction points at the bound that is crossed.
   */
  lemma StepCorrectedTurnsInward(s: MoveState, setup: Setup, deltaTime: real)
    requires s.repetitions > 0 && setup.speed * deltaTime > 0.0
    ensures var t := StepCorrected(s, setup, deltaTime);
      && (t.repetitions == s.repetitions - 1 ==>
            (t.angle > setup.maxAngle && t.dAngle < 0.0) || (t.angle < setup.minAngle && t.dAngle > 0.0))
      && (s.angle > setup.maxAngle && s.dAngle < 0.0 && t.angle >= setup.minAngle ==> t.repetitions == s.repetitions)
      && (s.angle < setup.minAngle && s.dAngle > 0.0 && t.angle <= setup.maxAngle ==> t.repetitions == s.repetitions)
      && (setup.minAngle <= s.angle <= setup.maxAngle ==> t == Step(s, setup, deltaTime))
  {
    var a := Advance(s, setup, deltaTime);
    var k := setup.speed * deltaTime;
    assert a == s.angle + s.dAngle * k;
    if s.dAngle > 0.0 {
      assert s.dAngle * k > 0.0;
    } else if s.dAngle < 0.0 {
      assert s.dAngle * k < 0.0;
    }
  }

  /** Where the moving marker sits for an angle: on the circle of `radius` round the origin, at depth `z`. */
  function OnCircle(radius: real, cos: real -> real, sin: real -> real, a: real, z: real): Real3 {
    Real3(radius * cos(a), radius * sin(a), z)
  }

  /**
   * The marker's (x, y) does not depend on where the component stands: two
   * pivots at the same depth give the same marker position, so the marker
   * circles the world origin rather than the pivot marker.
   */
  lemma MarkerIgnoresPivot(radius: real, cos: real -> real, sin: real -> real, a: real, p1: Real3, p2: Real3)
    requires p1.z == p2.z
    ensures OnCircle(radius, cos, sin, a, p1.z) == OnCircle(radius, cos, sin, a, p2.z)
    ensures var m := OnCircle(radius, cos, sin, a, p1.z);
      p1 != p2 ==> (m.x - p1.x, m.y - p1.y) != (m.x - p2.x, m.y - p2.y)
  {
  }

  /** The marker on the circle of `radius` round `pivot`, in the pivot's plane. */
  function AroundPivot(radius: real, cos: real -> real, sin: real -> real, a: real, pivot: Real3): Real3 {
    Real3(pivot.x + radius * cos(a), pivot.y + radius * sin(a), pivot.z)
  }

  /** The corrected marker keeps the same offset from every pivot, and agrees with `OnCircle` at the origin. */
  lemma AroundPivotOffset(radius: real, cos: real -> real, sin: real -> real, a: real, p1: Real3, p2: Real3)
    ensures var m1, m2 := AroundPivot(radius, cos, sin, a, p1), AroundPivot(radius, cos, sin, a, p2);
      && m1.x - p1.x == m2.x - p2.x && m1.y - p1.y == m2.y - p2.y && m1.z == p1.z
    ensures p1.x == 0.0 && p1.y == 0.0 ==> AroundPivot(radius, cos, sin, a, p1) == OnCircle(radius, cos, sin, a, p1.z)
  {
  }

  /**
   * The `AbductionMove` component.  The marker positions are `None` until
   * `Start` creates the markers; cosine and sine stay opaque.
   */
  class AbductionMove {
    var pivotJointPosition: Real3
    var minAngleInDegrees: real
    var maxAngleInDegrees: real
    var radius: real
    var speed: real
    var numRepetitions: Int32

    /** The component's own transform position. */
    var position: Real3
    var markerPosition: Option<Real3>
    var pivotPosition: Option<Real3>

    var minAngle: real
    var maxAngle: real
    var angle: real
    var dAngle: real
    var repetitions: Int32
    var doneRepetitions: bool

    const cos: real -> real
    const sin: real -> real

    ghost predicate Valid()
      reads this
    {
      && Consistent(State())
      && (markerPosition.None? ==> !doneRepetitions && repetitions == 0)
    }

    function State(): MoveState
      reads this
    {
      MoveState(angle, dAngle, repetitions, doneRepetitions)
    }

    function CurrentSetup(): Setup
      reads this
    {
      Setup(minAngle, maxAngle, speed)
    }

    function Placement(a: real): Real3
      reads this`radius, this`position
    {
      OnCircle(radius, cos, sin, a, position.z)
    }

    /** The inspector defaults: radius 1, speed 1, three repetitions, nothing started. */
    constructor (pivotJointPosition: Real3, minAngleInDegrees: real, maxAngleInDegrees: real,
                 cos: real -> real, sin: real -> real)
      ensures Valid()
      ensures this.pivotJointPosition == pivotJointPosition
      ensures this.minAngleInDegrees == minAngleInDegrees && this.maxAngleInDegrees == maxAngleInDegrees
      ensures radius == 1.0 && speed == 1.0 && numRepetitions == 3
      ensures this.cos == cos && this.sin == sin
      ensures State() == MoveState(0.0, 0.0, 0, false)
      ensures markerPosition.None? && pivotPosition.None?
    {
      this.pivotJointPosition := pivotJointPosition;
      this.minAngleInDegrees := minAngleInDegrees;
      this.maxAngleInDegrees := maxAngleInDegrees;
      radius := 1.0;
      speed := 1.0;
      numRepetitions := 3;
      position := Real3(0.0, 0.0, 0.0);
      markerPosition := None;
      pivotPosition := None;
      minAngle, maxAngle, angle, dAngle := 0.0, 0.0, 0.0, 0.0;
      repetitions := 0;
      doneRepetitions := false;
      this.cos := cos;
      this.sin := sin;
    }

    /** True once every repetition has been performed. */
    method AreRepetitionsDone() returns (done: bool)
      requires Valid()
      ensures done == State().done
      ensures done ==> repetitions <= 0
    {
      return doneRepetitions;
    }

    /**
     * Moves the component to the pivot, converts the bounds to radians,
     * places both markers and sets twice the configured count of reversals.
     */
    method Start()
      requires Valid() && markerPosition.None?
      modifies this
      ensures Valid()
      ensures position == pivotJointPosition
      ensures CurrentSetup() == StartSetup(minAngleInDegrees, maxAngleInDegrees, speed)
      ensures State() == StartState(CurrentSetup(), numRepetitions)
      ensures markerPosition == Some(Placement(angle)) && pivotPosition == Some(position)
      ensures unchanged(this`pivotJointPosition, this`minAngleInDegrees, this`maxAngleInDegrees,
                        this`radius, this`speed, this`numRepetitions)
    {
      position := pivotJointPosition;
      minAngle := minAngleInDegrees * PI / 180.0;
      maxAngle := maxAngleInDegrees * PI / 180.0;
      angle := minAngle;
      dAngle := if minAngle < maxAngle then 0.1 else -0.1;

      markerPosition := Some(Placement(angle));
      pivotPosition := Some(position);

      repetitions := Wrap32(numRepetitions * 2);
    }

    /** One frame of `deltaTime` seconds: the state follows `Step`, the marker follows the angle. */
    method Update(deltaTime: real)
      requires Valid() && markerPosition.Some?
      modifies this
      ensures Valid()
      ensures State() == Step(old(State()), CurrentSetup(), deltaTime)
      ensures old(repetitions) > 0 ==> markerPosition == Some(Placement(angle))
      ensures old(repetitions) <= 0 ==> markerPosition == old(markerPosition)
      ensures CurrentSetup() == old(CurrentSetup())
      ensures unchanged(this`pivotJointPosition, this`minAngleInDegrees, this`maxAngleInDegrees,
                        this`radius, this`numRepetitions, this`position, this`pivotPosition)
    {
      if repetitions <= 0 {
        doneRepetitions := true;
        return;
      }

      angle := angle + dAngle * speed * deltaTime;
      if angle < minAngle || angle > maxAngle {
        dAngle := -dAngle;
        repetitions := repetitions - 1;
      }

      markerPosition := Some(Placement(angle));
    }
  }
}
