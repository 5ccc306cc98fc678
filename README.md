# MagicMirror body tracking, modelled in Dafny

MagicMirror is a Unity application that shows a Kinect v2 user their own
body on screen. It draws markers on the joints, text boxes with joint angles
and a moving target for a shoulder-abduction exercise. This project models
three parts of it.

**Registry.** Every tracking script runs the same frame loop. It:
- collects the tracking ids of the tracked bodies;
- destroys the object of every body no longer tracked;
- creates an object for a newly tracked body and refreshes it.

Five scripts follow only the first tracked body. The simple body tracker
follows all of them. Each script has its own `CreateBody` and
`RefreshBodyObject`.

**Repetition counter.** The abduction exercise swings a marker between two
angles and counts each reversal of direction.

**Geometry library.** `BodyAnalysis` covers:
- conversion of the sensor's joints to Unity positions and rotations;
- the affine rescale from the 1920×1080 colour frame to the screen;
- limb lengths and body heights;
- which joints and which plane each joint-angle function measures.

Files, one module each:
- `numerics.dfy`: `Wrappers`, and `Numerics`, which holds the single-precision values.
  - A float is `Finite(real)`, ±infinity or NaN.
  - Add, subtract, multiply and divide follow the IEEE rules for infinities and NaN.
  - A 2-D point passes the scripts' marker guard (`Usable`) when neither coordinate is ±infinity.
  - `Vector3.Distance`, `Vector2.Angle`, `Mathf.Acos` and `magnitude` are opaque function fields of a `MathLib` value.
- `kinect.dfy`: `Kinect`: joints, orientations, bodies and the coordinate mapper.
- `body_analysis.dfy`: `BodyAnalysis`, the geometry library.
- `abduction_move.dfy`: `Abduction`. It has the pure `Step`/`Run` specification and the `AbductionMove` class, proved to follow it.
- `scene.dfy`: `Scene`.
  - Markers are records: name, position, rotation, active flag, text.
  - `transform.Find`, the joint-marker creation loop and the shared child loop.
- `shoulder_abduction.dfy`, `view_body_angles.dfy`, `hand_tracker.dfy`, `simple_body_tracker.dfy`, `box_skeleton.dfy`, `arm_routine.dfy`: each script's `CreateBody` and `RefreshBodyObject`.
- `body_registry.dfy`: `BodyRegistry`, the shared frame loop.
  - `Pass` is the pure specification of one `Update`.
  - The `Registry` class holds a script's `bodyDict` and runs `Update` with loops proved equal to `Pass`.
  - Ghost logs record each body object instantiated and each one destroyed, so the model can state which ids a frame creates and destroys.

## Model

All source paths are under `MM_unity/Assets/Scripts/`.

| member | source | states |
|---|---|---|
| Numerics.TruncateToInt | MM_unity/Assets/Scripts/ViewBodyAngles.cs:142-149 | The C# `(int)` cast of a float truncates toward zero. The result is defined exactly for finite values in the int range, and lies within one unit of the value, on the zero side. |
| BodyAnalysis.UnityPositions | MM_unity/Assets/Scripts/BodyAnalysis.cs:68-78 | One slot per joint; slot i holds joint i's camera position as (X, Y, Z). |
| BodyAnalysis.UnityOrientations | MM_unity/Assets/Scripts/BodyAnalysis.cs:88-99 | One slot per joint; slot i holds joint i's orientation as (X, Y, Z, W). |
| BodyAnalysis.ConvertToUnityPosition | MM_unity/Assets/Scripts/BodyAnalysis.cs:68-78 | The array-filling loop returns one slot per joint with joint i's X, Y, Z in slot i, and equals `UnityPositions`. |
| BodyAnalysis.ConvertToUnityOrientation | MM_unity/Assets/Scripts/BodyAnalysis.cs:88-99 | The loop returns one quaternion per joint with joint i's X, Y, Z, W in slot i, and equals `UnityOrientations`. |
| BodyAnalysis.ScreenPositions | MM_unity/Assets/Scripts/BodyAnalysis.cs:423-430 | Every colour point is rescaled on its own, keeping its slot. |
| BodyAnalysis.MapToColorSpace | MM_unity/Assets/Scripts/BodyAnalysis.cs:413-420 | The mapper receives joint jt's camera position, and its answer stays in slot jt. |
| BodyAnalysis.Screen2D | MM_unity/Assets/Scripts/BodyAnalysis.cs:409-432 | The 2-D conversion returns one screen point per joint. |
| BodyAnalysis.ConvertToUnity2DPosition | MM_unity/Assets/Scripts/BodyAnalysis.cs:409-432 | The two loops (copy the camera points; rescale each mapped point) give joint jt the point (x·sx/1920 − sx/2 + px, sy/2 − y·sy/1080 + py) of its mapped colour point, in float arithmetic, and equal `Screen2D`. |
| BodyAnalysis.RescaleFinite | MM_unity/Assets/Scripts/BodyAnalysis.cs:425-430 | A finite colour point lands at (x·sx/1920 − sx/2 + px, sy/2 − y·sy/1080 + py). |
| BodyAnalysis.RescaleTopLeft | MM_unity/Assets/Scripts/BodyAnalysis.cs:425-430 | Colour (0,0) lands at (px − sx/2, py + sy/2). |
| BodyAnalysis.RescaleBottomRight | MM_unity/Assets/Scripts/BodyAnalysis.cs:425-430 | Colour (1920,1080) lands at (px + sx/2, py − sy/2). |
| BodyAnalysis.RescaleRoundTrip | MM_unity/Assets/Scripts/BodyAnalysis.cs:425-430 | On a screen of non-zero size, the inverse affine map recovers the colour point: the rescale loses nothing. |
| BodyAnalysis.RescaleKeepsSentinel | MM_unity/Assets/Scripts/BodyAnalysis.cs:420-430 | On a screen of non-zero size, a rescaled point passes the ±infinity guard exactly when its colour point has no infinite coordinate, so the mapper's "unmappable" sentinel survives the rescale. |
| BodyAnalysis.Pick | MM_unity/Assets/Scripts/BodyAnalysis.cs:113-124 | Selecting a chain of joints returns the chain's points in chain order. |
| BodyAnalysis.PolylineLengthNonNegative | MM_unity/Assets/Scripts/BodyAnalysis.cs:108-155 | A sum of segment distances is non-negative when every distance is. |
| BodyAnalysis.PolylineOfFour | MM_unity/Assets/Scripts/BodyAnalysis.cs:108-155 | A four-point chain's length is the sum of its three segment distances, in order. |
| BodyAnalysis.LimbLengthsArePolylines | MM_unity/Assets/Scripts/BodyAnalysis.cs:108-155 | Arm length = shoulder→elbow + elbow→wrist + wrist→hand; leg length = hip→knee + knee→ankle + ankle→foot; on the chosen side, in 3-D. |
| BodyAnalysis.LimbLengths2DArePolylines | MM_unity/Assets/Scripts/BodyAnalysis.cs:443-491 | The same chains, measured between the joints' screen points. |
| BodyAnalysis.LimbLengthsNonNegative | MM_unity/Assets/Scripts/BodyAnalysis.cs:108-155 | All four limb lengths are non-negative when distance is. |
| BodyAnalysis.BelowGrows | MM_unity/Assets/Scripts/BodyAnalysis.cs:374-384 | Each of the four tests adds one to the running count exactly when its slot is tracked. |
| BodyAnalysis.TrackedLegJoints | MM_unity/Assets/Scripts/BodyAnalysis.cs:374-384 | The count equals the number of the leg's hip, knee, ankle and foot whose tracking state is Tracked, whichever of them those are. So it is 0..4, 4 iff all are tracked and 0 iff none is. |
| BodyAnalysis.UsesRightLeg | MM_unity/Assets/Scripts/BodyAnalysis.cs:374-391 | The right leg is measured iff fewer or as many left leg joints are tracked as right ones. A fully tracked right leg, or a left leg with nothing tracked, selects the right leg; the left leg is selected only when at least one of its joints is tracked. |
| BodyAnalysis.LegSelectionTieGoesRight | MM_unity/Assets/Scripts/BodyAnalysis.cs:386-391 | Equal counts, including no tracked leg joint at all, select the right leg. |
| BodyAnalysis.HeightSelectsLeg2D | MM_unity/Assets/Scripts/BodyAnalysis.cs:367-397 | Screen height = head–neck + neck–spine-shoulder + spine-shoulder–spine-base + the selected leg + 0.08. With finite parts it is their real sum. |
| BodyAnalysis.ComputeBodyHeightAlwaysLeft | MM_unity/Assets/Scripts/BodyAnalysis.cs:31-57 | The 3-D height always adds the left leg, whatever the counts. The corrected height adds the right leg whenever the rule selects it. |
| BodyAnalysis.HeightSelectsLeg | MM_unity/Assets/Scripts/BodyAnalysis.cs:31-57 | The corrected 3-D height is torso + the selected leg + 0.08. |
| BodyAnalysis.FlexionSpineAnglePlanes | MM_unity/Assets/Scripts/BodyAnalysis.cs:164-180 | The spine angle depends only on SpineBase − SpineShoulder: its (x,y) part when coronal, its (z,y) part otherwise. |
| BodyAnalysis.AbductionShoulderAngleFrontal | MM_unity/Assets/Scripts/BodyAnalysis.cs:189-208 | Shoulder abduction depends only on the (x,y) of the spine and of the side's shoulder and elbow. |
| BodyAnalysis.FlexionShoulderAngleSagittal | MM_unity/Assets/Scripts/BodyAnalysis.cs:245-262 | Shoulder flexion depends only on the (z,y) of the side's shoulder and elbow. |
| BodyAnalysis.AbductionLegAngleIsShoulderAngle | MM_unity/Assets/Scripts/BodyAnalysis.cs:217-236 | As written, leg abduction equals shoulder abduction on the same side (it reads shoulder and elbow joints). |
| BodyAnalysis.AbductionLegAngleCorrectedFrontal | MM_unity/Assets/Scripts/BodyAnalysis.cs:217-236 | The corrected leg abduction depends only on the (x,y) of the spine and of the side's hip and knee. |
| BodyAnalysis.FlexionLegAngleIgnoresDepth | MM_unity/Assets/Scripts/BodyAnalysis.cs:297-314 | As written, leg flexion depends only on the (x,y) of hip and knee: the 3-D vector is passed and the (z,y) vector is unused. |
| BodyAnalysis.FlexionLegAngleCorrectedSagittal | MM_unity/Assets/Scripts/BodyAnalysis.cs:297-314 | The corrected leg flexion depends only on the (z,y) of hip and knee. |
| BodyAnalysis.FlexionElbowAngleFromChain | MM_unity/Assets/Scripts/BodyAnalysis.cs:271-288 | Elbow flexion depends only on the 3-D positions of the side's shoulder, elbow and wrist: two bodies that agree there get the same angle, whatever their other joints. |
| BodyAnalysis.FlexionKneeAngleFromChain | MM_unity/Assets/Scripts/BodyAnalysis.cs:323-341 | Knee flexion depends only on the 3-D positions of the side's hip, knee and ankle. |
| Abduction.Wrap32 | MM_unity/Assets/Scripts/AbductionMove.cs:70 | C# int arithmetic: an in-range value is kept, and the result is congruent to the value modulo 2^32. |
| Abduction.StartDirection | MM_unity/Assets/Scripts/AbductionMove.cs:45-71 | Start converts degrees to radians (·π/180). The angle starts at the minimum. dAngle is +0.1 iff minimum < maximum in degrees, else −0.1. The state starts not done. |
| Abduction.StartRepetitions | MM_unity/Assets/Scripts/AbductionMove.cs:70 | The counter starts at 2·numRepetitions while that fits in an int. A count of 2^30 wraps to −2^31, and the first update ends the exercise whatever the frame time. |
| Abduction.StepKeepsConsistent | MM_unity/Assets/Scripts/AbductionMove.cs:73-91 | An update keeps "done ⟹ counter ≤ 0"; a done state never changes; the counter never increases and drops by at most one; the flag is set iff it was set or the counter was ≤ 0. |
| Abduction.StepReversesAtBounds | MM_unity/Assets/Scripts/AbductionMove.cs:81-86 | With reversals left, the angle advances by dAngle·speed·deltaTime. dAngle flips, and the counter drops by one, exactly when the new angle leaves [min, max]. |
| Abduction.RunRepetitions | MM_unity/Assets/Scripts/AbductionMove.cs:73-91 | Over any run the counter never increases, spends at most one per frame, and stays non-negative from a non-negative start. |
| Abduction.RunDoneIff | MM_unity/Assets/Scripts/AbductionMove.cs:75-79 | A run ends done iff it started done or some frame began with the counter ≤ 0. The flag latches one update after the last reversal. |
| Abduction.RunNeedsFrames | MM_unity/Assets/Scripts/AbductionMove.cs:73-91 | Finishing from counter n takes more than n frames. |
| Abduction.InwardFrameOutsideReverses | MM_unity/Assets/Scripts/AbductionMove.cs:81-86 | As written, the bound test ignores the direction of motion: a frame that starts above the maximum heading down and ends still above it flips the direction back up and spends a reversal. |
| Abduction.ShorterFrameCountsTwoReversals | MM_unity/Assets/Scripts/AbductionMove.cs:81-86 | A concrete run: a shorter second frame past the top bound counts a second reversal for one turn and turns the marker outward again. |
| Abduction.StepCorrectedTurnsInward | MM_unity/Assets/Scripts/AbductionMove.cs:81-86 | With time running forward, the corrected test spends a reversal only when it turns the marker back towards the range, spends none while the marker heads back without overshooting, and agrees with the written step from inside the range. |
| Abduction.MarkerIgnoresPivot | MM_unity/Assets/Scripts/AbductionMove.cs:45-90 | As written, the marker's position does not depend on the pivot's (x, y): two pivots at the same depth get the same marker, so its offset from the pivot differs. |
| Abduction.AroundPivotOffset | MM_unity/Assets/Scripts/AbductionMove.cs:88-90 | The corrected marker keeps the same offset from every pivot, and agrees with the written one when the pivot is at the origin. |
| Abduction.AbductionMove.AreRepetitionsDone | MM_unity/Assets/Scripts/AbductionMove.cs:40-43 | Returns the done flag, which implies the counter is ≤ 0. |
| Abduction.AbductionMove.Start | MM_unity/Assets/Scripts/AbductionMove.cs:45-71 | Sets the radian bounds, the first angle, direction and counter (`StartState`), and places the pivot and the marker on the circle. |
| Abduction.AbductionMove.Update | MM_unity/Assets/Scripts/AbductionMove.cs:73-91 | The new state is `Step` of the old one. The marker moves only while reversals are left. The bounds never change. |
| Scene.Instantiate | MM_unity/Assets/Scripts/ViewBodyAngles.cs:90-93 | A copy of a prefab keeps the prefab's position, rotation, active flag and text, and takes the new name. |
| Scene.Names | MM_unity/Assets/Scripts/ShoulderAbduction.cs:165 | The children's names, in child order. |
| Scene.Find | MM_unity/Assets/Scripts/ShoulderAbduction.cs:165 | `transform.Find` returns a child index or −1. |
| Scene.FindFirst | MM_unity/Assets/Scripts/ShoulderAbduction.cs:165 | `Find` returns the first child with the name, and −1 iff no child has it. |
| Scene.FindDistinct | MM_unity/Assets/Scripts/ShoulderAbduction.cs:165 | Among distinct names, `Find` returns the name's own index. |
| Scene.JointMarkers | MM_unity/Assets/Scripts/SimpleBodyTracker.cs:82-96 | 25 prefab copies, child jt named after joint jt. |
| Scene.InstantiateJointMarkers | MM_unity/Assets/Scripts/SimpleBodyTracker.cs:88-94 | The loop from SpineBase to ThumbRight creates exactly `JointMarkers`, child jt named after joint jt. |
| Scene.AtDepth | MM_unity/Assets/Scripts/SimpleBodyTracker.cs:122 | Each screen point lifted to the screen's depth. |
| Scene.MovedChildren | MM_unity/Assets/Scripts/SimpleBodyTracker.cs:109-127 | The child loop's outcome: child k takes target k and orientation k if guard k is usable, else is untouched. Children past the joints are untouched. |
| Scene.MoveChildren | MM_unity/Assets/Scripts/SimpleBodyTracker.cs:109-127 | The loop with counter `i` and its two early exits moves exactly the children with a usable guard, leaves every other child unchanged, and equals `MovedChildren`. |
| Scene.MovedChildrenKeepShape | MM_unity/Assets/Scripts/ViewBodyAngles.cs:120-138 | The child loop keeps every child's name, active flag and text. |
| ShoulderAbduction.FindInShaped | MM_unity/Assets/Scripts/ShoulderAbduction.cs:165-223 | In a created body, each `Find` by name reaches that side's shoulder, elbow, hand or text child. |
| ShoulderAbduction.NewChild | MM_unity/Assets/Scripts/ShoulderAbduction.cs:84-135 | Each created child has its slot's name, and elbow markers start hidden. |
| ShoulderAbduction.NewSide | MM_unity/Assets/Scripts/ShoulderAbduction.cs:84-135 | A side is shoulder, elbow, hand, text box, in that order. |
| ShoulderAbduction.CreateBody | MM_unity/Assets/Scripts/ShoulderAbduction.cs:84-135 | Eight children, the left side first, each a copy of its slot's prefab. |
| ShoulderAbduction.SlotUpdate | MM_unity/Assets/Scripts/ShoulderAbduction.cs:164-194 | Updating a slot never renames its child. |
| ShoulderAbduction.RefreshSlot | MM_unity/Assets/Scripts/ShoulderAbduction.cs:164-194 | A found child is updated in place; the other seven are unchanged. |
| ShoulderAbduction.RefreshSide | MM_unity/Assets/Scripts/ShoulderAbduction.cs:164-194 | A side's refresh keeps the eight named children. |
| ShoulderAbduction.RefreshSides | MM_unity/Assets/Scripts/ShoulderAbduction.cs:138-229 | Both sides' refreshes keep the eight named children. |
| ShoulderAbduction.RefreshBodyObject | MM_unity/Assets/Scripts/ShoulderAbduction.cs:138-229 | The refresh keeps the id and the eight named children. |
| ShoulderAbduction.SlotsEffect | MM_unity/Assets/Scripts/ShoulderAbduction.cs:164-194 | Refreshing slots 0, 3, 1, 2 updates exactly that side's four children. |
| ShoulderAbduction.RefreshSideEffect | MM_unity/Assets/Scripts/ShoulderAbduction.cs:164-194 | One side's refresh updates exactly that side's four children, with that side's readings. |
| ShoulderAbduction.RefreshSidesEffect | MM_unity/Assets/Scripts/ShoulderAbduction.cs:164-228 | Every child k is updated from its own side's readings. |
| ShoulderAbduction.RefreshBodyObjectEffect | MM_unity/Assets/Scripts/ShoulderAbduction.cs:138-229 | Shoulder, elbow and hand markers move to (x, y, position.z − 0.5) only when the point has no infinite coordinate. Text boxes go to shoulder x ∓ 2 at depth position.x − 0.5 with no guard, showing the abduction angle. |
| ShoulderAbduction.ElbowMarkerVisibility | MM_unity/Assets/Scripts/ShoulderAbduction.cs:153-155 | Past the guard, an elbow marker is active iff elbow flexion·180/π exceeds 30. Without the guard, its flag is unchanged. |
| ViewBodyAngles.FindBoxes | MM_unity/Assets/Scripts/ViewBodyAngles.cs:140-150 | In a created body the two text boxes are found at indices 25 and 26. |
| ViewBodyAngles.CreateBody | MM_unity/Assets/Scripts/ViewBodyAngles.cs:82-107 | 25 joint markers in JointType order, then the "Spine angles" and "Right shoulder angles" boxes. |
| ViewBodyAngles.Points | MM_unity/Assets/Scripts/ViewBodyAngles.cs:116 | One screen point per joint. |
| ViewBodyAngles.PlaceTextBoxes | MM_unity/Assets/Scripts/ViewBodyAngles.cs:140-150 | The joint markers are unchanged. The spine box goes to the Head point at z − 0.5 with the truncated coronal and sagittal spine angles. The shoulder box goes to the ShoulderRight point with the truncated right flexion and abduction. |
| ViewBodyAngles.RefreshBodyObject | MM_unity/Assets/Scripts/ViewBodyAngles.cs:110-151 | The refresh keeps the id and the 27 named children. |
| ViewBodyAngles.RefreshBodyObjectEffect | MM_unity/Assets/Scripts/ViewBodyAngles.cs:110-151 | Joint marker jt moves to (x, y, position.z) with orientation jt when usable, else is untouched. The boxes are never moved by the loop, only placed after it. |
| HandTracker.CreateBody | MM_unity/Assets/Scripts/HandTracker.cs:87-108 | Child 0 is the right-hand marker (active = trackRightHand); child 1 is the left-hand marker (active = trackLeftHand). |
| HandTracker.RefreshBodyObject | MM_unity/Assets/Scripts/HandTracker.cs:111-146 | The refresh keeps the id and both named children. |
| HandTracker.RefreshBodyObjectEffect | MM_unity/Assets/Scripts/HandTracker.cs:111-146 | Both active flags are reset to the settings. Each marker moves to its hand's (x, y, position.z) only if the hand is tracked and the point is usable. Rotations and text are unchanged. |
| HandTracker.RefreshAll | MM_unity/Assets/Scripts/HandTracker.cs:111-146 | Any number of refreshes keeps the two-marker shape and the id. |
| HandTracker.UntrackedHandStill | MM_unity/Assets/Scripts/HandTracker.cs:121-145 | With trackLeftHand off, the left marker never moves, and it is inactive after the first refresh. |
| SimpleBodyTracker.CreateBody | MM_unity/Assets/Scripts/SimpleBodyTracker.cs:82-96 | 25 joint markers in JointType order. |
| SimpleBodyTracker.Points | MM_unity/Assets/Scripts/SimpleBodyTracker.cs:105 | One screen point per joint. |
| SimpleBodyTracker.RefreshBodyObject | MM_unity/Assets/Scripts/SimpleBodyTracker.cs:99-128 | The refresh keeps the id and the 25 joint markers. |
| SimpleBodyTracker.RefreshBodyObjectEffect | MM_unity/Assets/Scripts/SimpleBodyTracker.cs:99-128 | Marker jt moves to (x, y, position.z) with orientation jt unless a coordinate is ±infinity, in which case it is untouched. |
| BoxSkeleton.CreateBody | MM_unity/Assets/Scripts/BoxSkeleton.cs:78-93 | 25 joint markers in JointType order. |
| BoxSkeleton.Guards | MM_unity/Assets/Scripts/BoxSkeleton.cs:105-106 | The guard reads only x and y of each 3-D position. |
| BoxSkeleton.Scaled | MM_unity/Assets/Scripts/BoxSkeleton.cs:113 | Each position is multiplied by the scale. |
| BoxSkeleton.RefreshBodyObject | MM_unity/Assets/Scripts/BoxSkeleton.cs:95-119 | The refresh keeps the id and the 25 joint markers. |
| BoxSkeleton.RefreshBodyObjectEffect | MM_unity/Assets/Scripts/BoxSkeleton.cs:95-119 | Marker jt moves to position·scale with orientation jt unless x or y is ±infinity. z is not checked. |
| ArmRoutine.CreateBody | MM_unity/Assets/Scripts/ArmRoutine.cs:79-88 | An object with no children. |
| ArmRoutine.RefreshBodyObject | MM_unity/Assets/Scripts/ArmRoutine.cs:90-93 | The refresh changes nothing. |
| BodyRegistry.InitialBody | MM_unity/Assets/Scripts/ShoulderAbduction.cs:74-75 | Every script's `CreateBody` gives an object under the body's id with the script's children. |
| BodyRegistry.RefreshedBody | MM_unity/Assets/Scripts/ShoulderAbduction.cs:77 | Every script's refresh keeps the id and the script's children. |
| BodyRegistry.ScriptRoutine | MM_unity/Assets/Scripts/ShoulderAbduction.cs:68-79 | The frame loop's create, refresh and single-body flag are the script's. |
| BodyRegistry.TrackedIds | MM_unity/Assets/Scripts/ShoulderAbduction.cs:49-55 | An id is collected iff some non-null tracked body in the array carries it. |
| BodyRegistry.RemoveAbsent | MM_unity/Assets/Scripts/ShoulderAbduction.cs:58-66 | Exactly the tracked keys survive, with their objects unchanged. |
| BodyRegistry.Visit | MM_unity/Assets/Scripts/ShoulderAbduction.cs:72-77 | A visit adds exactly the body's id to the keys. |
| BodyRegistry.FirstTracked | MM_unity/Assets/Scripts/ShoulderAbduction.cs:68-79 | The index of the first tracked body, and −1 iff there is none. |
| BodyRegistry.VisitKeepsValid | MM_unity/Assets/Scripts/ShoulderAbduction.cs:72-77 | A visit keeps every object under its own id and shaped as the script creates it. |
| BodyRegistry.VisitAllKeepsValid | MM_unity/Assets/Scripts/ShoulderAbduction.cs:68-79 | The visiting loop keeps that invariant. |
| BodyRegistry.PassKeepsValid | MM_unity/Assets/Scripts/ShoulderAbduction.cs:35-81 | A whole frame keeps that invariant. |
| BodyRegistry.SingleBodyVisitsFirst | MM_unity/Assets/Scripts/ShoulderAbduction.cs:68-79 | With the `break`, the loop visits exactly the first tracked body, or none. |
| BodyRegistry.TrackedIdsFront | MM_unity/Assets/Scripts/SimpleBodyTracker.cs:48-55 | An id is tracked by the first body or by one of the rest. |
| BodyRegistry.AllBodiesVisitKeys | MM_unity/Assets/Scripts/SimpleBodyTracker.cs:67-78 | Without a `break`, the keys after the loop are the old keys plus every tracked id. |
| BodyRegistry.BodiesOf | MM_unity/Assets/Scripts/SimpleBodyTracker.cs:67-78 | The tracked bodies carrying an id, in array order. |
| BodyRegistry.AllBodiesVisitObjects | MM_unity/Assets/Scripts/SimpleBodyTracker.cs:67-78 | Without a `break`, each id's object is its existing object (or a new one only if the id has none), refreshed with each of its bodies in array order. Which ids get a new object is stated by `CreatedFresh` and `AllBodiesCreated`. |
| BodyRegistry.PassWithoutBodies | MM_unity/Assets/Scripts/ShoulderAbduction.cs:38-46 | A missing sensor, reader or body array changes nothing. |
| BodyRegistry.AllBodiesPassKeys | MM_unity/Assets/Scripts/SimpleBodyTracker.cs:48-78 | After the simple tracker's frame, the keys are exactly the tracked ids. |
| BodyRegistry.AllBodiesPassObjects | MM_unity/Assets/Scripts/SimpleBodyTracker.cs:73-76 | An id still tracked keeps its object, refreshed. That it is never recreated is stated on the create log by `PassLogs` and `AllBodiesPassCreated`. |
| BodyRegistry.SingleBodyPassKeys | MM_unity/Assets/Scripts/ShoulderAbduction.cs:49-79 | After a single-body frame, the keys are the still-tracked old keys plus the first tracked id, if any. At most one key is added. |
| BodyRegistry.SingleBodyPassObjects | MM_unity/Assets/Scripts/ShoulderAbduction.cs:68-79 | The first tracked body's object is its old one refreshed (created only if missing). Every other surviving object is unchanged. The create log is stated by `SingleBodyCreated`. |
| BodyRegistry.CreatedFresh | MM_unity/Assets/Scripts/ShoulderAbduction.cs:68-79 | The visiting loop instantiates objects only for tracked ids that had none, and never twice for one id. |
| BodyRegistry.AllBodiesCreated | MM_unity/Assets/Scripts/SimpleBodyTracker.cs:67-78 | Without a `break`, an object is instantiated for exactly the tracked ids that had none. |
| BodyRegistry.SingleBodyCreated | MM_unity/Assets/Scripts/ShoulderAbduction.cs:68-79 | With the `break`, at most one object is instantiated: the first tracked body's, when it had none. |
| BodyRegistry.VisitAllCreates | MM_unity/Assets/Scripts/ShoulderAbduction.cs:68-79 | After the visiting loop, an id has an object iff it had one before or the loop instantiated one. |
| BodyRegistry.PassLogs | MM_unity/Assets/Scripts/ShoulderAbduction.cs:57-79 | After a frame, an id has an object iff it kept its old one (it was not destroyed) or was created. A created id had no object before the frame, so a body tracked in both frames is never recreated. A destroyed id has no object afterwards. |
| BodyRegistry.AllBodiesPassCreated | MM_unity/Assets/Scripts/SimpleBodyTracker.cs:56-78 | The simple tracker's frame creates objects for exactly the tracked ids that had none in the previous frame. |
| BodyRegistry.CollectTrackedIds | MM_unity/Assets/Scripts/ShoulderAbduction.cs:48-55 | The collecting loop skips null entries and returns `TrackedIds`, in array order. |
| BodyRegistry.Registry.constructor | MM_unity/Assets/Scripts/ShoulderAbduction.cs:25 | The dictionary starts empty, and so do both logs. |
| BodyRegistry.Registry.CreateBody | MM_unity/Assets/Scripts/ViewBodyAngles.cs:82-107 | The joint-marker loop (plus the two boxes for the angles view) builds the script's `InitialBody`. |
| BodyRegistry.Registry.RefreshBodyObject | MM_unity/Assets/Scripts/SimpleBodyTracker.cs:99-128 | The conversions and the child loop (plus box placement for the angles view) give the script's `RefreshedBody`. |
| BodyRegistry.Registry.RemoveAbsentBodies | MM_unity/Assets/Scripts/ShoulderAbduction.cs:57-66 | The loop over the snapshot of keys leaves `RemoveAbsent` of the old dictionary. It logs a `Destroy` once for each old key that is not tracked, and for no other id. |
| BodyRegistry.Registry.DestroyBody | MM_unity/Assets/Scripts/ShoulderAbduction.cs:63-64 | Removes the id's entry and logs its destruction. |
| BodyRegistry.Registry.VisitBody | MM_unity/Assets/Scripts/ShoulderAbduction.cs:73-77 | Creates (and logs) an object only when the id has none, then refreshes it: the dictionary becomes `Visit` of the old one. |
| BodyRegistry.Registry.VisitBodies | MM_unity/Assets/Scripts/ShoulderAbduction.cs:68-79 | The visiting loop, with its `break` for single-body scripts, leaves `VisitAll` of the old dictionary and appends `Created` to the create log. |
| BodyRegistry.Registry.Update | MM_unity/Assets/Scripts/ShoulderAbduction.cs:35-81 | One frame leaves `Pass` of the old dictionary and keeps the dictionary valid. The create log grows by `PassCreated` and the destroy log by each id of `PassDestroyed` exactly once. |

## Left out

- Floating point is modelled on unbounded reals with IEEE infinities and NaN. There is no rounding, overflow to infinity or signed zero, and comparisons against NaN are false.
- `Vector3.Distance`, `Vector2.Angle`, `Mathf.Acos`, `magnitude`, `Mathf.Cos` and `Mathf.Sin` are opaque functions. Nothing is claimed about their values beyond non-negative distance where a lemma asks for it.
- The Kinect device (`SensorBody.cs`, `SensorRGB.cs`), texture display (`DisplayRGB.cs`) and collision logging (`HandMarker.cs`) are not part of this model.
- `CoordinateMapper.MapCameraPointsToColorSpace` is a foreign call. It is a function parameter of type `Mapper`, and the static mapper set by `SetMapper` (BodyAnalysis.cs:353-356) is passed as that parameter.
- Unity scene operations are modelled as values. `Instantiate` is a record copy, `Destroy` is removal from the dictionary, `transform.Find` is a search by name, and `SetActive` and `TextMesh.text` are record fields. Object identity, aliasing between objects and the parent hierarchy are not modelled: each body object is owned by one dictionary entry.
- Names are tags, not strings: a joint marker's name is its joint type, and a text box's text is a `Label` (the angle, or the truncated angles) rather than the formatted string that `ToString` would produce.
- `Time.deltaTime` is a parameter of `Update`.
- The Unity lifecycle is a precondition: `AbductionMove.Update` requires `Start` to have run.
- The removal loop visits the dictionary's keys in an unspecified order. The result does not depend on the order.
- BodyRegistry.ScriptRoutine: a refresh of a body without all 25 joints, or of an object not shaped as the script creates it, is the identity. The registry never makes such a call: the feed's bodies are well formed and the dictionary invariant keeps objects shaped.
- BoxSkeleton.RefreshBodyObject: `BoxSkeleton.cs` calls `convertToUnityPosition` and `convertToUnityOrientation` on the sensor component, which does not define them. The model uses the `BodyAnalysis` conversions.
- Abduction.Step: the exercise state is exact reals, with no infinities or NaN. An infinite `speed` times a zero `Time.deltaTime` makes the angle NaN at AbductionMove.cs:81, and then the bound test at :82 never holds and no reversal is ever counted; the model does not capture that.
- Abduction.AbductionMove.Start: the degree-to-radian conversion is exact real arithmetic, `deg · PI / 180`, with `PI` the value of the single-precision `Mathf.PI` (3.14159274); the float rounding of the product is not modelled.

## Findings

| source | as written | input that shows it | evidently intended | confidence | as-written member | corrected member |
|---|---|---|---|---|---|---|
| MM_unity/Assets/Scripts/BodyAnalysis.cs:51-54 | Both branches of the leg selection compute the left leg's length, so the 3-D height always uses the left leg. | A body whose right leg has 4 tracked joints and whose left leg has 0: the rule selects the right leg, but the left leg is added. | Use the right leg unless the left has strictly more tracked joints, as the screen-space height does (BodyAnalysis.cs:386-391). | not executed | BodyAnalysis.ComputeBodyHeightAlwaysLeft | BodyAnalysis.HeightSelectsLeg |
| MM_unity/Assets/Scripts/BodyAnalysis.cs:225-229 | The "leg" abduction vector is ShoulderX − ElbowX, so it equals the shoulder abduction angle on the same side. | Any body whose hip and knee move while the shoulder and elbow stay put: the angle does not change. | The vector from the hip to the knee. | not executed | BodyAnalysis.AbductionLegAngleIsShoulderAngle | BodyAnalysis.AbductionLegAngleCorrectedFrontal |
| MM_unity/Assets/Scripts/BodyAnalysis.cs:313 | The 3-D leg vector is passed to the 2-D angle, which keeps (x,y), so the sagittal flexion reads the frontal plane; the (z,y) vector built for it is unused. | Two bodies with equal hip and knee (x,y) but different z: the same flexion as written. | Measure in the (z,y) plane, as the shoulder flexion does (BodyAnalysis.cs:245-262). | not executed | BodyAnalysis.FlexionLegAngleIgnoresDepth | BodyAnalysis.FlexionLegAngleCorrectedSagittal |
| MM_unity/Assets/Scripts/AbductionMove.cs:82-86 | The reversal test only asks whether the angle is outside [min, max], not which way it is moving. | minAngle 0, maxAngle 1, speed 1, angle 0.95, dAngle +0.1, 4 reversals left; frames of 1.0 s then 0.2 s: the first ends at 1.05 and reverses, the second ends at 1.03, still above the maximum, and reverses again (2 left, heading up). | Reverse only when the angle has passed the bound it was moving towards. | not executed | Abduction.InwardFrameOutsideReverses | Abduction.StepCorrectedTurnsInward |
| MM_unity/Assets/Scripts/AbductionMove.cs:60-62 | The moving marker is placed at (radius·cos, radius·sin) in world coordinates, both in `Start` and in `Update` (lines 88-90), while the component and the pivot marker stand at the pivot joint (line 48, 68). | pivotJointPosition (2, 0, 0), radius 1, angle 0: the pivot marker is at (2, 0) and the moving marker at (1, 0), one unit from the pivot only by chance; with pivot (5, 0, 0) it is four units away. | The marker circles the pivot: pivot + (radius·cos, radius·sin). | not executed | Abduction.MarkerIgnoresPivot | Abduction.AroundPivotOffset |
