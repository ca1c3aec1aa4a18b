# Procedural locomotion scripts, modelled in Dafny

This project models the C# Unity scripts that animate a procedurally walking
character:

- **AnimsManager.** Keeps a cursor over a list of animations. The comma key steps it back, the period key steps it forward, and it wraps at both ends.
- **WalkAnimsManager.** Picks the (previous, next) animation pair for a blender. It picks from the player's input speed against a walk threshold. A key-driven test mode it has is disabled.
- **MoverControls, MoverControls2 and MoverControlsWithTransition.** Three revisions of the procedural mover. Each frame it adds clamped sine and cosine waves and animation-curve values to the captured start pose of every mover object, and writes the result as local positions and rotations.
  - The later revisions also move the character's root along its forward axis and scale the z of the leg and arm controllers by the step distance.
  - The third revision first computes a first-frame target for every object. It caches that target per object and lerps every object towards it over five seconds. Update stays blocked while this runs.
- **LimbIKSolver.** The position half of a two-bone IK solve. It places the tip, a midline point, a hint (pole) point and the joint.
- **PointCalculator.** Spaces a row of child points evenly between two objects.

Each script is a module. A script's component is a `class` whose fields are the component's fields. The scene objects it writes are `Scene.GameObject` instances, which keep only their local position and rotation. The `MoveData` asset the later mover revisions read and write is a `MoverCore.MoveData` instance.

Every loop of the scripts is a `while` or `for` loop carrying invariants. Each method is proved against a specification function, and lemmas state what those functions mean:

- the wrap-around of the cursors;
- clamping windows;
- the angle mapping as a clamp plus a shift;
- what the last write to an object listed twice is;
- how the target cache resolves repeated objects;
- the termination of the transition;
- the spacing of the calculated points;
- full reach of the clamped IK tip.

Floats are modelled as reals. The engine's Time.deltaTime, the input system, the transforms' world axes, and the transcendental and quaternion functions are parameters: Mathf.Sin, Mathf.Cos, magnitude, Vector3.Angle, Quaternion.Euler, eulerAngles and Slerp travel in a `UnityMath.UnityLib` record of uninterpreted functions. Mathf.Lerp, Mathf.InverseLerp, Vector3.Lerp, Vector3.normalized and Vector3.Distance are written out as Unity defines them.

Files:

| file | models |
|---|---|
| `wrappers.dfy` | Option |
| `unity_math.dfy` | vectors, quaternions as records, Lerp, InverseLerp, normalized |
| `scene.dfy` | GameObject, and `LastWrite`, the value an object holds after a loop wrote a sequence of objects |
| `mover_core.dfy` | the MoveData asset and the per-axis kernel shared by the three mover revisions |
| `anims_manager.dfy`, `walk_anims_manager.dfy`, `limb_ik_solver.dfy`, `point_calculator.dfy`, `mover_controls.dfy`, `mover_controls2.dfy`, `mover_controls_with_transition.dfy` | one script each |

## Model

| member | source | states |
|---|---|---|
| AnimsManager.CycleIndex | Assets/Scripts/AnimsManager.cs:22-28 | a valid cursor stays in range; no key or both keys keep it; next on the last animation wraps to 0; previous on the first wraps to the last |
| AnimsManager.CycleIndexIsModular | Assets/Scripts/AnimsManager.cs:22-28 | the two wrap rules amount to stepping by the key delta modulo the number of animations |
| AnimsManager.AnimsManager.Awake | Assets/Scripts/AnimsManager.cs:12-16 | the cursor starts at 0 on the first animation (an empty array is excluded, as it throws in the source) |
| AnimsManager.AnimsManager.Update | Assets/Scripts/AnimsManager.cs:17-32 | the cursor moves as CycleIndex says, stays in range, and the current animation is the one under it |
| WalkAnimsManager.WalkAnimsManager.Awake | Assets/Scripts/WalkAnimsManager.cs:21-42 | idle, walk and jog are the first three animations; the pair starts as (first, second); both flags start false |
| WalkAnimsManager.WalkAnimsManager.Update | Assets/Scripts/WalkAnimsManager.cs:43-47 | only the input check runs: below the threshold the pair is (idle, walk), otherwise (walk, jog); the cursor and flags are untouched |
| WalkAnimsManager.WalkAnimsManager.AnimCycleCheck | Assets/Scripts/WalkAnimsManager.cs:48-72 | the transition flag is set exactly when a key was pressed; then previous takes the old next; the changed flag ends false; the cursor moves as CycleIndex says and next follows it |
| WalkAnimsManager.WalkAnimsManager.InputTransitionsCheck | Assets/Scripts/WalkAnimsManager.cs:73-88 | below the threshold (idle, walk), at or above it (walk, jog); either way next is the animation right after previous; nothing else changes |
| UnityMath.Normalized | Assets/Scripts/LimbIKSolver.cs:65-66 | too short a vector normalises to zero; otherwise the result has magnitude 1 |
| UnityMath.Lerp | Assets/Scripts/MoverControls.cs:171 | the result lies between the endpoints, is the first at t <= 0 and the second at t >= 1 |
| UnityMath.InverseLerp | Assets/Scripts/LimbIKSolver.cs:91 | the result lies in [0, 1] and is 0 for equal endpoints, 0 at the first endpoint and 1 at the second |
| UnityMath.LerpVec | Assets/Scripts/LimbIKSolver.cs:93 | the point is the first endpoint at t <= 0, the second at t >= 1, and a + t (b - a) for t in [0, 1] |
| Scene.Apply | Assets/Scripts/MoverControls.cs:187-196 | a present position or rotation replaces the object's; an absent one keeps it |
| Scene.LastWriteUntouched | Assets/Scripts/MoverControls.cs:82-197 | an object a loop never writes keeps its value |
| Scene.LastWriteDistinct | Assets/Scripts/MoverControls.cs:82-197 | when every object is listed once, object k ends with its own write, or keeps its value |
| Scene.LastWriteAllPresent | Assets/Scripts/MoverControlsWithTransition.cs:463-467 | when every entry writes, an object ends with the write of its last listing |
| Scene.LastWriteSameValue | Assets/Scripts/MoverControlsWithTransition.cs:430-445 | writing an object only the value it already holds leaves it as it was |
| Scene.LastListingExists | Assets/Scripts/MoverControlsWithTransition.cs:463-467 | every listed object has a last listing |
| MoverCore.MoveData.constructor | Assets/Scripts/MoveData.cs:59-60 | the asset holds the given speed, settings and entries |
| MoverCore.SineValue | Assets/Scripts/MoverControls2.cs:237-240 | with sin in [-1, 1] and a non-negative amplitude, the wave stays within amplitude of the return offset |
| MoverCore.CosineValue | Assets/Scripts/MoverControls2.cs:241-244 | the same bound for the cosine wave |
| MoverCore.ClampSequential | Assets/Scripts/MoverControls2.cs:129-149 | raising to min and then lowering to max lands in [min, max] when min <= max, and gives max when min > max; a value inside is kept; each side clamps to its bound |
| MoverCore.ClampedSine | Assets/Scripts/MoverControls2.cs:125-136 | the clamped sine term lies in [clampMin, clampMax] |
| MoverCore.ClampedCosine | Assets/Scripts/MoverControls2.cs:138-149 | the clamped cosine term lies in [clampMin, clampMax] |
| MoverCore.AdvanceMoverTime | Assets/Scripts/MoverControls2.cs:72-73 | the phase stays below 2 pi and is non-negative for non-negative inputs; it advances by dt * speed, or resets to 0 (dropping the overshoot) once it reaches 2 pi |
| MoverCore.LerpTimer | Assets/Scripts/MoverControls2.cs:74 | the curve parameter lies in [0, 1] and is 0 at phase 0 |
| MoverCore.RootMoveDistance | Assets/Scripts/MoverControls2.cs:78-79 | a frozen root moves 0; otherwise the distance is non-negative for non-negative inputs |
| MoverCore.Translate | Assets/Scripts/MoverControls2.cs:80 | the root moves along forward by the distance; its rotation is kept |
| MoverCore.ScaledZ | Assets/Scripts/MoverControls2.cs:225-234 | x and y are kept, and the identity scaling changes nothing |
| MoverCore.MappedAngle | Assets/Scripts/MoverControls2.cs:199-215 | for a non-negative amplitude the angle lies in [initial - amplitude + offset, initial + amplitude + offset] |
| MoverCore.MappedAngleIsClampedShift | Assets/Scripts/MoverControls2.cs:199-215 | the InverseLerp/Lerp mapping is the initial angle plus the value clamped to [offset - amplitude, offset + amplitude] |
| MoverControls.CurveLerpTerm | Assets/Scripts/MoverControls.cs:170-171 | the curve term lies between the clamp bounds, at clampMin for curve values <= 0 and at clampMax for values >= 1 |
| MoverControls.AxisTermsBounds | Assets/Scripts/MoverControls.cs:123-185 | the added total lies between clampMin and clampMax, each times the number of enabled terms |
| MoverControls.RotationIsCapturedPlusTerms | Assets/Scripts/MoverControls.cs:159-195 | with the rotation moved, each angle is the captured component plus 180 times the added terms (the / 180 and * 180 cancel) |
| MoverControls.RotationBaseOverridesPosition | Assets/Scripts/MoverControls.cs:153-188 | with both flags set, the rotation base replaces the position base: the written position ignores the captured position |
| MoverControls.ComposeAxis | Assets/Scripts/MoverControls.cs:123-185 | one axis of the loop body computes its base plus the enabled terms |
| MoverControls.EvaluateObject | Assets/Scripts/MoverControls.cs:84-196 | the loop body computes exactly PositionWrite and RotationWrite of the entry |
| MoverControls.PositionWrites | Assets/Scripts/MoverControls.cs:82-197 | one position write per entry |
| MoverControls.RotationWrites | Assets/Scripts/MoverControls.cs:82-197 | one rotation write per entry |
| MoverControls.UnmovedPositionKept | Assets/Scripts/MoverControls.cs:187-188 | an object none of whose entries moves its position keeps its local position through Update |
| MoverControls.MoverControls.constructor | Assets/Scripts/MoverControls.cs:57-59 | the component holds its speed, objects and entries, with moverTime 0 |
| MoverControls.MoverControls.Start | Assets/Scripts/MoverControls.cs:61-74 | every entry captures its object's local position and the x, y and z of its local rotation quaternion, and nothing else in it changes |
| MoverControls.MoverControls.Update | Assets/Scripts/MoverControls.cs:76-198 | the phase advances as AdvanceMoverTime says; every object ends with the last of its entries' position and rotation writes, or keeps its value |
| MoverControls.MoverControls.WriteObjects | Assets/Scripts/MoverControls.cs:82-197 | the loop writes every entry in order; the last write to an object wins |
| MoverControls2.FlagsSwitchTerms | Assets/Scripts/MoverControls2.cs:173-192 | each flag adds exactly its own term: the clamped sine, the clamped cosine or the raw curve value |
| MoverControls2.PositionIgnoresRotation | Assets/Scripts/MoverControls2.cs:151-195 | the position write depends neither on the rotation flag nor on the captured angles |
| MoverControls2.RotationAnglesInWindow | Assets/Scripts/MoverControls2.cs:197-217 | each angle lies in its axis' window and is the captured angle plus the composed value clamped to [offset - amplitude, offset + amplitude] |
| MoverControls2.ComposeAxis | Assets/Scripts/MoverControls2.cs:125-192 | one axis of the loop body computes its base plus the enabled terms |
| MoverControls2.EvaluateObject | Assets/Scripts/MoverControls2.cs:84-221 | the loop body computes exactly PositionWrite and RotationWrite of the entry |
| MoverControls2.PositionWrites | Assets/Scripts/MoverControls2.cs:82-222 | one position write per entry |
| MoverControls2.RotationWrites | Assets/Scripts/MoverControls2.cs:82-222 | one rotation write per entry |
| MoverControls2.Processed | Assets/Scripts/MoverControls2.cs:82-86 | the loop gets through all entries, or only as many as there are mover objects when the asset lists more |
| MoverControls2.StepControllerScaled | Assets/Scripts/MoverControls2.cs:225-234 | a step controller the loop does not write keeps x and y and gets z * stepDistance + stepDistance / 2 |
| MoverControls2.UntouchedKept | Assets/Scripts/MoverControls2.cs:70-235 | a frozen or untouched root, and any object Update does not write, keeps its position |
| MoverControls2.WriteObjects | Assets/Scripts/MoverControls2.cs:82-222 | the loop stops, with completed false, exactly when there are more entries than objects; each object ends with the last write of the entries processed |
| MoverControls2.ScaleSteps | Assets/Scripts/MoverControls2.cs:225-234 | both controllers are read before either is written; each gets z * stepDistance + stepDistance / 2; rotations are kept |
| MoverControls2.Frame | Assets/Scripts/MoverControls2.cs:77-234 | root moved, then the loop's writes, then (when the loop got through) the step scaling, for the movers, the root and both controllers; the root and the controllers keep their rotations unless they are also mover objects |
| MoverControls2.MoverControls2.constructor | Assets/Scripts/MoverControls2.cs:6-20 | the component holds its references and settings, with moverTime 0 |
| MoverControls2.MoverControls2.Start | Assets/Scripts/MoverControls2.cs:22-48 | with one entry per mover object every entry captures its object's local position and Euler angles and the settings are copied; otherwise (the mismatch is only logged) nothing changes |
| MoverControls2.MoverControls2.MoveDataUpdates | Assets/Scripts/MoverControls2.cs:58-68 | the speed, step and freeze settings are taken from the asset again |
| MoverControls2.MoverControls2.Update | Assets/Scripts/MoverControls2.cs:70-235 | the phase advances as AdvanceMoverTime says, and root, movers and step controllers end where UpdatedPosition says; completed says whether the loop got through; the root and the step controllers keep their rotations unless they are also mover objects |
| MoverControlsWithTransition.MatchesSecondRevisionWithoutCosine | Assets/Scripts/MoverControlsWithTransition.cs:271-386 | Update's evaluation writes what the second revision writes for the entry with its cosine flags cleared |
| MoverControlsWithTransition.RotationAnglesInWindow | Assets/Scripts/MoverControlsWithTransition.cs:364-386 | each angle lies in its axis' window [initial - amplitude + offset, initial + amplitude + offset] |
| MoverControlsWithTransition.ComposeAxis | Assets/Scripts/MoverControlsWithTransition.cs:310-357 | one axis of the loop body computes its base plus the enabled sine and curve terms |
| MoverControlsWithTransition.EvaluateObject | Assets/Scripts/MoverControlsWithTransition.cs:273-386 | the loop body computes exactly PositionWrite and RotationWrite of the entry |
| MoverControlsWithTransition.PositionWrites | Assets/Scripts/MoverControlsWithTransition.cs:271-387 | one position write per entry |
| MoverControlsWithTransition.RotationWrites | Assets/Scripts/MoverControlsWithTransition.cs:271-387 | one rotation write per entry |
| MoverControlsWithTransition.FirstFrameSine | Assets/Scripts/MoverControlsWithTransition.cs:409-412 | the time-0 sine stays within amplitude of the return offset |
| MoverControlsWithTransition.FirstFrameValue | Assets/Scripts/MoverControlsWithTransition.cs:103-127 | a first-frame target value lies in [clampMin, clampMax], or is clampMax when the bounds are crossed |
| MoverControlsWithTransition.FirstFramePosition | Assets/Scripts/MoverControlsWithTransition.cs:101-129 | each axis of the target position lies in that axis' clamp window |
| MoverControlsWithTransition.FirstFrameAngles | Assets/Scripts/MoverControlsWithTransition.cs:164-192 | each target angle lies in its own axis' clamp window |
| MoverControlsWithTransition.AnglesIgnoreOwnWaves | Assets/Scripts/MoverControlsWithTransition.cs:174-181 | the y and z target angles use the X axis' wave and curve: the Y and Z waves and curves play no part |
| MoverControlsWithTransition.FirstFrameTargetBelowUpdateWrite | Assets/Scripts/MoverControlsWithTransition.cs:103-129 | Start clamps the captured value plus the terms, Update (lines 314-361) only the sine: for a sine-only axis whose captured value exceeds the width of its clamp window, the target lies at least that excess below every position Update writes afterwards |
| MoverControlsWithTransition.LocalPositions | Assets/Scripts/MoverControlsWithTransition.cs:89 | one local position per mover object |
| MoverControlsWithTransition.LocalRotations | Assets/Scripts/MoverControlsWithTransition.cs:153 | one local rotation per mover object |
| MoverControlsWithTransition.PositionRequests | Assets/Scripts/MoverControlsWithTransition.cs:95-134 | one position request per entry |
| MoverControlsWithTransition.OrientationRequests | Assets/Scripts/MoverControlsWithTransition.cs:159-197 | one orientation request per entry |
| MoverControlsWithTransition.Targets | Assets/Scripts/MoverControlsWithTransition.cs:50-218 | one target per entry resolved so far |
| MoverControlsWithTransition.TargetsStep | Assets/Scripts/MoverControlsWithTransition.cs:95-148 | one more entry appends the target it resolves to and moves on to its cache |
| MoverControlsWithTransition.TargetsPrefix | Assets/Scripts/MoverControlsWithTransition.cs:214-217 | later entries do not change earlier targets |
| MoverControlsWithTransition.TargetsConsistent | Assets/Scripts/MoverControlsWithTransition.cs:132-133 | the flag and the stored target are set together, so both dictionaries keep the same keys |
| MoverControlsWithTransition.MissingNeverUsed | Assets/Scripts/MoverControlsWithTransition.cs:142-147 | from consistent dictionaries the "target not found" default never matters |
| MoverControlsWithTransition.FirstMover | Assets/Scripts/MoverControlsWithTransition.cs:97-134 | the first entry listing the object and moving the value, when there is one, and none before it does |
| MoverControlsWithTransition.CacheAfter | Assets/Scripts/MoverControlsWithTransition.cs:97-148 | from empty dictionaries an object is cached exactly when some entry so far lists it and moves the value, with the first such entry's target stored |
| MoverControlsWithTransition.TargetAt | Assets/Scripts/MoverControlsWithTransition.cs:97-148 | entry k's target is the first earlier moving entry's computed target, or else its own |
| MoverControlsWithTransition.DistinctOwnTargets | Assets/Scripts/MoverControlsWithTransition.cs:97-148 | with every object listed once, each entry gets its own target, cached exactly when it moves the value |
| MoverControlsWithTransition.RepeatedListingSharesTarget | Assets/Scripts/MoverControlsWithTransition.cs:136-141 | an object listed again after an entry that moved it gets that entry's target, whatever its own parameters say |
| MoverControlsWithTransition.FirstFrameAxis | Assets/Scripts/MoverControlsWithTransition.cs:107-127 | one axis of the first-frame computation equals FirstFrameValue |
| MoverControlsWithTransition.TargetPosition | Assets/Scripts/MoverControlsWithTransition.cs:95-148 | the target position and updated dictionaries are CachedTarget of the entry's position request, with zero for a missing stored target |
| MoverControlsWithTransition.TargetOrientation | Assets/Scripts/MoverControlsWithTransition.cs:159-211 | the same for the orientation, with the identity for a missing stored target |
| MoverControlsWithTransition.PositionStep | Assets/Scripts/MoverControlsWithTransition.cs:95-148 | entry i's target position extends the targets of the entries before it |
| MoverControlsWithTransition.OrientationStep | Assets/Scripts/MoverControlsWithTransition.cs:159-211 | entry i's target orientation extends the targets of the entries before it |
| MoverControlsWithTransition.CaptureEntry | Assets/Scripts/MoverControlsWithTransition.cs:88-92 | entry i captures the local position and the x, y and z of the local rotation; the asset's settings are kept |
| MoverControlsWithTransition.CaptureAll | Assets/Scripts/MoverControlsWithTransition.cs:50-156 | every entry captures its object's start values, which are returned in order |
| MoverControlsWithTransition.ResolveTargets | Assets/Scripts/MoverControlsWithTransition.cs:95-217 | the targets and dictionaries are those Targets gives for all entries |
| MoverControlsWithTransition.LerpWrites | Assets/Scripts/MoverControlsWithTransition.cs:432 | one lerped position per object |
| MoverControlsWithTransition.SlerpWrites | Assets/Scripts/MoverControlsWithTransition.cs:433 | one slerped orientation per object |
| MoverControlsWithTransition.AllWritten | Assets/Scripts/MoverControlsWithTransition.cs:463-467 | one write per target |
| MoverControlsWithTransition.FirstTransitionFrameKeepsPositions | Assets/Scripts/MoverControlsWithTransition.cs:432-444 | at fraction 0 every object is lerped onto its own start, so positions whose start is the current one do not move |
| MoverControlsWithTransition.StartKeepsPosition | Assets/Scripts/MoverControlsWithTransition.cs:214-220 | the transition's first frame, run by Start, leaves every position where it was |
| MoverControlsWithTransition.TransitionWrites | Assets/Scripts/MoverControlsWithTransition.cs:430-456 | every object gets the lerp and slerp of its start and target at the fraction; the last write to an object wins |
| MoverControlsWithTransition.SnapToTargets | Assets/Scripts/MoverControlsWithTransition.cs:462-467 | every object ends on the targets of its last listing |
| MoverControlsWithTransition.Resume | Assets/Scripts/MoverControlsWithTransition.cs:428-469 | a finished clock stays; with time left it adds dt and keeps running; with time up the transition ends |
| MoverControlsWithTransition.TransitionEnds | Assets/Scripts/MoverControlsWithTransition.cs:428-469 | once the elapsed time plus the delta times of all resumptions but the last reaches five seconds, the last resumption has ended the transition |
| MoverControlsWithTransition.NotTransitioningStays | Assets/Scripts/MoverControlsWithTransition.cs:416-420 | a clock that is not transitioning stays unchanged |
| MoverControlsWithTransition.TransitionRunsUntilTimeUp | Assets/Scripts/MoverControlsWithTransition.cs:428-459 | while the elapsed time stays below five seconds the transition keeps running and has added every delta time |
| MoverControlsWithTransition.ResumeAsWritten | Assets/Scripts/MoverControlsWithTransition.cs:428-459 | a dead coroutine stays dead |
| MoverControlsWithTransition.AsWrittenNeverEnds | Assets/Scripts/MoverControlsWithTransition.cs:435-438 | with one or two mover objects the coroutine as written dies in its debug log and the transition never ends |
| MoverControlsWithTransition.AsWrittenAgreesOtherwise | Assets/Scripts/MoverControlsWithTransition.cs:428-469 | with zero or at least three mover objects the coroutine as written keeps the corrected clock |
| MoverControlsWithTransition.ControllerScaled | Assets/Scripts/MoverControlsWithTransition.cs:389-406 | x and y are kept; z is multiplied by the step distance once per role (step, arm); other objects are not changed |
| MoverControlsWithTransition.ScalePair | Assets/Scripts/MoverControlsWithTransition.cs:390-397 | both controllers of a pair are read, then both get z times the step distance |
| MoverControlsWithTransition.ScaleControllers | Assets/Scripts/MoverControlsWithTransition.cs:389-406 | the step pair and then the arm pair are scaled, as ControllerPosition says; rotations are kept |
| MoverControlsWithTransition.ControllerUpdated | Assets/Scripts/MoverControlsWithTransition.cs:389-406 | a controller the loop does not write keeps x and y and has z multiplied by the step distance, once per role |
| MoverControlsWithTransition.UntouchedKept | Assets/Scripts/MoverControlsWithTransition.cs:251-407 | a frozen or untouched root, and any object Update does not write, keeps its position |
| MoverControlsWithTransition.WriteObjects | Assets/Scripts/MoverControlsWithTransition.cs:271-387 | the loop stops, with completed false, exactly when there are more entries than objects; each object ends with the last write of the entries processed |
| MoverControlsWithTransition.Frame | Assets/Scripts/MoverControlsWithTransition.cs:266-406 | root moved, then the loop's writes, then (when the loop got through) the step and arm scaling; the root and the four controllers keep their rotations unless they are also mover objects |
| MoverControlsWithTransition.MoverControlsWithTransition.constructor | Assets/Scripts/MoverControlsWithTransition.cs:9-36 | the component holds its references, empty dictionaries and no transition |
| MoverControlsWithTransition.MoverControlsWithTransition.Transition | Assets/Scripts/MoverControlsWithTransition.cs:414-425 | an already running transition is left alone; otherwise it starts, writes its fraction-0 frame and has elapsed dt |
| MoverControlsWithTransition.MoverControlsWithTransition.TransitionFrame | Assets/Scripts/MoverControlsWithTransition.cs:428-469 | one resumption of the corrected coroutine (the corrected half of the Findings row): the clock moves as Resume says and the objects get the lerp frame, or, with the time up, their targets |
| MoverControlsWithTransition.MoverControlsWithTransition.Store | Assets/Scripts/MoverControlsWithTransition.cs:214-224 | the four lists, the dictionaries and the settings take the given values |
| MoverControlsWithTransition.MoverControlsWithTransition.PrepareTargets | Assets/Scripts/MoverControlsWithTransition.cs:45-218 | the entries capture their objects' start values, and the lists and dictionaries hold the targets Resolved gives |
| MoverControlsWithTransition.MoverControlsWithTransition.StartMatched | Assets/Scripts/MoverControlsWithTransition.cs:42-224 | targets prepared, then the transition starts: positions stay put and rotations get the fraction-0 slerp |
| MoverControlsWithTransition.MoverControlsWithTransition.Start | Assets/Scripts/MoverControlsWithTransition.cs:39-230 | with one entry per object, as StartMatched; otherwise (the mismatch is only logged) nothing changes |
| MoverControlsWithTransition.MoverControlsWithTransition.MoveDataUpdates | Assets/Scripts/MoverControlsWithTransition.cs:239-249 | the speed, step and freeze settings are taken from the asset again |
| MoverControlsWithTransition.MoverControlsWithTransition.Animate | Assets/Scripts/MoverControlsWithTransition.cs:260-406 | Update past its early return: the phase advances as AdvanceMoverTime says, root, movers and the four controllers end where UpdatedPosition says, and the root and controllers keep their rotations unless they are also mover objects |
| MoverControlsWithTransition.MoverControlsWithTransition.Update | Assets/Scripts/MoverControlsWithTransition.cs:251-407 | nothing changes while a transition runs; otherwise the phase advances and root, movers and the four controllers end where UpdatedPosition says; otherwise the root and the four controllers keep their rotations unless they are also mover objects |
| LimbIKSolver.TipPosition | Assets/Scripts/LimbIKSolver.cs:123-144 | a stretchy limb, or a target within reach, puts the tip on the target |
| LimbIKSolver.ClampedTipAtFullReach | Assets/Scripts/LimbIKSolver.cs:136-140 | a rigid limb aimed out of reach puts the tip exactly segment1 + segment2 from the root, on the ray towards the target |
| LimbIKSolver.DistanceToMidPointBound | Assets/Scripts/LimbIKSolver.cs:73 | the adjacent side cos(theta) * segment1 is never longer than segment1 |
| LimbIKSolver.MidLinePointOnRootTipLine | Assets/Scripts/LimbIKSolver.cs:65-75 | the midline point lies on the root-tip line, at distanceToMidPoint over the root-tip distance |
| LimbIKSolver.MidLinePointDistance | Assets/Scripts/LimbIKSolver.cs:65-75 | the midline point is abs(distanceToMidPoint) from the root, hence at most segment1 away |
| LimbIKSolver.HintAtSegment1 | Assets/Scripts/LimbIKSolver.cs:85-86 | for a unit forward axis the hint is exactly segment1 from the midline point |
| LimbIKSolver.JointParameter | Assets/Scripts/LimbIKSolver.cs:90-91 | t lies in [0, 1], is 1 with the tip on the midline point and 0 once it is segment2 away |
| LimbIKSolver.JointPosition | Assets/Scripts/LimbIKSolver.cs:93 | the joint is the midline point plus t times the midline-to-hint offset: the midline point at t = 0, the hint at t = 1 |
| LimbIKSolver.LimbIKSolver.Start | Assets/Scripts/LimbIKSolver.cs:36-44 | the two segment lengths are the bind-pose distances |
| LimbIKSolver.LimbIKSolver.PositionTipBone | Assets/Scripts/LimbIKSolver.cs:123-144 | the tip is where TipPosition says |
| LimbIKSolver.LimbIKSolver.Update | Assets/Scripts/LimbIKSolver.cs:45-93 | tip, midline point (from the joint where the last frame left it), hint and joint, in that order, as the functions above say |
| PointCalculator.ChildPosition | Assets/Scripts/PointCalculator.cs:34-41 | the first child sits on the start |
| PointCalculator.DirectionIsUnit | Assets/Scripts/PointCalculator.cs:35 | for a segment long enough to normalise, the direction is the unit vector from start to end |
| PointCalculator.ChildAtFraction | Assets/Scripts/PointCalculator.cs:34-41 | child i sits exactly i/n of the way from start to end |
| PointCalculator.ChildSpacing | Assets/Scripts/PointCalculator.cs:36-41 | consecutive children are length / n apart |
| PointCalculator.ChildDistanceFromStart | Assets/Scripts/PointCalculator.cs:36-41 | child i is i * length / n from the start, less than the whole length |
| PointCalculator.ChildNeverAtEnd | Assets/Scripts/PointCalculator.cs:38-43 | no child sits on the end object when start and end differ: the last one is a step short |
| PointCalculator.PointCalculator.Start | Assets/Scripts/PointCalculator.cs:16-20 | the count is the number of children, and the first layout, from the unset (zero) ends, puts every child at zero |
| PointCalculator.PointCalculator.Update | Assets/Scripts/PointCalculator.cs:22-26 | the ends are read, then every child is where ChildPosition says |
| PointCalculator.PointCalculator.CalculatePointsPositions | Assets/Scripts/PointCalculator.cs:30-44 | every child is where ChildPosition says |

## Left out

- Orientation math. Quaternion.FromToRotation, the bones' OrientYLookat steps (LimbIKSolver.cs lines 78-81 and 95-107) and PointCalculator's OrientChildObjects (lines 46-57) are not modelled. Quaternion algebra is uninterpreted here. The forward axis of the oriented midline object is an input of LimbIKSolver.LimbIKSolver.Update.
- World and local space. The root's and the IK bones' world positions are kept as plain vectors. Transform hierarchies are not modelled: the root's local position stands for its world position.
- Debug logging. Debug.Log and Debug.LogError are not modelled. The one exception is the log that reads `moverObjects[2]` (see Findings).
- Component events. OnEnable and OnDisable only subscribe MoveDataUpdates to the asset's updated event, and MoveData's OnEnable and OnValidate only create or fire that event. The event plumbing is not modelled: MoveDataUpdates is a method that can be called at any time.
- MoveData field names. The asset's `ObjectParameters` is modelled with the fields the mover scripts read: `xLocalPosition` and `xLocalAngle` in the later revisions, and the cosine flags. The MoveData.cs text names some of these fields differently, lacks `stepDistance` and `freezePosition`, and the third revision reads flags named `x_Sine` and `x_AnimCurve`. A single record (`MoverCore.ObjectParams`) serves all three revisions.
- Entry aliasing. `ObjectParameters` is a class in the source, so two entries could be one object. The model keeps the entries as values in a sequence.
- Floats. 32-bit float rounding is not modelled. All arithmetic is over reals, and Mathf.PI is the float value 3.14159274.
- Index errors. In the later revisions Update throws an index error when the asset lists more entries than there are mover objects. The model stops the loop there and returns `completed == false`. The step controllers are not scaled in that case, as when the exception ends the Update.
- Empty animation lists. The animation managers' Awake would throw on arrays that are too short. Their constructors require at least one (or three) animations instead.
- MoverControlsWithTransition.MoverControlsWithTransition.Start: requires that no transition is running yet. Unity calls Start once, before any Update, so this always holds in the source.
- MoverControlsWithTransition.MoverControlsWithTransition.PrepareTargets: Start's single loop is modelled in two passes with the same end state. CaptureAll writes the entries, and ResolveTargets computes the targets. The target computation never reads the fields the capture writes.
- MoverControlsWithTransition.MoverControlsWithTransition.StartMatched: stores the settings before the coroutine's first frame, where the source starts the coroutine first (line 220). The frame does not read the settings, so the end state is the same.
- The transition's arrays. The four arrays (`currentPosition`, `targetPosition`, `currentOrientation`, `targetOrientation`) are sequence fields written whole once by Start, so element-wise update and aliasing are not modelled. The coroutine reads them through its parameters, which alias the fields, and nothing writes them while it runs.
- Coroutine scheduling. Transition runs the coroutine up to its first yield, and TransitionFrame stands for one later resumption. When Unity resumes a coroutine relative to Update in a frame is not modelled.
- MoverControlsWithTransition.MoverControlsWithTransition.TransitionFrame: resumes the corrected coroutine, whose debug log cannot throw. With one or two mover objects the coroutine as written throws at line 437 before the writes at line 444 and never resumes again. The class has no `previousTimeValue` field, and the as-written coroutine is modelled only on values, by ResumeAsWritten and RunAsWritten (see Findings).
- First-frame targets. The target of each position and angle is modelled as the code computes it. It is not the object's pose on Update's first frame, although the comment on line 95 of MoverControlsWithTransition.cs says it should be. Start clamps the captured value plus the terms, while Update clamps only the sine term. Update evaluates the curves at the phase timer rather than at 0. Its angles are windows around the captured quaternion components, not the Euler angles Start starts from. FirstFrameTargetBelowUpdateWrite shows that the transition can end well away from Update's next write. Which target the authors meant is not clear from the code, so the model makes no promise that the transition ends on Update's pose.
- PlayerController, TransitionsManager and the other scripts are not part of this model. WalkAnimsManager reads the player's input magnitude, which is a parameter of its Update.
- Stretchy limbs. For a stretchy limb the IK solver lets the tip follow the target. The segment lengths stay as captured by Start; they are not rescaled, and the model follows the code here.
- PointCalculator.PointCalculator.CalculatePointsPositions: the model keeps one position slot per child in an array. Two child entries that name the same scene object are not modelled.
- PointCalculator.SubdivisionDistance: with no children the source divides by zero (float infinity or NaN). The model uses 0, which the empty loop never reads.

## Findings

| source | as written | input that shows it | evidently intended | confidence | as-written member | corrected member |
|---|---|---|---|---|---|---|
| Assets/Scripts/MoverControlsWithTransition.cs:435-438 | once the elapsed time has moved, the transition loop's debug log reads `moverObjects[2]` and `initialPosition[2]`; with fewer than three mover objects that throws, the coroutine dies and `isTransitioning` stays true, so Update never runs again | one or two mover objects and a non-zero first Time.deltaTime | the log has no effect: the transition runs five seconds, snaps to the targets and ends | medium, not executed | MoverControlsWithTransition.AsWrittenNeverEnds | MoverControlsWithTransition.TransitionEnds |
