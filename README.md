# Player controller of the Ocean project, modelled in Dafny

`Assets/Scripts/GameManager.cs` is the project's player controller. It is a Unity
MonoBehaviour, and every frame it runs the following routines:

- `JumpAndGravity`: the vertical-motion state machine. On land it handles the jump cooldown, the fall
  timer, the grounded pin, the jump launch and the gravity with terminal velocity. In water it rises
  or hovers.
- `GroundedCheck`: refreshes `Grounded` from a sphere probe, but only out of water.
- `Move`: picks walk, sprint or zero speed, snaps to it inside a ±0.1 band and otherwise eases toward
  it.

`LateUpdate` runs `CameraRotation` (pitch accumulation and `ClampAngle`). The water trigger
callbacks switch between swimming and surface physics. `Start` arms the two timers.

The model has two layers:

- **`Motion`, `Angles`, `Easing`** (pure). `Motion.State` is a snapshot of the fields the controller
  carries from frame to frame, and `Motion.Config` holds its inspector settings. Each routine is a
  function on them. `Motion.Run` folds a sequence of engine events (`Update` frames, `LateUpdate`,
  jump presses, trigger enter and exit) over a state.
- **`Controller.GameManager`** (imperative). A class with the component's own fields. Its methods
  update those fields in place, branch for branch as the C# does. Each method is proved to leave
  `Snapshot()` equal to the matching `Motion` function of the old snapshot. `SetSpeed` (the speed
  part of `Move`) and `CameraRotation` compute with the C# locals, and a lemma of `Motion`
  (`NextSpeedAsWritten`, `CameraRotationTurns`) shows that those locals give the function's result.

`Properties` proves, about the pure layer:

- single-frame facts: when a jump can fire, and where terminal velocity applies;
- the frame order within `Update`;
- the water round trip;
- invariants over arbitrary event runs: surface physics and the pitch limits, and trigger-free runs for swimming;
- free fall and standing over engine runs, where the Update frames are interleaved with the
  LateUpdate camera passes (and, for the free-fall velocity, jump presses).

The engine's inputs become parameters:

- `Time.deltaTime` is `dt`.
- The `Physics.CheckSphere` answer is `groundHit`.
- The value `Mathf.Sqrt` returns for `JumpHeight * -2 * Gravity` is `launch`. This is a non-negative real
  whose square is that product, required only when the product is not negative.
- `_controller.velocity`'s horizontal magnitude and the move and look input are fields of the input
  records.

C# `float`s are mathematical reals. `Mathf.Lerp` clamps its parameter to [0, 1], and `Mathf.Round`
rounds halves to even (the behaviour Unity documents).

## Model

| member | source | states |
|---|---|---|
| Angles.Clamp | Assets/Scripts/GameManager.cs:259 | Mathf.Clamp: with min <= max the result lies in [min, max]. It is the value itself when already inside, min when below min, and max when above max (and not below min). |
| Angles.WrapTurn | Assets/Scripts/GameManager.cs:257-258 | An angle below -360 gains one turn of 360 and one above 360 loses one; angles in [-360, 360] are untouched. So angles in [-720, 720] land in [-360, 360]. |
| Angles.ClampAngle | Assets/Scripts/GameManager.cs:255-260 | With lo <= hi the result is in [lo, hi]. An angle in [-360, 360] that is already within [lo, hi] comes back unchanged. When the wrapped angle is below lo the result is lo, and when it is above hi (and not below lo) the result is hi. |
| Angles.ClampAngleIdempotent | Assets/Scripts/GameManager.cs:255-260 | With limits inside one turn, clamping a clamped angle again changes nothing. |
| Easing.Clamp01 | Assets/Scripts/GameManager.cs:170-171 | The Lerp parameter clamp: the result is in [0, 1], the value itself when already there, 0 below 0 and 1 above 1. |
| Easing.Lerp | Assets/Scripts/GameManager.cs:170-171 | The eased speed lies between the current speed and the goal. It is the current speed for t <= 0 and the goal for t >= 1. |
| Easing.InterpolantBetween | Assets/Scripts/GameManager.cs:170-171 | a + (b - a) * c with c in [0, 1] lies between a and b, with the endpoints at c = 0 and c = 1. |
| Easing.Round | Assets/Scripts/GameManager.cs:174 | Mathf.Round returns an integer within 0.5 of its argument. |
| Easing.RoundHalfToEven | Assets/Scripts/GameManager.cs:174 | A halfway value rounds to the even neighbour, and an integer rounds to itself. |
| Easing.RoundToThousandths | Assets/Scripts/GameManager.cs:174 | Rounding to three decimals moves the speed by at most 0.0005, and the result has at most three decimals (1000 times it is an integer). A speed halfway between two such values goes to the one whose thousandths count is even. |
| Easing.RoundedLerpBounds | Assets/Scripts/GameManager.cs:171-174 | A rounded Lerp step stays within 0.0005 of the segment between current and goal, and within 0.0005 of the goal once t >= 1. |
| Motion.Start | Assets/Scripts/GameManager.cs:101-103 | Both timers start at JumpTimeout and FallTimeout. Velocity, the jump flag and every other field are unchanged. |
| Motion.JumpAndGravity | Assets/Scripts/GameManager.cs:197-253 | Only velocity, the two timers and the jump flag can change. In water the velocity becomes MoveSpeed with jump held and 0 otherwise, and nothing else changes. When grounded, the fall timer resets to FallTimeout and the jump cooldown decreases by dt only while it is >= 0. When airborne, the cooldown resets to JumpTimeout, the jump flag is cleared, and the fall timer decreases by dt only while it is >= 0. On land, gravity * dt is added if and only if the velocity before that line (launch when a jump fires, -2 for a grounded downward velocity, the old value otherwise) is below 53. |
| Motion.GroundedCheck | Assets/Scripts/GameManager.cs:118-126 | In water the state is untouched. On land `grounded` becomes the probe's answer and nothing else changes. |
| Motion.TargetSpeed | Assets/Scripts/GameManager.cs:152-159 | 0 without move input, otherwise SprintSpeed when sprinting and MoveSpeed when not. |
| Motion.NextSpeed | Assets/Scripts/GameManager.cs:153-179 | Inside the ±0.1 band `_speed` becomes exactly the target. Outside it, `_speed` lies between the current speed and target * inputMagnitude, up to 0.0005, and is within 0.0005 of target * inputMagnitude once dt * SpeedChangeRate >= 1. |
| Motion.NextSpeedAsWritten | Assets/Scripts/GameManager.cs:153-179 | The speed as the source computes it from its locals (target, offset, inputMagnitude, Lerp with t = dt * SpeedChangeRate, rounding) is NextSpeed: the rounded Lerp outside the band and the target inside it. |
| Motion.CameraRotationTurns | Assets/Scripts/GameManager.cs:131-140 | At or above the threshold, the pitch accumulated by look.y * RotationSpeed * deltaTimeMultiplier (which is 1) and then clamped, and the yaw rate look.x * RotationSpeed * 1, are exactly the fields CameraRotation sets. |
| Motion.CameraRotation | Assets/Scripts/GameManager.cs:128-148 | Below the 0.01 look threshold nothing changes, and otherwise only pitch and yaw rate change. The yaw rate is look.x * RotationSpeed and the pitch is ClampAngle of the accumulated pitch, so it lies in [BottomClamp, TopClamp] when those are ordered. |
| Motion.TriggerEnterWater | Assets/Scripts/GameManager.cs:262-271 | A "Water" tag sets inWater and Gravity 0 and nothing else. Any other tag changes nothing. |
| Motion.TriggerExitWater | Assets/Scripts/GameManager.cs:273-282 | A "Water" tag clears inWater and sets JumpHeight 1.2 and Gravity -15, and nothing else. Any other tag changes nothing. |
| Motion.Update | Assets/Scripts/GameManager.cs:106-111 | After a frame, `grounded` is the probe's answer on land and unchanged in water. The frame never changes inWater, Gravity or JumpHeight. |
| Properties.JumpLaunches | Assets/Scripts/GameManager.cs:213-217 | When the three jump conditions hold and the square root of JumpHeight * -2 * Gravity is below 53, the velocity is that root plus one frame of gravity. |
| Properties.NoJumpUnlessReady | Assets/Scripts/GameManager.cs:201-238 | Without the three conditions (on land, grounded, jump set with the cooldown <= 0), the frame does not depend on the square root at all. |
| Properties.JumpUsesLaunch | Assets/Scripts/GameManager.cs:213-217 | When a jump fires and gravity * dt <= 0, different square roots give different velocities. (With gravity * dt > 0 a root just below 53 plus gravity can equal a root at or above 53, which the guard leaves alone.) |
| Properties.FallSpeedIsUncapped | Assets/Scripts/GameManager.cs:239-243 | The terminal-velocity guard never stops a downward fall: an airborne player keeps gaining downward speed. |
| Properties.UpdateUsesPreviousGrounded | Assets/Scripts/GameManager.cs:106-111 | Since JumpAndGravity runs before GroundedCheck, this frame's probe affects only `grounded`. |
| Properties.WaterRoundTrip | Assets/Scripts/GameManager.cs:262-282 | Entering and leaving water gives back the surface state. |
| Properties.SurfaceLaunchSpeed | Assets/Scripts/GameManager.cs:213-217 | With the surface values (1.2, -15) the only square root a jump can use is 6. |
| Properties.StepKeepsSurfacePhysics | Assets/Scripts/GameManager.cs:262-282 | Each event keeps the physics invariant: gravity 0 in water, 1.2 / -15 on land. |
| Properties.RunKeepsSurfacePhysics | Assets/Scripts/GameManager.cs:262-282 | Any run of events keeps that invariant. |
| Properties.SwimmingRun | Assets/Scripts/GameManager.cs:245-252 | Without triggers, a swimming player stays in water with `grounded`, both timers, gravity and jump height fixed, and the velocity is MoveSpeed, 0 or the old value. |
| Properties.BetweenFrames | Assets/Scripts/GameManager.cs:128-148 | A LateUpdate camera pass changes only the pitch and yaw rate, and a jump press between frames changes only the jump flag. |
| Properties.FreeFallVelocity | Assets/Scripts/GameManager.cs:225-243 | From an airborne state on land with a velocity below 53 and gravity <= 0, over Updates whose probe keeps missing, with LateUpdate camera passes and jump presses between them, the velocity is the start velocity plus gravity times the elapsed time (`Fallen`). |
| Properties.FreeFallTimers | Assets/Scripts/GameManager.cs:225-238 | From an airborne state on land, at any velocity and gravity, over Updates whose probe keeps missing, with LateUpdate camera passes between them, the player stays airborne. Once an Update has run the jump is dropped and the cooldown is at JumpTimeout; before that both are unchanged. The fall timer never grows and freezes once negative. While it is non-negative it has decreased by exactly the elapsed time. |
| Properties.AirborneFrame | Assets/Scripts/GameManager.cs:225-238 | One Update on land whose probe misses, at any velocity: still airborne, the jump dropped, the cooldown at JumpTimeout, and the fall timer down by dt only while it is >= 0. |
| Properties.FallingFrame | Assets/Scripts/GameManager.cs:225-243 | One free-fall frame: the timers as airborne, and velocity plus gravity * dt, still below 53. |
| Properties.StandingCountdown | Assets/Scripts/GameManager.cs:201-224 | Over Updates whose probe keeps hitting, with LateUpdate camera passes between them, the player stays grounded and the jump flag is as the input left it. Once an Update has run the fall timer is at FallTimeout; before that it is unchanged. The cooldown never grows and freezes once negative. While it is non-negative it has decreased by exactly the elapsed time. |
| Properties.PitchStaysClamped | Assets/Scripts/GameManager.cs:128-148 | A pitch inside [BottomClamp, TopClamp] stays inside for any run of events. |
| Properties.DefaultStart | Assets/Scripts/GameManager.cs:102-103 | With the default settings Start arms 0.1 s and 0.15 s, and the initial fields satisfy the surface invariant. |
| Controller.GameManager.constructor | Assets/Scripts/GameManager.cs:24-75 | The fields start at the C# initialisers. |
| Controller.GameManager.Configured | Assets/Scripts/GameManager.cs:24-75 | The settings, JumpHeight and Gravity are the scene's values, and the other fields start at the C# initialisers. |
| Controller.GameManager.Start | Assets/Scripts/GameManager.cs:96-104 | The fields afterwards are Motion.Start of the fields before. |
| Controller.GameManager.JumpAndGravity | Assets/Scripts/GameManager.cs:197-253 | The in-place update leaves the fields equal to Motion.JumpAndGravity of the old fields. |
| Controller.GameManager.OnJumpInput | Assets/Scripts/GameManager.cs:213 | Stands for the input system writing `_input.jump`, the flag JumpAndGravity reads: only that flag changes, to the reported value. |
| Controller.GameManager.GroundedCheck | Assets/Scripts/GameManager.cs:118-126 | The fields afterwards are Motion.GroundedCheck of the old ones. |
| Controller.GameManager.Move | Assets/Scripts/GameManager.cs:150-195 | Through SetSpeed, `_speed` becomes Motion.NextSpeed, and the exact target inside the band. The displacement is `_speed * dt` horizontally (0 without input) and velocity * dt vertically. No other field changes. |
| Controller.GameManager.SetSpeed | Assets/Scripts/GameManager.cs:152-179 | The source's branches on its locals leave `_speed` equal to Motion.NextSpeed, and no other field changes. |
| Controller.GameManager.CameraRotation | Assets/Scripts/GameManager.cs:128-148 | The in-place accumulation, clamp and yaw write leave the fields equal to Motion.CameraRotation of the old ones. |
| Controller.GameManager.OnTriggerEnter | Assets/Scripts/GameManager.cs:262-271 | The fields afterwards are Motion.TriggerEnterWater of the old ones. |
| Controller.GameManager.OnTriggerExit | Assets/Scripts/GameManager.cs:273-282 | The fields afterwards are Motion.TriggerExitWater of the old ones. |
| Controller.GameManager.Update | Assets/Scripts/GameManager.cs:106-111 | JumpAndGravity, then GroundedCheck, then Move: the fields become Motion.Update of the old ones, and the displacement is Move's. |
| Controller.GameManager.LateUpdate | Assets/Scripts/GameManager.cs:113-116 | The camera update. |

## Left out

- `Assets/Scripts/Fish/Fishflocking.cs` is not part of this model. It is built from the engine's
  vector and quaternion maths, random numbers, coroutines and object creation.
- `Assets/Scripts/Test/TestBase.cs` is not part of this model. It is an empty input scaffold with no
  logic.
- `Awake`'s camera lookup (`FindGameObjectWithTag`, `GetChild`) and `Start`'s `GetComponent` calls are
  not modelled: they only bind engine objects.
- Engine services become parameters:
  - `Physics.CheckSphere` and the sphere position;
  - `CharacterController.velocity`, and what `CharacterController.Move` does with the displacement;
  - the input system: move, look, sprint, analog flag and the jump flag's writes.
- `Motion.CameraRotation` models the pitch and yaw rate only. The camera target's
  `Quaternion.Euler` rotation and `transform.Rotate` are engine calls.
- The direction of the horizontal displacement is not modelled: the normalised input vector and the
  player's `transform.right` / `forward` are engine state. The model keeps only the signed
  distance along that direction, `_speed * dt` (0 without move input; negative for a negative
  `dt`).
- `Debug.Log` in the trigger callbacks is not modelled.
- IEEE-754 float rounding is not modelled. This covers the rounding of `0.1f` and the other constants,
  `-0.0f` against `0.0f`, the NaN `Mathf.Sqrt` returns for a negative argument (the model leaves
  `launch` unconstrained then), and float equality in `Vector2.zero` comparisons (a `moveIsZero`
  input).
- `Mathf.Sqrt`, `Mathf.Lerp` and `Mathf.Round` are given their documented real-number meaning, not
  Unity's exact float results.
- `CameraRotation`'s `deltaTimeMultiplier` is always 1 in the source, so `Motion.CameraRotation`
  leaves it out of the products.
- The inspector settings are `const` fields of `Controller.GameManager`. The controller never writes
  them, and edits made in the inspector while the game runs are not modelled.
- `Time.deltaTime` may be any real in the operations (the engine reports 0 while paused). The run
  lemmas, `Properties.FallingFrame` (dt >= 0) and `Properties.FallSpeedIsUncapped` (dt > 0)
  assume a non-negative frame time.
- `Properties.FreeFallTimers` and `Properties.StandingCountdown` admit Update frames and LateUpdate
  passes but no jump presses: a press rewrites the jump flag they state.
