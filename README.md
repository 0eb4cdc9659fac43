# FPS prototype camera aim, modelled in Dafny

This project models the camera-aim pipeline of `PlayerController` in the FPS
prototype. Once per frame, `RotateCamera` does the following:

- reads the two axes of the camera stick;
- conditions the stick vector: `ApplyDeadZone` rescales it between an inner
  and an outer dead zone, then `ApplyJoystickCurve` passes its length through
  a response curve;
- steps a small state machine: the flag `stickAtMaximum` and the timers
  `extraSpeedDelayTimer` and `extraSpeedRampUpTimer`. Together they grant a
  bonus turn speed that ramps in while the stick stays at full deflection,
  after a hold delay;
- integrates the two camera angles. `camCurrentRotationY` accumulates without
  bound. `camCurrentRotationX` is clamped to `[maxDownAngle, maxUpAngle]`.

The files follow that structure:

- `vectors.dfy` (`Vectors`): the engine's `Vector2`, reduced to what the
  pipeline uses: `normalized`, scaling, and the components.
  - The engine computes a vector's length with a square root, which Dafny
    lacks. So a vector is held by its direction (a unit vector) and its
    length, and its components are derived from those two.
- `mathf.dfy` (`Mathf`): `Mathf.Clamp` and `Mathf.Clamp01`, with the
  engine's branch order (the lower bound is compared first).
- `conditioning.dfy` (`Conditioning`): `ApplyDeadZone` and
  `ApplyJoystickCurve`, as pure functions.
- `aim.dfy` (`CameraAim`): one call of `RotateCamera` as a pure function
  `Next` of the tunables, the state, the raw stick vector and the frame time.
  - Also the ramp invariant the state machine keeps.
  - Also runs of frames (`Run`) and what holds over them.
- `player_controller.dfy` (`Player`): the class `PlayerController`.
  - Its tunables keep the source's names and types.
  - Its five private state fields are updated in place by the method
    `RotateCamera`.
  - `RotateCamera` is proved against `Next`, and it keeps the ramp invariant.
- `scenarios.dfy` (`Scenarios`): concrete runs.
  - The turning runs push the stick fully to the right for frames of 16 ms.
    They hold for any tunables whose per-frame pitch turn is then 1.92
    degrees, with no extra pitch speed and bounds that leave room.
    `DefaultsAllowTurn` shows that the default tunables with an identity curve
    are such tunables.
  - The ramp runs hold for any tunables with a hold delay of 0.1 s and any
    stick that conditions to full deflection. The default hold delay is 0, so
    these runs are not about the defaults.

Real numbers stand in for single-precision floats. The engine reads are
parameters: the two axes arrive as one `Vector2`, and `Time.deltaTime` as
`dt`. The `AnimationCurve` is a function `real -> real`.

Three behaviours of the code are worth knowing. The model follows the code in
each.

- **Axis mapping** (`PlayerController.cs:97-98`):
  - The horizontal stick component turns `camCurrentRotationX` at
    `pitchSpeed`, and that angle is clamped.
  - The vertical component turns the unclamped `camCurrentRotationY` at
    `yawSpeed`.
  - So a purely horizontal stick never changes `camCurrentRotationY`:
    `HorizontalStickKeepsYaw` and `RunHorizontalKeepsYaw` prove this.
  - Ten 16 ms frames with the stick fully right, from rest, turn
    `camCurrentRotationX` by 19.2 degrees at the default pitch speed of 120
    (`FullRightTurnsX`, with `DefaultsAllowTurn` for the defaults). They leave
    `camCurrentRotationY` at 0 (`FullRightKeepsY`). No bonus is added, because
    the default extra pitch speed is 0.
- **Overshoot seeding** (`PlayerController.cs:73-78`):
  - The ramp timer is seeded with the time held beyond the delay only while
    it is still exactly 0.
  - When a frame brings the delay timer exactly to the delay, the seed is 0.
    The next frame then seeds again, from the whole time held beyond the
    delay.
  - So, for a non-negative hold delay and non-negative frame times, the ramp
    timer always equals the time held beyond the delay:
    `RampInvariant`, `OvershootSeeding` and `ZeroOvershootReseeds` show this.
- **Hold state on entry** (`PlayerController.cs:82-85`): the frame that first
  reaches full deflection only sets the flag. Both timers are already 0 at
  that point, as the invariant states.

## Model

| member | source | states |
|---|---|---|
| `Vectors.Normalized` | FPS_Prototype/Assets/Scripts/PlayerController.cs:111 | `v.normalized` keeps the direction; the length becomes 1, and a zero vector stays zero; a zero component stays zero |
| `Vectors.Scale` | FPS_Prototype/Assets/Scripts/PlayerController.cs:113 | `v * k` multiplies both components by `k` and the length by `Abs(k)`; a negative `k` reverses the direction |
| `Mathf.Clamp` | FPS_Prototype/Assets/Scripts/PlayerController.cs:99 | the result lies in `[min, max]` when `min <= max`; a value inside is unchanged; a value below gives `min`, a value above gives `max` |
| `Mathf.Clamp01` | FPS_Prototype/Assets/Scripts/PlayerController.cs:90 | the result lies in `[0, 1]`, is the value itself inside it, 0 at or below 0 and 1 at or above 1 |
| `Conditioning.ApplyDeadZone` | FPS_Prototype/Assets/Scripts/PlayerController.cs:104-116 | direction kept; below the inner dead zone the length is 0; above the outer it is 1 (0 for a zero stick); in between it is `(m - inner) / (outer - inner)`; the length always lies in `[0, 1]`; a zero stick stays zero, and a zero component stays zero |
| `Conditioning.DeadZoneMonotone` | FPS_Prototype/Assets/Scripts/PlayerController.cs:106-115 | with `inner < outer`, a longer stick never comes out shorter |
| `Conditioning.ApplyJoystickCurve` | FPS_Prototype/Assets/Scripts/PlayerController.cs:118-126 | the length becomes `Abs(curve(m))`; the direction is kept, or reversed when the curve is negative; a zero stick stays zero whatever `curve(0)` is; a zero component stays zero |
| `CameraAim.Defaults` | FPS_Prototype/Assets/Scripts/PlayerController.cs:7-29 | the initialiser values meet the model's condition that the two divisors are non-zero; the inner dead zone lies below the outer one, the ramp-up time is positive, the hold delay is 0 and the angle bounds are ordered |
| `CameraAim.Condition` | FPS_Prototype/Assets/Scripts/PlayerController.cs:54-56 | the conditioned stick is a valid vector along or against the raw one, zero inside the inner dead zone, and has no horizontal (vertical) component when the raw stick has none |
| `CameraAim.UpdateRamp` | FPS_Prototype/Assets/Scripts/PlayerController.cs:61-85 | the state machine step leaves both angles untouched |
| `CameraAim.RampUpPercent` | FPS_Prototype/Assets/Scripts/PlayerController.cs:89-90 | the share of extra speed lies in `[0, 1]`; when `extraSpeedRampUpTime > 0` it is 1 once the ramp timer reaches the ramp-up time and 0 while the timer is at most 0 |
| `CameraAim.CurrentYawSpeed` | FPS_Prototype/Assets/Scripts/PlayerController.cs:87-94 | the yaw speed lies between `yawSpeed` and `yawSpeed + extraYawSpeed`; it is the base speed unless the stick is held past the delay, and base plus extra once fully ramped |
| `CameraAim.CurrentPitchSpeed` | FPS_Prototype/Assets/Scripts/PlayerController.cs:87-94 | the same for the pitch speed with `pitchSpeed` and `extraPitchSpeed` |
| `CameraAim.Next` | FPS_Prototype/Assets/Scripts/PlayerController.cs:54-99 | after any frame the X angle lies within `[maxDownAngle, maxUpAngle]` when those are ordered |
| `CameraAim.Run` | FPS_Prototype/Assets/Scripts/PlayerController.cs:44-47 | `Update` calling `RotateCamera` once per frame, each frame's `Next` in order: an empty run leaves the state alone, and after a non-empty run the X angle lies within its ordered bounds |
| `CameraAim.InitialSatisfiesInvariant` | FPS_Prototype/Assets/Scripts/PlayerController.cs:31-35 | the initial field values satisfy the ramp invariant |
| `CameraAim.NextHoldState` | FPS_Prototype/Assets/Scripts/PlayerController.cs:61-85 | a frame leaves the flag and the timers as the state machine steps them for the conditioned length |
| `CameraAim.RampTransitions` | FPS_Prototype/Assets/Scripts/PlayerController.cs:61-85 | release while held clears the flag and zeroes both timers; the first held frame only sets the flag; each further held frame adds `dt` to the delay timer; an idle frame changes nothing |
| `CameraAim.OvershootSeeding` | FPS_Prototype/Assets/Scripts/PlayerController.cs:71-79 | while held: on the frame the delay is first reached the ramp timer, still 0, is seeded with the overshoot; afterwards it grows by `dt`; before the delay it stays 0 |
| `CameraAim.NextPreservesInvariant` | FPS_Prototype/Assets/Scripts/PlayerController.cs:61-85 | a frame with `dt >= 0` keeps the timers non-negative, zero while not held, and the ramp timer equal to the time held beyond the delay |
| `CameraAim.FullBonusAfterRampUp` | FPS_Prototype/Assets/Scripts/PlayerController.cs:87-94 | once held for the delay plus the ramp-up time, both speeds are base plus full extra |
| `CameraAim.RampInByHeldTime` | FPS_Prototype/Assets/Scripts/PlayerController.cs:87-94 | while the bonus is granted after the first held frame, each speed is base plus extra times `Clamp01((delayTimer - delay) / rampUpTime)`, a function of the time held |
| `CameraAim.RampUpPercentGrows` | FPS_Prototype/Assets/Scripts/PlayerController.cs:89-90 | for a positive ramp-up time, a longer ramp timer never gives a smaller share |
| `CameraAim.YawTowardFull` | FPS_Prototype/Assets/Scripts/PlayerController.cs:87-94 | when a granted bonus stays granted and the ramp timer does not go back, the yaw speed moves towards base plus full extra and never past it |
| `CameraAim.PitchTowardFull` | FPS_Prototype/Assets/Scripts/PlayerController.cs:87-94 | the same for the pitch speed |
| `CameraAim.HeldFrameRampsIn` | FPS_Prototype/Assets/Scripts/PlayerController.cs:61-94 | a frame that keeps the stick held, with `dt >= 0` and a positive ramp-up time, moves both speeds towards their full bonus values and never past them |
| `CameraAim.YawIntegration` | FPS_Prototype/Assets/Scripts/PlayerController.cs:97 | the Y angle grows by exactly `y * currentYawSpeed * dt`, the speed taken from the state after this frame's step, with no clamp |
| `CameraAim.PitchIntegration` | FPS_Prototype/Assets/Scripts/PlayerController.cs:98-99 | the X angle grows by `x * currentPitchSpeed * dt` and is then clamped |
| `CameraAim.HorizontalStickKeepsYaw` | FPS_Prototype/Assets/Scripts/PlayerController.cs:97 | a stick with no vertical component leaves the Y angle where it was |
| `CameraAim.RunAppend` | FPS_Prototype/Assets/Scripts/PlayerController.cs:44-47 | running two stretches of frames one after the other gives the same state as running them as one |
| `CameraAim.RunPreservesInvariant` | FPS_Prototype/Assets/Scripts/PlayerController.cs:44-47 | the ramp invariant holds after any run of frames with non-negative frame times |
| `CameraAim.RunPitchBounded` | FPS_Prototype/Assets/Scripts/PlayerController.cs:98-99 | after at least one frame, for any inputs, the X angle lies within its bounds |
| `CameraAim.RunHeldAccumulatesDelay` | FPS_Prototype/Assets/Scripts/PlayerController.cs:71 | while the stick stays held, the flag stays set and the delay timer grows by the total frame time |
| `CameraAim.RunHorizontalKeepsYaw` | FPS_Prototype/Assets/Scripts/PlayerController.cs:97 | frames with no vertical stick component never move the Y angle |
| `CameraAim.BaseSpeedPitch` | FPS_Prototype/Assets/Scripts/PlayerController.cs:93 | with no extra pitch speed the X angle always turns at the base pitch speed, whatever the hold state |
| `CameraAim.SteadyPitchFrame` | FPS_Prototype/Assets/Scripts/PlayerController.cs:98-99 | with no extra pitch speed a frame adds its base-speed turn to the X angle, then clamps it |
| `CameraAim.SteadyPitchStep` | FPS_Prototype/Assets/Scripts/PlayerController.cs:98-99 | a frame whose turn, of either sign, keeps the X angle within both bounds adds exactly that turn, and the remaining partial sums stay within the bounds from the new angle |
| `CameraAim.RunSteadyPitch` | FPS_Prototype/Assets/Scripts/PlayerController.cs:98-99 | equal turns, positive or negative, whose every partial sum stays within both bounds add up: after `n` frames the X angle has moved by `n` turns |
| `CameraAim.StepsIsProduct` | FPS_Prototype/Assets/Scripts/PlayerController.cs:98 | `n` equal turns by `step` add up to `n * step` |
| `Scenarios.FullRightConditioned` | FPS_Prototype/Assets/Scripts/PlayerController.cs:104-126 | with the default dead zones and the identity curve, the full stick comes out unchanged, at full deflection |
| `Scenarios.TickPitchTurn` | FPS_Prototype/Assets/Scripts/PlayerController.cs:98 | a 16 ms full-right frame at pitch speed 120 turns the X angle by 1.92 degrees |
| `Scenarios.FullRightTurnsX` | FPS_Prototype/Assets/Scripts/PlayerController.cs:98-99 | for tunables with no extra pitch speed, a 1.92-degree turn per such frame and bounds of at most 0 and at least 20, ten such frames from rest bring the X angle to 19.2 degrees |
| `Scenarios.TickRunSteps` | FPS_Prototype/Assets/Scripts/PlayerController.cs:98-99 | full-right ticks from rest whose partial sums stay within the bounds bring the X angle to the sum of their turns |
| `Scenarios.TenTicksStayWithin` | FPS_Prototype/Assets/Scripts/PlayerController.cs:99 | ten turns of 1.92 degrees from 0 stay within such bounds and add up to 19.2 |
| `Scenarios.FullRightKeepsY` | FPS_Prototype/Assets/Scripts/PlayerController.cs:97 | for any tunables, the same frames leave the Y angle at 0 |
| `Scenarios.DefaultsAllowTurn` | FPS_Prototype/Assets/Scripts/PlayerController.cs:7-29 | the default tunables with the identity curve have no extra pitch speed, a 1.92-degree turn per full-right 16 ms frame and bounds of at most 0 and at least 20, so `FullRightTurnsX` applies to them |
| `Scenarios.DefaultsFullRightKeepsY` | FPS_Prototype/Assets/Scripts/PlayerController.cs:97 | under the default tunables the full-right frames leave the Y angle at 0 |
| `Scenarios.RampSeedsWithOvershoot` | FPS_Prototype/Assets/Scripts/PlayerController.cs:71-79 | delay 0.1 s, frames of 0.05, 0.05, 0.1 and 0.2 s: the delay timer reads 0, 0.05, 0.15, 0.35 and the ramp timer 0, 0, 0.05, 0.25 |
| `Scenarios.ZeroOvershootReseeds` | FPS_Prototype/Assets/Scripts/PlayerController.cs:75-78 | a frame that meets the delay exactly seeds 0; the next frame seeds with the whole time held beyond the delay |
| `Player.PlayerController.constructor` | FPS_Prototype/Assets/Scripts/PlayerController.cs:7-35 | a controller with the given tunables and the fields' initial values |
| `Player.PlayerController.Default` | FPS_Prototype/Assets/Scripts/PlayerController.cs:7-35 | a controller with the initialiser values of the tunables and the fields' initial values |
| `Player.PlayerController.UpdateHoldState` | FPS_Prototype/Assets/Scripts/PlayerController.cs:61-85 | the fields after the state machine step are those of `UpdateRamp` |
| `Player.PlayerController.RotateCamera` | FPS_Prototype/Assets/Scripts/PlayerController.cs:49-102 | the new fields are `Next` of the old ones; the ramp invariant is kept for `dt >= 0`; the X angle ends within its bounds |

## Left out

- `Input.GetAxis` (lines 51-52) and `Time.deltaTime` are engine reads. The
  stick vector and the frame time are parameters of `RotateCamera`.
- The write of `Camera.main.transform.rotation` (line 101) is an engine write
  and is not modelled. The two angles it would be built from are the model's
  state.
- `AnimationCurve.Evaluate` (line 122) is engine code. The curve is an
  arbitrary function `real -> real`.
- Floating-point rounding is not modelled; floats are reals, and all
  comparisons with 0.9999 and with the timers are exact.
- `Vector2.normalized` in the engine returns zero at or below a length of
  1e-5. The model returns zero only for length 0.
- The input is handed in by direction and length rather than by its two
  components, because Dafny has no square root to compute the length.
- The default parameters of `ApplyDeadZone` (0.19 and 1, line 104) are never
  used: the only call passes the fields.
- The empty `Start` (lines 38-41) and `Update` (lines 44-47) are not
  modelled. `Update` only calls `RotateCamera`, and `Run` models that per-frame
  loop.
- `TargetController.cs` is not part of this model. It holds a random spawn,
  an engine rotation step and a one-bit hit latch.
- Player.PlayerController.constructor: requires `innerDeadZone !=
  outerDeadZone` and `extraSpeedRampUpTime != 0`, which the source does not
  check. Without them the dead zone divides 0 by 0 when the length equals
  both, and the ramp divides by 0; the float results are NaN or infinity,
  which reals cannot express. `ApplyDeadZone` itself demands only the first,
  and only for a stick whose length equals both dead zones.
- The ten-frame X turn under the default tunables is not stated as one
  lemma. It follows by applying `FullRightTurnsX` to the tunables of
  `DefaultsAllowTurn`.
- `UpdateRamp`, `Next` and `RotateCamera` accept any `dt`. The ramp invariant
  is proved only for `dt >= 0`, the only case the engine produces.
