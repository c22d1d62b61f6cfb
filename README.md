# Pinball physics and animation core, modelled in Dafny

This project models five small parts of the physics and animation layer of a
pinball table simulator (vpx-js), and proves properties of the model:

- **Light animation** (`Light`, `light_animation.dfy`). A table light has three
  states: Off, On and Blinking. A timed override ("start state, then duration,
  then final state") clears itself once its end time has passed. A blink-pattern
  cursor moves one frame per blink interval and wraps at the end of the pattern.
  The light's intensity fades toward its target. The class `LightAnimation`
  updates its fields step by step, as the source does. Each of its methods is
  proved equal to a value-level function `After<Op>` on the whole animation state.
- **Spinner collision object** (`Spinner`, `spinner_hit.dfy`). The spinner plate
  has two mirrored line segments, one per face. The hit test tries them in order
  and records which face was hit. The collision response turns the ball's speed
  along the contact normal into an angular speed of the plate.
- **Ball mover** (`Ball`, `ball_mover.dfy`). This is the two-phase integrator.
  The displacement phase moves the ball and recomputes its angular velocity. The
  velocity phase applies gravity, or the steering of a ball that an external
  controller has claimed. Both phases leave a frozen ball alone.
- **Slingshot animation** (`Slingshot`, `anim_slingshot.dfy`). This is a two-field
  state machine: pull in once a reset time is pending, release once the clock has
  passed that time.
- **Trigger state** (`Trigger`, `trigger_state.dfy`). This is the value the render
  bridge compares with the one it applied last, to skip updates that change nothing.

Shared pieces are the vector arithmetic (`Geometry`), an `Option` type
(`Wrappers`) and the collision event (`Collision`). Numbers the source keeps as
JavaScript doubles are modelled as `real` (intensities, speeds, positions) or
`int` (milliseconds, frame indices). IEEE rounding, infinities and NaN are not
modelled.

Three behaviours of the code are worth stating up front, and the model follows
them:

- A fade stops at the target or at 0, but the intensity is not clamped into
  `[0, target]`. An on-light that is already above its target stays there, and so
  does an off-light already below 0. The model proves the range is kept when it
  holds before the update (`Light.AfterFade`, `Light.UpdateKeepsIntensityInRange`).
- setState cancels a pending override only when the new state differs from the
  current one. It also only resets a duration that is positive.
- When an override runs out into Blinking, the code restarts the blinker one
  interval ahead and then calls the blinker at once. With a positive interval the
  blinker is not yet due, so the cursor stays on frame 0. With an interval of 0 or
  less it is due at once: the cursor moves on to the frame after 0 (which is 0
  again for a pattern of at most one frame), and the next blink lands two
  intervals after now.

## Model

| member | source | states |
|---|---|---|
| `Light.IsBlinkOn` | lib/vpt/light/light-animation.ts:144-146 | the light is lit by its pattern exactly when the cursor is inside the pattern and the character there is '1' (substr past the end gives no character) |
| `Light.IsOn` | lib/vpt/light/light-animation.ts:138-142 | an Off light is never on, an On light always is, a Blinking light is on exactly when its pattern character under the cursor is '1' |
| `Light.AfterSetState` | lib/vpt/light/light-animation.ts:53-65 | asking for the current state changes nothing at all; another state is taken, leaves no positive duration (a pending override is cancelled), and when it is Blinking puts the cursor on frame 0 with the next blink due now (no interval added); the other fields are kept |
| `Light.AfterRestartBlinker` | lib/vpt/light/light-animation.ts:67-71 | cursor on frame 0, next blink one interval from now, override end re-timed from now; nothing else changes |
| `Light.NextFrame` | lib/vpt/light/light-animation.ts:113-116 | the next cursor position is (f + 1) mod the pattern length inside the pattern, and 0 or inside the pattern in any case |
| `Light.AfterUpdateBlinker` | lib/vpt/light/light-animation.ts:111-119 | before the next blink is due nothing changes; once due the cursor advances exactly one frame modulo the pattern length (to 0 for an empty pattern) and the next blink moves by exactly one interval; only those two fields change and the cursor stays in range |
| `Light.Elapsed` | lib/vpt/light/light-animation.ts:79-81 | the fade time is never negative: the time gone by when the clock moves forward, 0 when it moves back |
| `Light.Fade` | lib/vpt/light/light-animation.ts:94-108 | an on-light below target rises by exactly fadeSpeedUp per millisecond, capped at target; an off-light above 0 falls by exactly fadeSpeedDown per millisecond, floored at 0; an on-light below target never passes target, one at or above target is left alone, and it never dims when the up speed is not negative; an off-light above 0 never goes below 0, one at or below 0 is left alone, and it never brightens when the down speed is not negative |
| `Light.AfterExpiry` | lib/vpt/light/light-animation.ts:83-89 | without an expired override nothing changes; an expired one hands over to its final state with duration 0, and into Blinking also restarts the blinker at now |
| `Light.AfterFade` | lib/vpt/light/light-animation.ts:94-108 | only the intensity changes; an on-light below target gains min(target - intensity, fadeSpeedUp * diff), an off-light above 0 loses min(intensity, fadeSpeedDown * diff); an on-light at or above target and an off-light at or below 0 keep their intensity; an intensity in [0, target] stays there for non-negative fade speeds; an on-light never dims when fadeSpeedUp is not negative and an off-light never brightens when fadeSpeedDown is not negative |
| `Light.AfterUpdateAnimation` | lib/vpt/light/light-animation.ts:73-109 | an invisible light changes no field; otherwise the clock becomes the new time, an override whose end time has passed hands over to its final state with duration 0 (into Blinking: with a positive interval the cursor is on frame 0 and the next blink one interval ahead; with an interval of 0 or less the blinker fires at once, so the cursor is on NextFrame(0, pattern length) and the next blink two intervals ahead), an unexpired one keeps state, duration and end time, a light that is not blinking keeps its cursor and next blink, an unexpired blinking light takes exactly one blinker step (AfterUpdateBlinker), the intensity fades by the time gone by according to whether the light is on after the expiry and blink steps, and the cursor stays in range |
| `Light.AfterSetDuration` | lib/vpt/light/light-animation.ts:121-130 | the start state is taken now with the given duration and final state, ending at now + duration; a Blinking start state restarts the pattern one interval ahead, any other keeps the cursor |
| `Light.AfterUpdateIntensity` | lib/vpt/light/light-animation.ts:132-136 | a light that is on gets exactly intensity * intensityScale; a light that is off changes nothing; nothing but the intensity changes |
| `Light.UpdateKeepsIntensityInRange` | lib/vpt/light/light-animation.ts:94-108 | with non-negative fade speeds, an update keeps an intensity that lies in [0, target] within [0, target] |
| `Light.SetStateCancelsOverride` | lib/vpt/light/light-animation.ts:53-65 | after setState to a different state, the next update never hands over to the cancelled override's final state |
| `Light.OverrideRunsItsDuration` | lib/vpt/light/light-animation.ts:121-130 | a setDuration override holds its start state up to its end time and hands over to its final state with duration 0 at any later update |
| `Light.BlinkAdvances` | lib/vpt/light/light-animation.ts:111-119 | n due blinks move the cursor n frames modulo the pattern length and the next blink n intervals later |
| `Light.BlinkPatternCycles` | lib/vpt/light/light-animation.ts:111-119 | for a pattern of length N, N due blinks bring the cursor back to the frame it started on |
| `Light.LightAnimation.constructor` | lib/vpt/light/light-animation.ts:32-47 | the light starts in its configured state, final state Off, scale 1, all timers, the duration and the cursor 0 |
| `Light.LightAnimation.SetState` | lib/vpt/light/light-animation.ts:53-65 | the field updates give exactly AfterSetState and keep the cursor in range |
| `Light.LightAnimation.RestartBlinker` | lib/vpt/light/light-animation.ts:67-71 | the field updates give exactly AfterRestartBlinker |
| `Light.LightAnimation.UpdateAnimation` | lib/vpt/light/light-animation.ts:73-109 | the field updates give exactly AfterUpdateAnimation and keep the cursor in range |
| `Light.LightAnimation.FadeIntensity` | lib/vpt/light/light-animation.ts:94-108 | the fading statements of updateAnimation give exactly AfterFade |
| `Light.LightAnimation.UpdateBlinker` | lib/vpt/light/light-animation.ts:111-119 | the field updates give exactly AfterUpdateBlinker and keep the cursor in range |
| `Light.LightAnimation.SetDuration` | lib/vpt/light/light-animation.ts:121-130 | the field updates give exactly AfterSetDuration and keep the cursor in range |
| `Light.LightAnimation.UpdateIntensity` | lib/vpt/light/light-animation.ts:132-136 | the update gives exactly AfterUpdateIntensity |
| `Spinner.Segments` | lib/vpt/spinner/spinner-hit.ts:47-62 | two segments with the same end points in reverse order (opposite faces), centred on the plate's center, spanning length + 2 * PHYS_SKIN along (cos, sin), both covering z from height to height + 2 * PHYS_SKIN |
| `Spinner.InitialAngle` | lib/vpt/spinner/spinner-hit.ts:65 | the plate's first angle lies in [angleMin, angleMax] when that range is not empty: 0 when the range contains 0, else the nearer limit |
| `Spinner.HitResponse` | lib/vpt/spinner/spinner-hit.ts:100-116 | the angular speed is ±abs(dot) * damping, divided by the axis height h only when abs(h) > 1 (never by a value of magnitude 1 or less); for non-negative damping and h >= -1 it is <= 0 when the first face was hit and >= 0 otherwise |
| `Spinner.HitResponseNeverAmplifies` | lib/vpt/spinner/spinner-hit.ts:107-111 | thanks to the guard, a hit never gives the plate more than abs(dot) * abs(damping) of angular speed |
| `Spinner.SpinnerHit.constructor` | lib/vpt/spinner/spinner-hit.ts:42-66 | the spinner is built with exactly the two Segments and its angle set to InitialAngle of the mover's limits |
| `Spinner.SpinnerHit.HitTest` | lib/vpt/spinner/spinner-hit.ts:78-91 | disabled: -1 and the event untouched; otherwise the first segment (trying segment 0 first) with a non-negative time wins, the event takes that segment's normal and its flag is set exactly when it is segment 0; with neither, -1 and flag and normal untouched |
| `Spinner.SpinnerHit.Collide` | lib/vpt/spinner/spinner-hit.ts:93-117 | a hit from the back (dot < 0) leaves the angular speed as it was; otherwise the angular speed becomes HitResponse of dot, half the height, the damping and the face flag |
| `Ball.Steer` | lib/vpt/ball/ball-mover.ts:73-74 | the steering increment always lies in [-10, 10]: a tenth of the distance to the target when that is within 100, the limit beyond it |
| `Ball.Displaced` | lib/vpt/ball/ball-mover.ts:43-63 | a frozen ball changes nothing; otherwise pos' = pos + vel * dtime, the orientation turns by the old angular velocity, and the new angular velocity times inertia is the angular momentum; velocity, momentum and the frozen flag are kept |
| `Ball.Accelerated` | lib/vpt/ball/ball-mover.ts:65-85 | a frozen ball changes nothing; a ball the controller steers (control on, its id claimed, a target present) gets x and y halved plus the steering increment and z lowered by 2; every other ball gets vel + gravity * PHYS_FACTOR; only the velocity changes |
| `Ball.SteeringIsBounded` | lib/vpt/ball/ball-mover.ts:69-76 | a steered ball's x and y velocity end within 10 of half their old value |
| `Ball.OnlyClaimedBallIsSteered` | lib/vpt/ball/ball-mover.ts:68 | two balls with different ids are never both steered |
| `Ball.FrozenBallStaysPut` | lib/vpt/ball/ball-mover.ts:43-88 | a frozen ball keeps position, orientation, velocity and angular velocity over any number of steps |
| `Ball.BallHit.CalcHitBBox` | lib/vpt/ball/ball-mover.ts:87 | the bounding box is recomputed from the current position and velocity |
| `Ball.BallMover.constructor` | lib/vpt/ball/ball-mover.ts:36-41 | the mover keeps its id, state and hit object |
| `Ball.BallMover.UpdateDisplacements` | lib/vpt/ball/ball-mover.ts:43-63 | the in-place updates give exactly Displaced; a moving ball's box is recomputed after the move, a frozen ball's is untouched |
| `Ball.BallMover.UpdateVelocities` | lib/vpt/ball/ball-mover.ts:65-88 | the in-place updates give exactly Accelerated, and the box is recomputed whether or not the ball is frozen |
| `Slingshot.Animated` | lib/physics/anim-slingshot.ts:36-45 | animations is never changed; at rest with no reset pending or animations off is a no-op; at rest with a reset pending and animations on pulls in and keeps timeReset; pulled in, release happens only once timeReset < now and then clears timeReset; the invariant iframe ==> timeReset != 0 is preserved |
| `Slingshot.AnimateAllKeepsPending` | lib/physics/anim-slingshot.ts:36-45 | any run of animation steps keeps iframe ==> timeReset != 0 and leaves animations as it was |
| `Slingshot.IdleSlingshotStaysIdle` | lib/physics/anim-slingshot.ts:37-44 | a slingshot at rest with timeReset 0, or with animations off, never changes over any run of steps |
| `Slingshot.PullInThenRelease` | lib/physics/anim-slingshot.ts:37-42 | a pending pull-in plays out in two steps: pulled in, then released with timeReset cleared |
| `Slingshot.SlingshotAnimObject.constructor` | lib/physics/anim-slingshot.ts:32-34 | all three fields start cleared |
| `Slingshot.SlingshotAnimObject.Animate` | lib/physics/anim-slingshot.ts:36-45 | the field updates give exactly Animated |
| `Trigger.NewTriggerState` | lib/vpt/trigger/trigger-state.ts:26-29 | the name is kept and the height offset defaults to 0 |
| `Trigger.Equals` | lib/vpt/trigger/trigger-state.ts:31-36 | no state equals a missing one; two states are equal exactly when their height offsets are, whatever their names |
| `Trigger.Clone` | lib/vpt/trigger/trigger-state.ts:38-40 | the clone keeps name and height offset and equals the original both ways |
| `Trigger.EqualsIsReflexive` | lib/vpt/trigger/trigger-state.ts:35 | every state equals itself |
| `Trigger.EqualsIsSymmetric` | lib/vpt/trigger/trigger-state.ts:35 | equality does not depend on the order of the two states |
| `Trigger.EqualsIsTransitive` | lib/vpt/trigger/trigger-state.ts:35 | equality is transitive |
| `Trigger.EqualsIgnoresName` | lib/vpt/trigger/trigger-state.ts:35 | states that differ only in their names are equal |
| `Trigger.DefaultOffsetIsZero` | lib/vpt/trigger/trigger-state.ts:26-29 | a state built without an offset equals exactly the states whose offset is 0 |

## Left out

- Floating point: every quantity is an exact `real` or `int`. IEEE rounding, infinities and NaN are not modelled. In JavaScript `NaN === NaN` is false, so a trigger state with a NaN offset would not equal itself.
- Light states: the source keeps them as numbers. The model has exactly Off, On and Blinking. Any other number would behave like On, except that two such numbers count as different states in setState.
- `LightAnimation.lockedByLS`, `init()` (which does nothing) and the unused `table` parameter of `updateAnimation` are not modelled. The clock of `PlayerPhysics` is passed as the number `now`.
- `FadeIntensity` is the tail of `updateAnimation` as a private method of its own. It is split out only to keep the proof small; its statements are the source's.
- Spinner geometry: `Math.sin` and `Math.cos` of the rotation are passed to the constructor as `sn` and `cs`. The constant `PHYS_SKIN` is passed as a number, because physics/constants.ts is not part of this model.
- Spinner mover: spinner-mover.ts is not part of this model. `SpinnerHit`'s constructor receives a `SpinnerMover` that is already built, holding the limits and the damping. The source builds that mover from `SpinnerData` and an event proxy.
- `LineSeg.hitTestBasic` (line-seg.ts is not part of this model) is passed to `HitTest` as a function from segment to time of impact and contact normal. The normal is written into the event only on a hit. Whether the real test also writes the event on a miss, and the other fields it fills in (distance, time), are not modelled.
- `SpinnerHit.calcHitBBox` and `getMoverObject` are not modelled. They only delegate to the first segment's unseen `calcHitBBox` or return a field.
- Spinner.HitResponse: the sign property is stated for an axis height of at least -1. A more negative `height` would flip the sign, and the source does not rule that out.
- Spinner.InitialAngle: the range is stated only for angleMin <= angleMax. math/functions.ts, where `clamp` is defined, is not part of this model, so the model takes `clamp(x, lo, hi)` to be `min(max(x, lo), hi)`.
- Ball orientation: the skew-symmetric update and `orthoNormalize` work on the unseen `Matrix2D`. They are passed in as the function `rotate` over an opaque `Matrix3`, so orthonormality is not modelled.
- Ball bounding box: ball-hit.ts is not part of this model. `calcHitBBox` is modelled as recording the position and velocity the box was computed from.
- `PHYS_FACTOR` comes from physics/constants.ts and is carried as a field of the `PlayerPhysics` value.
- Ball.BallMover.UpdateDisplacements: requires a non-zero inertia for a ball that is not frozen. The source divides by it, and a zero would give infinities, which reals do not have.
- Ball.Accelerated: requires that a claimed ball exists whenever ball control is on. The source dereferences `pactiveballBC!` there, and a null value would throw.
- The commented-out nudge code in `updateVelocities` is not modelled, and neither is the unused `BallData`.
- The simulation driver (player-physics), the flipper, the gate and all the scripting tests are not part of this model. Nor is the render bridge that calls `TriggerState.equals`.
