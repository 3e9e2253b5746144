# FirstPersonControls in Dafny

A model of `FirstPersonControls`, the first-person movement and look
controller of a navmesh FPS demo. The controller turns keyboard input into
four movement flags, pointer movement into a yaw and a clamped pitch,
and on every tick it does the following:

- damps and accelerates a local horizontal velocity;
- rotates that velocity into the owner's world velocity;
- drives a head bob from a phase accumulator;
- plays a footstep sound whenever the sign of the bob's cosine changes.

It also registers and removes its input listeners around the pointer lock,
and it dispatches `lock` and `unlock` events.

The project has one module per component:

- `keys.dfy`, module `Keys`. It holds the key-code table (`ActionOf`), the
  flags as a value (`Flags`, `OnKey`) and the class `InputState`, whose
  `OnKeyDown` and `OnKeyUp` handlers update four `bool` fields in place.
- `look.dfy`, module `Look`. It holds the pitch clamp and the effect of one
  pointer sample (`Look`). It also covers any sequence of samples
  (`LookAll`, `LookAllAccumulates`). The quarter turn `PI05` is an abstract
  positive constant.
- `motion.dfy`, module `Motion`. It holds:
  - the direction component `Number(a) - Number(b)` (`Axis`);
  - proportional damping (`Damp`);
  - the whole velocity step with its per-axis acceleration gate (`Step`);
  - runs of ticks (`Ticks`, `CoastingDecays`).

  The library's `normalize` is a parameter. It is only assumed to keep the
  sign of each component (`KeepsSigns`).
- `head_bob.dfy`, module `HeadBob`. It holds:
  - the phase accumulator (`Advance`);
  - the head pose (`HeadPose`);
  - the two-step footstep detector (`Detect`);
  - one `_updateHead` call as a value (`UpdateHead`);
  - runs of ticks (`DetectAll`, `UpdateHeadAll`).

  `Math.sin` and `Math.sign(Math.cos(...))` are parameters. They range over
  [-1, 1] and {-1, 0, 1}.
- `pointer_lock.dfy`, module `PointerLock`. It reduces the listener
  registration to one flag and records the dispatched events in a log
  (`Lifecycle`, `Connect`, `Disconnect`, `OnLockChange`).
- `controls.dfy`, module `Controls`. It holds these classes:
  - `Owner` and `Head`. The `fromEuler` writes are kept as ghost `yaw` and
    `pitch` fields.
  - `SharedState`, the four module-level variables `velocity`, `direction`,
    `currentSign` and `elapsedTime`. Callers are meant to create one
    `SharedState` object and pass it to every controller, as the source's
    module scope does. The model does not enforce this.
    `SharedBetweenControllers` shows that a head update of one controller
    moves the phase that another controller reads.
  - `FirstPersonControls`, with the handlers and the tick. Each of them is
    specified by the value-level function of its component.

## Model

| member | source | states |
|---|---|---|
| Keys.ActionOf | src/FirstPersonControls.js:184-238 | Up/W (38, 87) mean forward, Left/A (37, 65) left, Down/S (40, 83) backward, Right/D (39, 68) right; every other code is bound to nothing |
| Keys.OnKey | src/FirstPersonControls.js:184-238 | a bound key sets (down) or clears (up) exactly its action's flag and keeps the other three; an unbound key changes no flag |
| Keys.OnKeyIdempotent | src/FirstPersonControls.js:184-238 | repeating a key event has the same effect as doing it once |
| Keys.KeyUpUndoesKeyDown | src/FirstPersonControls.js:184-238 | key-up after key-down gives the flags key-up alone gives; from all released, a press and release of any key restores the flags |
| Keys.InputState.constructor | src/FirstPersonControls.js:30-35 | all four flags start released |
| Keys.InputState.OnKeyDown | src/FirstPersonControls.js:184-210 | the new flags are `OnKey(old flags, keyCode, true)` |
| Keys.InputState.OnKeyUp | src/FirstPersonControls.js:212-238 | the new flags are `OnKey(old flags, keyCode, false)` |
| Look.ClampPitch | src/FirstPersonControls.js:155 | the result lies in [-PI05, PI05], equals the input when it is in range, and otherwise equals the nearer bound |
| Look.Look | src/FirstPersonControls.js:152-155 | the yaw changes by exactly `-dx * 0.001 * lookingSpeed`, unclamped; the new pitch is the moved pitch clamped to [-PI05, PI05] |
| Look.LookAllAccumulates | src/FirstPersonControls.js:150-160 | after any sequence of samples the yaw has moved by the total `dx` times `0.001 * lookingSpeed`, and the pitch is within range after at least one sample |
| Look.LookExample | src/FirstPersonControls.js:152-153 | the sample (100, 50) at looking speed 1 turns yaw by -0.1 and pitch by -0.05 |
| Controls.FirstPersonControls.OnMouseMove | src/FirstPersonControls.js:150-160 | the orientation becomes `Look` of the old one; owner yaw and head pitch are set to the new `movementX` and `movementY` |
| Controls.FirstPersonControls.SetRotation | src/FirstPersonControls.js:92-100 | stores yaw and pitch verbatim, without clamping, and writes them to owner yaw and head pitch |
| Motion.Axis | src/FirstPersonControls.js:77-78 | the direction component is in {-1, 0, 1}; it is 0 exactly when both or neither key of the pair is held, and 1 or -1 when only the first or only the second is held |
| Motion.DirectionSigns | src/FirstPersonControls.js:77-79 | the normalised direction has the sign of the un-normalised one, so it is zero on an axis exactly when that pair cancels or is idle |
| Motion.Damp | src/FirstPersonControls.js:74-75 | a zero component stays 0; with braking factor in [0, 1] the magnitude does not grow; below 1 the sign is kept; at exactly 1 the component becomes 0; above 1 the sign flips |
| Motion.Step | src/FirstPersonControls.js:74-82 | an axis whose keys are both held or both released only gets damped; with positive `acceleration * delta`, forward alone lowers depth below the damped value, backward alone raises it, and left and right do the same on the lateral axis |
| Motion.CoastingDecays | src/FirstPersonControls.js:74-75 | with no key held and every braking factor in [0, 1], any run of ticks keeps each component's sign and never increases its magnitude |
| Motion.ForwardFromRest | src/FirstPersonControls.js:74-82 | from rest, forward only, with acceleration 40, braking 10 and delta 0.1, the local velocity becomes (0, -4) |
| Controls.FirstPersonControls.StepVelocity | src/FirstPersonControls.js:71-82 | the shared velocity becomes `Step` of the old one, and the shared direction becomes the normalised un-normalised direction |
| Controls.FirstPersonControls.Update | src/FirstPersonControls.js:69-90 | runs the velocity step, writes the rotated local velocity (y = 0) to the owner, then makes the head update with the owner's new speed |
| HeadBob.Advance | src/FirstPersonControls.js:111 | `elapsedTime` is unchanged when `delta * speed == 0` and never decreases for non-negative delta and speed |
| HeadBob.HeadPose | src/FirstPersonControls.js:113-120 | `head.y >= height`; the lift is 3/4 of the sway's magnitude; with motion in [-1, 1], `head.y` is in [height, height + 0.06] and `head.x` in [-0.08, 0.08] |
| HeadBob.Detect | src/FirstPersonControls.js:124-142 | a new sign below the current one plays only "rightStep", above it only "leftStep", equal plays nothing; the current sign becomes the new sign |
| HeadBob.OneStepPerTransition | src/FirstPersonControls.js:124-142 | over any run of ticks the number of footsteps equals the number of sign changes; a constant sign plays nothing; the detector ends on the last sign |
| HeadBob.UpdateHead | src/FirstPersonControls.js:102-144 | the phase advances by `delta * speed`; the pose is `HeadPose` of `sin` at the new phase; the stored sign becomes the cosine's sign at the new phase, with "rightStep" played on a drop, "leftStep" on a rise and nothing otherwise; the pose is within the bob bounds; with no movement from a synced state nothing changes |
| HeadBob.StandingStillIsSilent | src/FirstPersonControls.js:109-142 | while the speed is 0, any number of ticks from a synced state leaves phase and sign unchanged and plays nothing |
| HeadBob.FreshAndStillIsSilent | src/FirstPersonControls.js:11-12 | from the initial phase 0 and sign 1, a stationary owner never triggers a footstep |
| Controls.FirstPersonControls.UpdateHead | src/FirstPersonControls.js:102-144 | the shared phase and sign, the head position (depth kept) and the sound log are those given by `HeadBob.UpdateHead` for the owner's speed |
| Controls.SharedState.constructor | src/FirstPersonControls.js:8-12 | velocity and direction start at zero, `currentSign` at 1, `elapsedTime` at 0 |
| Controls.FirstPersonControls.constructor | src/FirstPersonControls.js:16-45 | yaw and pitch 0, acceleration 40, braking power 10, looking speed 1, head movement 1.5, all flags released, no sounds, no listeners |
| PointerLock.Connect | src/FirstPersonControls.js:47-57 | listeners become registered; no event is dispatched |
| PointerLock.Disconnect | src/FirstPersonControls.js:59-67 | listeners become unregistered; no event is dispatched |
| PointerLock.OnLockChange | src/FirstPersonControls.js:162-176 | exactly one event is appended: "lock" when the body holds the lock, with listeners unchanged; otherwise "unlock", with listeners removed |
| PointerLock.ConnectDisconnectIdempotent | src/FirstPersonControls.js:47-67 | connecting twice equals connecting once; disconnecting twice equals disconnecting once |
| PointerLock.LockChangesDispatchOnePerNotification | src/FirstPersonControls.js:162-176 | over any sequence of notifications, one "lock" per held-lock notification and one "unlock" per other notification; listeners stay registered only if no notification found the lock lost |
| PointerLock.ConnectThenLock | src/FirstPersonControls.js:162-166 | connect, then a notification that the body holds the lock: listeners registered and "lock" dispatched exactly once |
| Controls.FirstPersonControls.Connect | src/FirstPersonControls.js:47-57 | the lifecycle becomes `PointerLock.Connect` of the old one |
| Controls.FirstPersonControls.Disconnect | src/FirstPersonControls.js:59-67 | the lifecycle becomes `PointerLock.Disconnect` of the old one |
| Controls.FirstPersonControls.OnPointerlockChange | src/FirstPersonControls.js:162-176 | the lifecycle becomes `PointerLock.OnLockChange` of the old one |

Facts about the source that the model keeps as written:

- The phase is `elapsedTime * headMovement`, and `elapsedTime` accumulates
  `delta * speed`. Changing `headMovement` therefore rescales the phase
  already accumulated.
- `velocity`, `direction`, `currentSign` and `elapsedTime` are module-level,
  so all controllers share them.
- There is no separate locked or unlocked state. There is only the listener
  registration and the dispatched events.
- A negative `delta` is neither clamped nor rejected.
- Damping is not floored at zero. `Motion.Damp` states that the sign flips
  when the braking factor exceeds 1.

## Left out

- DOM plumbing. The model omits `addEventListener`, `removeEventListener`,
  `requestPointerLock` and `document.pointerLockElement`. The listener set
  is one `listenersRegistered` flag, and the lock holder is the
  `lockedToBody` argument. The handlers are modelled as callable at any time
  and do not check that the host delivers events only to registered
  listeners.
- `onPointerlockError` only writes a warning to the logger. It changes no
  state.
- `EventDispatcher` internals. Dispatching an event appends it to `events`.
- The vector library. `normalize` is a parameter that is only assumed to
  keep component signs. `applyRotation(owner.rotation)` is a `rotate`
  parameter. `fromEuler` and the quaternions are the ghost `yaw` and `pitch`
  fields.
- `owner.getSpeed()` is a `speedOf` parameter, assumed non-negative.
- `Math.sin` and `Math.cos` are parameters with range assumptions. All
  arithmetic is on `real`. IEEE-754 rounding, NaN and infinities are not
  modelled.
- Audio handles. `sounds` holds only the registered names, and `play()`
  appends the name to `played`. The source throws only on a tick that plays
  a sound it has no entry for. A controller without sounds whose cosine
  sign never changes, such as a stationary one, ticks without error.
  `Controls.FirstPersonControls.Update` and
  `Controls.FirstPersonControls.UpdateHead` require both "rightStep" and
  "leftStep" to be registered instead of modelling the exception. That
  precondition also excludes those silent ticks without sounds.
- The constructor's default `owner = null` is not modelled. Four functions
  dereference the owner: `update`, `setRotation`, `_updateHead` and
  `onMouseMove`. The key handlers, the lock handlers, `connect` and
  `disconnect` do not, so in the source a controller without an owner can
  connect and handle keys and lock changes until its first mouse move,
  `setRotation` or `update`. The model always takes a non-null owner, so it
  leaves out such an owner-less controller driven only by keys and lock
  changes.
- The single shared `SharedState` is a convention for callers. The
  `FirstPersonControls` constructor accepts any `SharedState`, so the model
  also admits controllers with separate copies, which the source's module
  scope does not.
- `velocity.y` is left out. The controller never writes it, so the local
  velocity is a horizontal pair, lifted with y = 0 when it is copied to the
  owner.
- Motion.Step: does not state that the direction has unit length, because
  `normalize` is kept abstract. The model knows only its sign behaviour.
- Look.LookExample: states the -0.05 pitch only when PI05 >= 0.05, because
  PI05 is abstract.
