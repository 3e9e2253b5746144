/** The controller object itself: its owner entity with the head
    sub-entity, the module-level variables its source file keeps outside
    any instance, and the handlers and per-tick update that change them in
    place. Each method is specified by the value-level functions of the
    Keys, Look, Motion, HeadBob and PointerLock modules. */
module Controls {
  import opened Keys
  import Look
  import Motion
  import HeadBob
  import PointerLock

  datatype Vec3 = Vec3(x: real, y: real, z: real)

  /** A horizontal local vector as a 3-vector; its `y` is 0. */
  function Lift(v: Motion.Planar): Vec3 {
    Vec3(v.x, 0.0, v.z)
  }

  /** The owner's head sub-entity. */
  class Head {
    var position: Vec3
    /** The pitch last handed to `rotation.fromEuler(pitch, 0, 0)`. */
    ghost var pitch: real

    constructor (position: Vec3)
      ensures this.position == position && pitch == 0.0
    {
      this.position := position;
      pitch := 0.0;
    }
  }

  /** The game entity the controller steers. */
  class Owner {
    const head: Head
    var height: real
    var velocity: Vec3
    /** The yaw last handed to `rotation.fromEuler(0, yaw, 0)`. */
    ghost var yaw: real

    constructor (head: Head, height: real)
      ensures this.head == head && this.height == height
      ensures velocity == Vec3(0.0, 0.0, 0.0) && yaw == 0.0
    {
      this.head := head;
      this.height := height;
      velocity := Vec3(0.0, 0.0, 0.0);
      yaw := 0.0;
    }
  }

  /** The variables `velocity`, `direction`, `currentSign` and `elapsedTime`
      that the source file declares at module level. The source has one of
      them for the whole program; callers are meant to create one object and
      hand it to every controller (the constructor does not enforce this). */
  class SharedState {
    var velocity: Motion.Planar
    var direction: Motion.Planar
    var currentSign: int
    var elapsedTime: real

    constructor ()
      ensures velocity == Motion.Still && direction == Motion.Still
      ensures Bob() == HeadBob.InitialBob
    {
      velocity := Motion.Still;
      direction := Motion.Still;
      currentSign := 1;
      elapsedTime := 0.0;
    }

    /** The head-bob state kept in these variables. */
    function Bob(): HeadBob.Bob
      reads this
    {
      HeadBob.Bob(elapsedTime, currentSign)
    }
  }

  /** Assumptions on the library functions a tick is given: `normalize`
      keeps component signs, `speedOf` (the owner's `getSpeed`) is never
      negative, and `sin` and the sign of `cos` stay in their ranges. */
  ghost predicate TickLibrary(normalize: Motion.Planar -> Motion.Planar, speedOf: Vec3 -> real,
                              sin: real -> real, cosSign: real -> int)
  {
    Motion.KeepsSigns(normalize) && (forall v :: speedOf(v) >= 0.0) &&
    HeadBob.TrigInRange(sin, cosSign)
  }

  class FirstPersonControls {
    const owner: Owner
    /** The module-level variables, shared with every other controller. */
    const shared: SharedState
    const input: InputState

    var movementX: real  // yaw, from horizontal pointer movement
    var movementY: real  // pitch, from vertical pointer movement

    var acceleration: real
    var brakingPower: real
    var lookingSpeed: real
    var headMovement: real

    /** The names registered in the `sounds` map (the audio handles
        themselves are not modelled). */
    var sounds: set<string>
    /** Every `play()` so far, by the name its sound was looked up under. */
    var played: seq<string>

    var listenersRegistered: bool
    /** Every event dispatched so far. */
    var events: seq<PointerLock.Event>

    constructor (owner: Owner, shared: SharedState)
      ensures this.owner == owner && this.shared == shared
      ensures fresh(input) && input.Value() == Released
      ensures movementX == 0.0 && movementY == 0.0
      ensures acceleration == 40.0 && brakingPower == 10.0 && lookingSpeed == 1.0 && headMovement == 1.5
      ensures sounds == {} && played == []
      ensures Lifecycle() == PointerLock.Created
    {
      this.owner := owner;
      this.shared := shared;
      movementX, movementY := 0.0, 0.0;
      acceleration, brakingPower, lookingSpeed, headMovement := 40.0, 10.0, 1.0, 1.5;
      input := new InputState();
      sounds, played := {}, [];
      listenersRegistered, events := false, [];
    }

    function Orientation(): Look.Orientation
      reads this
    {
      Look.Orientation(movementX, movementY)
    }

    function Lifecycle(): PointerLock.Lifecycle
      reads this
    {
      PointerLock.Lifecycle(listenersRegistered, events)
    }

    method Connect()
      modifies this`listenersRegistered
      ensures Lifecycle() == PointerLock.Connect(old(Lifecycle()))
    {
      listenersRegistered := true;
    }

    method Disconnect()
      modifies this`listenersRegistered
      ensures Lifecycle() == PointerLock.Disconnect(old(Lifecycle()))
    {
      listenersRegistered := false;
    }

    /** The `pointerlockchange` handler; `lockedToBody` says whether the
        document body now holds the pointer lock. */
    method OnPointerlockChange(lockedToBody: bool)
      modifies this`listenersRegistered, this`events
      ensures Lifecycle() == PointerLock.OnLockChange(old(Lifecycle()), lockedToBody)
    {
      if lockedToBody {
        events := events + [PointerLock.Lock];
      } else {
        Disconnect();
        events := events + [PointerLock.Unlock];
      }
    }

    /** `setRotation`: stores yaw and pitch as given, without clamping, and
        writes them to the owner's and the head's rotation. */
    method SetRotation(yaw: real, pitch: real)
      modifies this`movementX, this`movementY, owner`yaw, owner.head`pitch
      ensures movementX == yaw && movementY == pitch
      ensures owner.yaw == yaw && owner.head.pitch == pitch
    {
      movementX := yaw;
      movementY := pitch;
      owner.yaw := movementX;
      owner.head.pitch := movementY;
    }

    /** The `mousemove` handler. */
    method OnMouseMove(dx: real, dy: real)
      modifies this`movementX, this`movementY, owner`yaw, owner.head`pitch
      ensures Orientation() == Look.Look(old(Orientation()), Look.Sample(dx, dy), lookingSpeed)
      ensures owner.yaw == movementX && owner.head.pitch == movementY
    {
      movementX := movementX - dx * Look.Sensitivity * lookingSpeed;
      movementY := movementY - dy * Look.Sensitivity * lookingSpeed;
      movementY := Look.Max(Look.MinPitch, Look.Min(Look.MaxPitch, movementY));
      owner.yaw := movementX;
      owner.head.pitch := movementY;
    }

    /** `update(delta)`: the velocity step on the shared local velocity, its
        rotation into world space (`rotate` is `applyRotation` by the
        owner's current rotation), then the head update. */
    method Update(delta: real, normalize: Motion.Planar -> Motion.Planar, rotate: Vec3 -> Vec3,
                  speedOf: Vec3 -> real, sin: real -> real, cosSign: real -> int)
      requires TickLibrary(normalize, speedOf, sin, cosSign)
      requires HeadBob.RightStep in sounds && HeadBob.LeftStep in sounds
      modifies shared, owner`velocity, owner.head`position, this`played
      ensures shared.velocity == Motion.Step(old(shared.velocity), input.Value(), acceleration,
                                             brakingPower, delta, normalize)
      ensures shared.direction == normalize(Motion.RawDirection(input.Value()))
      ensures owner.velocity == rotate(Lift(shared.velocity))
      ensures var u := HeadBob.UpdateHead(old(shared.Bob()), delta, speedOf(owner.velocity),
                                          headMovement, owner.height, sin, cosSign);
        shared.Bob() == u.bob && played == old(played) + u.played &&
        owner.head.position == Vec3(u.pose.x, u.pose.y, old(owner.head.position.z))
    {
      StepVelocity(delta, normalize);
      owner.velocity := rotate(Lift(shared.velocity));
      UpdateHead(delta, speedOf, sin, cosSign);
    }

    /** The first part of `update`: damping, direction and acceleration on
        the shared local velocity. */
    method StepVelocity(delta: real, normalize: Motion.Planar -> Motion.Planar)
      requires Motion.KeepsSigns(normalize)
      modifies shared`velocity, shared`direction
      ensures shared.velocity == Motion.Step(old(shared.velocity), input.Value(), acceleration,
                                             brakingPower, delta, normalize)
      ensures shared.direction == normalize(Motion.RawDirection(input.Value()))
    {
      var v := shared.velocity;
      shared.velocity := Motion.Planar(v.x - v.x * brakingPower * delta, v.z - v.z * brakingPower * delta);
      assert shared.velocity == Motion.Planar(Motion.Damp(v.x, brakingPower, delta), Motion.Damp(v.z, brakingPower, delta));

      shared.direction := Motion.Planar(Motion.Number(input.left) as real - Motion.Number(input.right) as real,
                                        Motion.Number(input.forward) as real - Motion.Number(input.backward) as real);
      assert shared.direction == Motion.RawDirection(input.Value());
      shared.direction := normalize(shared.direction);

      if input.forward || input.backward {
        shared.velocity := shared.velocity.(z := shared.velocity.z - shared.direction.z * acceleration * delta);
      }
      if input.left || input.right {
        shared.velocity := shared.velocity.(x := shared.velocity.x - shared.direction.x * acceleration * delta);
      }
    }

    /** `_updateHead(delta)`: advance the shared phase by the owner's speed,
        place the head, and play a footstep on a change of sign of the
        cosine. */
    method UpdateHead(delta: real, speedOf: Vec3 -> real, sin: real -> real, cosSign: real -> int)
      requires HeadBob.TrigInRange(sin, cosSign)
      requires HeadBob.RightStep in sounds && HeadBob.LeftStep in sounds
      modifies shared`elapsedTime, shared`currentSign, owner.head`position, this`played
      ensures var u := HeadBob.UpdateHead(old(shared.Bob()), delta, speedOf(owner.velocity),
                                          headMovement, owner.height, sin, cosSign);
        shared.Bob() == u.bob && played == old(played) + u.played &&
        owner.head.position == Vec3(u.pose.x, u.pose.y, old(owner.head.position.z))
    {
      var head := owner.head;
      var speed := speedOf(owner.velocity);

      shared.elapsedTime := shared.elapsedTime + delta * speed;

      var motion := sin(HeadBob.Phase(shared.elapsedTime, headMovement));

      head.position := head.position.(y := Motion.Abs(motion) * HeadBob.BobHeight);
      head.position := head.position.(x := motion * HeadBob.BobSway);

      head.position := head.position.(y := head.position.y + owner.height);

      var sign := cosSign(HeadBob.Phase(shared.elapsedTime, headMovement));

      if sign < shared.currentSign {
        shared.currentSign := sign;
        played := played + [HeadBob.RightStep];
      }

      if sign > shared.currentSign {
        shared.currentSign := sign;
        played := played + [HeadBob.LeftStep];
      }
    }
  }

  /** Two controllers built on the same module-level variables disturb each
      other: a head update of one advances the phase the other one reads. */
  method SharedBetweenControllers(owner: Owner, delta: real, speedOf: Vec3 -> real,
                                  sin: real -> real, cosSign: real -> int)
    requires HeadBob.TrigInRange(sin, cosSign)
    requires delta * speedOf(owner.velocity) != 0.0
    modifies owner.head
  {
    var shared := new SharedState();
    var first := new FirstPersonControls(owner, shared);
    var second := new FirstPersonControls(owner, shared);
    first.sounds := {HeadBob.RightStep, HeadBob.LeftStep};
    first.UpdateHead(delta, speedOf, sin, cosSign);
    assert second.shared.elapsedTime != 0.0;
  }
}
