/** Head bobbing and footsteps: a phase accumulator driven by the owner's
    speed, head offsets derived from the sine of the phase, and a detector
    that plays a footstep whenever the sign of the cosine of the phase
    changes. The trigonometric functions are supplied by the caller: `sin`
    must stay within [-1, 1] and `cosSign` (the sign of the cosine) within
    {-1, 0, 1}. */
module HeadBob {
  import Motion

  /** Peak vertical and lateral head offsets. */
  const BobHeight: real := 0.06
  const BobSway: real := 0.08

  /** Names under which the footstep sounds are registered. */
  const RightStep: string := "rightStep"
  const LeftStep: string := "leftStep"

  /** The bob state: the accumulated time scaled by speed (`elapsedTime`)
      and the last observed sign of the cosine (`currentSign`). */
  datatype Bob = Bob(elapsedTime: real, currentSign: int)

  const InitialBob: Bob := Bob(0.0, 1)

  /** Lateral (`x`) and vertical (`y`) head position. */
  datatype Pose = Pose(x: real, y: real)

  /** `elapsedTime += delta * speed`. The phase stands still when the
      owner does not move (or no time passes) and never runs backwards
      for a non-negative delta and speed. */
  function Advance(elapsedTime: real, delta: real, speed: real): (r: real)
    ensures delta * speed == 0.0 ==> r == elapsedTime
    ensures delta >= 0.0 && speed >= 0.0 ==> r >= elapsedTime
  {
    elapsedTime + delta * speed
  }

  /** The head position for `motion = sin(phase)`: lifted by |motion| times
      the bob height above the owner's height, swayed sideways by motion
      times the sway. The lift is never negative and is always three
      quarters of the sway's magnitude. */
  function HeadPose(motion: real, height: real): (r: Pose)
    ensures r.y >= height
    ensures (r.y - height) * 4.0 == Motion.Abs(r.x) * 3.0
    ensures -1.0 <= motion <= 1.0 ==>
      r.y <= height + BobHeight && -BobSway <= r.x <= BobSway
  {
    Pose(motion * BobSway, Motion.Abs(motion) * BobHeight + height)
  }

  /** Outcome of the footstep detector: the new `currentSign` and the
      sounds played, in order. */
  datatype Detection = Detection(sign: int, played: seq<string>)

  /** The two consecutive checks of the detector: a drop of the sign plays
      the right step, a rise (checked against the sign as updated by the
      first check) plays the left step. Exactly one of the three cases
      happens; afterwards the current sign equals the observed one. */
  function Detect(currentSign: int, sign: int): (r: Detection)
    ensures sign < currentSign ==> r.played == [RightStep]
    ensures sign > currentSign ==> r.played == [LeftStep]
    ensures sign == currentSign ==> r.played == []
    ensures r.sign == sign
  {
    var afterDrop := if sign < currentSign then Detection(sign, [RightStep])
                     else Detection(currentSign, []);
    if sign > afterDrop.sign then Detection(sign, afterDrop.played + [LeftStep])
    else afterDrop
  }

  /** Number of positions where a sequence of observed signs differs from
      the sign before it, starting from `currentSign`. */
  function Transitions(currentSign: int, signs: seq<int>): nat
    decreases |signs|
  {
    if signs == [] then 0
    else (if signs[0] != currentSign then 1 else 0) + Transitions(signs[0], signs[1..])
  }

  /** The detector run over the signs observed by a sequence of ticks. */
  function DetectAll(currentSign: int, signs: seq<int>): Detection
    decreases |signs|
  {
    if signs == [] then Detection(currentSign, [])
    else
      var first := Detect(currentSign, signs[0]);
      var rest := DetectAll(first.sign, signs[1..]);
      Detection(rest.sign, first.played + rest.played)
  }

  /** Over any run of ticks exactly one footstep is played per change of
      sign, none while the sign stays the same, and the detector ends on
      the last observed sign. */
  lemma {:induction false} OneStepPerTransition(currentSign: int, signs: seq<int>)
    ensures |DetectAll(currentSign, signs).played| == Transitions(currentSign, signs)
    ensures DetectAll(currentSign, signs).sign == if signs == [] then currentSign else signs[|signs| - 1]
    ensures (forall i :: 0 <= i < |signs| ==> signs[i] == currentSign) ==>
      DetectAll(currentSign, signs).played == []
    decreases |signs|
  {
    if signs != [] {
      OneStepPerTransition(signs[0], signs[1..]);
    }
  }

  /** The result of one `_updateHead` call: new bob state, head pose and the
      sounds played. */
  datatype HeadUpdate = HeadUpdate(bob: Bob, pose: Pose, played: seq<string>)

  /** The argument of `sin` and `cos`: `elapsedTime * headMovement`. */
  function Phase(elapsedTime: real, headMovement: real): real {
    elapsedTime * headMovement
  }

  /** Whether `cosSign` ranges over {-1, 0, 1} and `sin` over [-1, 1]. */
  ghost predicate TrigInRange(sin: real -> real, cosSign: real -> int) {
    (forall t :: -1.0 <= sin(t) <= 1.0) && (forall t :: -1 <= cosSign(t) <= 1)
  }

  /** Whether the stored sign is that of the cosine at the stored phase. */
  predicate Synced(b: Bob, headMovement: real, cosSign: real -> int) {
    b.currentSign == cosSign(Phase(b.elapsedTime, headMovement))
  }

  /** One `_updateHead` step. The phase advances by `delta * speed`; the
      head takes the pose of `sin` at the new phase; the stored sign becomes
      the cosine's sign at the new phase, with the right step played on a
      drop and the left step on a rise, so at most one footstep plays. The
      pose lies within the bob bounds, and from a synced state with no
      movement nothing changes and nothing plays. */
  function UpdateHead(b: Bob, delta: real, speed: real, headMovement: real, height: real,
                      sin: real -> real, cosSign: real -> int): (r: HeadUpdate)
    requires TrigInRange(sin, cosSign)
    ensures r.bob.elapsedTime == Advance(b.elapsedTime, delta, speed)
    ensures r.pose == HeadPose(sin(Phase(r.bob.elapsedTime, headMovement)), height)
    ensures Synced(r.bob, headMovement, cosSign)
    ensures r.bob.currentSign < b.currentSign ==> r.played == [RightStep]
    ensures r.bob.currentSign > b.currentSign ==> r.played == [LeftStep]
    ensures |r.played| <= 1
    ensures r.played != [] <==> r.bob.currentSign != b.currentSign
    ensures height <= r.pose.y <= height + BobHeight && -BobSway <= r.pose.x <= BobSway
    ensures delta * speed == 0.0 && Synced(b, headMovement, cosSign) ==> r.bob == b && r.played == []
  {
    var t := Advance(b.elapsedTime, delta, speed);
    var motion := sin(Phase(t, headMovement));
    var d := Detect(b.currentSign, cosSign(Phase(t, headMovement)));
    HeadUpdate(Bob(t, d.sign), HeadPose(motion, height), d.played)
  }

  /** Per-tick input to the head update: `delta` and the owner's speed. */
  datatype Frame = Frame(delta: real, speed: real)

  /** The bob state and all sounds played over a sequence of ticks. */
  function UpdateHeadAll(b: Bob, frames: seq<Frame>, headMovement: real, height: real,
                         sin: real -> real, cosSign: real -> int): (Bob, seq<string>)
    requires TrigInRange(sin, cosSign)
    decreases |frames|
  {
    if frames == [] then (b, [])
    else
      var u := UpdateHead(b, frames[0].delta, frames[0].speed, headMovement, height, sin, cosSign);
      var rest := UpdateHeadAll(u.bob, frames[1..], headMovement, height, sin, cosSign);
      (rest.0, u.played + rest.1)
  }

  /** While the owner stands still, the phase does not advance and, once
      the stored sign is synced (as it is after any tick), no footstep
      plays, however many ticks pass. */
  lemma {:induction false} StandingStillIsSilent(b: Bob, frames: seq<Frame>, headMovement: real,
                                                 height: real, sin: real -> real, cosSign: real -> int)
    requires TrigInRange(sin, cosSign)
    requires Synced(b, headMovement, cosSign)
    requires forall i :: 0 <= i < |frames| ==> frames[i].speed == 0.0
    ensures UpdateHeadAll(b, frames, headMovement, height, sin, cosSign) == (b, [])
    decreases |frames|
  {
    if frames != [] {
      assert frames[0].delta * frames[0].speed == 0.0;
      var u := UpdateHead(b, frames[0].delta, frames[0].speed, headMovement, height, sin, cosSign);
      assert u.bob == b && u.played == [];
      StandingStillIsSilent(b, frames[1..], headMovement, height, sin, cosSign);
      assert u.played + [] == [];
    }
  }

  /** A freshly created controller (phase 0, sign 1) that stays still plays
      no footstep: the cosine of 0 is positive, so its sign matches. */
  lemma FreshAndStillIsSilent(frames: seq<Frame>, headMovement: real, height: real,
                              sin: real -> real, cosSign: real -> int)
    requires TrigInRange(sin, cosSign)
    requires cosSign(0.0) == 1
    requires forall i :: 0 <= i < |frames| ==> frames[i].speed == 0.0
    ensures UpdateHeadAll(InitialBob, frames, headMovement, height, sin, cosSign) == (InitialBob, [])
  {
    StandingStillIsSilent(InitialBob, frames, headMovement, height, sin, cosSign);
  }
}
