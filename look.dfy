/** Look control: pointer movement samples turn into an accumulated yaw
    (`movementX`) and a pitch (`movementY`) that is clamped to a quarter turn
    either way. */
module Look {

  type PositiveReal = r: real | r > 0.0 witness 1.0

  /** Half of pi. Its numeric value is left abstract; only its sign is used. */
  const PI05: PositiveReal

  const MaxPitch: real := PI05 as real
  const MinPitch: real := -MaxPitch

  /** Radians of turn per pointer unit, before `lookingSpeed` is applied. */
  const Sensitivity: real := 0.001

  function Min(a: real, b: real): real { if a <= b then a else b }
  function Max(a: real, b: real): real { if a >= b then a else b }

  /** `Math.max(-PI05, Math.min(PI05, p))`: the pitch limited to the range
      the head may look up or down. */
  function ClampPitch(p: real): (r: real)
    ensures MinPitch <= r <= MaxPitch
    ensures MinPitch <= p <= MaxPitch ==> r == p
    ensures p > MaxPitch ==> r == MaxPitch
    ensures p < MinPitch ==> r == MinPitch
  {
    Max(MinPitch, Min(MaxPitch, p))
  }

  /** Yaw about the vertical axis and pitch about the lateral axis, radians. */
  datatype Orientation = Orientation(yaw: real, pitch: real)

  /** A pointer-move sample: `event.movementX`, `event.movementY`. */
  datatype Sample = Sample(dx: real, dy: real)

  /** Effect of one pointer-move sample on the orientation. */
  function Look(o: Orientation, s: Sample, lookingSpeed: real): (r: Orientation)
    ensures r.yaw - o.yaw == -(s.dx * Sensitivity * lookingSpeed)
    ensures MinPitch <= r.pitch <= MaxPitch
    ensures var p := o.pitch - s.dy * Sensitivity * lookingSpeed;
      (MinPitch <= p <= MaxPitch ==> r.pitch == p) &&
      (p > MaxPitch ==> r.pitch == MaxPitch) &&
      (p < MinPitch ==> r.pitch == MinPitch)
  {
    Orientation(o.yaw - s.dx * Sensitivity * lookingSpeed,
                ClampPitch(o.pitch - s.dy * Sensitivity * lookingSpeed))
  }

  /** The orientation after a sequence of samples, first sample first. */
  function LookAll(o: Orientation, samples: seq<Sample>, lookingSpeed: real): Orientation
    decreases |samples|
  {
    if samples == [] then o
    else LookAll(Look(o, samples[0], lookingSpeed), samples[1..], lookingSpeed)
  }

  /** Sum of the horizontal pointer movement of a sequence of samples. */
  function SumDx(samples: seq<Sample>): real
    decreases |samples|
  {
    if samples == [] then 0.0 else samples[0].dx + SumDx(samples[1..])
  }

  /** After any sequence of samples the yaw has moved by exactly the total
      horizontal movement times the sensitivity, with no clamping, and the
      pitch lies within the clamp range once at least one sample arrived
      (or if it started there). */
  lemma {:induction false} LookAllAccumulates(o: Orientation, samples: seq<Sample>, lookingSpeed: real)
    ensures LookAll(o, samples, lookingSpeed).yaw == o.yaw - SumDx(samples) * Sensitivity * lookingSpeed
    ensures samples != [] || MinPitch <= o.pitch <= MaxPitch ==>
      MinPitch <= LookAll(o, samples, lookingSpeed).pitch <= MaxPitch
    decreases |samples|
  {
    if samples != [] {
      var o' := Look(o, samples[0], lookingSpeed);
      var rest := samples[1..];
      LookAllAccumulates(o', rest, lookingSpeed);
      var c := Sensitivity * lookingSpeed;
      calc {
        LookAll(o, samples, lookingSpeed).yaw;
        o'.yaw - SumDx(rest) * Sensitivity * lookingSpeed;
        o.yaw - samples[0].dx * c - SumDx(rest) * c;
        { assert samples[0].dx * c + SumDx(rest) * c == (samples[0].dx + SumDx(rest)) * c; }
        o.yaw - (samples[0].dx + SumDx(rest)) * c;
        o.yaw - SumDx(samples) * Sensitivity * lookingSpeed;
      }
    }
  }

  /** A sample of (100, 50) at looking speed 1 turns the yaw by -0.1 and the
      pitch by -0.05, which is inside the range whenever a quarter turn is at
      least 0.05 radians. */
  lemma LookExample()
    ensures Look(Orientation(0.0, 0.0), Sample(100.0, 50.0), 1.0).yaw == -0.1
    ensures PI05 >= 0.05 ==> Look(Orientation(0.0, 0.0), Sample(100.0, 50.0), 1.0).pitch == -0.05
  {
  }
}
