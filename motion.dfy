/** The per-tick motion step: damping of the local horizontal velocity,
    the movement direction derived from the key flags, and acceleration
    along that direction, one axis per opposing key pair. */
module Motion {
  import opened Keys

  /** A horizontal vector in the owner's local frame (its `y` is always 0:
      the controller never writes it). `z` is the depth axis, `x` the lateral. */
  datatype Planar = Planar(x: real, z: real)

  const Still: Planar := Planar(0.0, 0.0)

  function Abs(v: real): real { if v < 0.0 then -v else v }

  function Sgn(v: real): int { if v > 0.0 then 1 else if v < 0.0 then -1 else 0 }

  /** `Number(b)`: 1 for true, 0 for false. */
  function Number(b: bool): int { if b then 1 else 0 }

  /** `Number(plus) - Number(minus)`: the un-normalised direction component
      of one opposing key pair. */
  function Axis(plus: bool, minus: bool): (r: int)
    ensures -1 <= r <= 1
    ensures r == 0 <==> plus == minus
    ensures r == 1 <==> plus && !minus
    ensures r == -1 <==> !plus && minus
  {
    Number(plus) - Number(minus)
  }

  /** The un-normalised direction: depth from forward/backward, lateral
      from left/right. */
  function RawDirection(f: Flags): Planar {
    Planar(Axis(f.left, f.right) as real, Axis(f.forward, f.backward) as real)
  }

  /** What is assumed of the vector library's `normalize`: every component
      keeps its sign, so a zero component stays zero. */
  ghost predicate KeepsSigns(normalize: Planar -> Planar) {
    forall d :: Sgn(normalize(d).x) == Sgn(d.x) && Sgn(normalize(d).z) == Sgn(d.z)
  }

  /** The normalised direction has a zero component exactly where both or
      neither key of that pair is held, and otherwise points the way of the
      key that is held alone. */
  lemma DirectionSigns(f: Flags, normalize: Planar -> Planar)
    requires KeepsSigns(normalize)
    ensures var dir := normalize(RawDirection(f));
      Sgn(dir.z) == Axis(f.forward, f.backward) && Sgn(dir.x) == Axis(f.left, f.right) &&
      (dir.z == 0.0 <==> f.forward == f.backward) && (dir.x == 0.0 <==> f.left == f.right)
  {
  }

  /** `v -= v * brakingPower * delta`: proportional damping of one component.
      While the braking factor `brakingPower * delta` stays within [0, 1]
      the magnitude does not grow and the sign is kept (a factor of exactly 1
      stops the component); beyond 1 the component flips sign. */
  function Damp(v: real, brakingPower: real, delta: real): (r: real)
    ensures v == 0.0 ==> r == 0.0
    ensures 0.0 <= brakingPower * delta <= 1.0 ==> Abs(r) <= Abs(v)
    ensures 0.0 <= brakingPower * delta < 1.0 ==> Sgn(r) == Sgn(v)
    ensures brakingPower * delta == 1.0 ==> r == 0.0
    ensures brakingPower * delta > 1.0 ==> Sgn(r) == -Sgn(v)
  {
    var k := brakingPower * delta;
    assert v - v * brakingPower * delta == v * (1.0 - k);
    ShrinkBound(v, 1.0 - k);
    v - v * brakingPower * delta
  }

  /** Scaling by a factor in [0, 1] does not increase the magnitude. */
  lemma ShrinkBound(v: real, m: real)
    ensures 0.0 <= m <= 1.0 ==> Abs(v * m) <= Abs(v)
  {
  }

  /** One tick of `update`'s velocity step: damp both components, compute the
      normalised direction, and accelerate each axis only while one of its
      keys is held. The depth axis points backwards, so `forward` drives the
      depth component down. */
  function Step(v: Planar, f: Flags, acceleration: real, brakingPower: real, delta: real,
                normalize: Planar -> Planar): (r: Planar)
    requires KeepsSigns(normalize)
    ensures f.forward == f.backward ==> r.z == Damp(v.z, brakingPower, delta)
    ensures f.left == f.right ==> r.x == Damp(v.x, brakingPower, delta)
    ensures acceleration * delta > 0.0 ==>
      (f.forward && !f.backward ==> r.z < Damp(v.z, brakingPower, delta)) &&
      (!f.forward && f.backward ==> r.z > Damp(v.z, brakingPower, delta)) &&
      (f.left && !f.right ==> r.x < Damp(v.x, brakingPower, delta)) &&
      (!f.left && f.right ==> r.x > Damp(v.x, brakingPower, delta))
  {
    var damped := Planar(Damp(v.x, brakingPower, delta), Damp(v.z, brakingPower, delta));
    var dir := normalize(RawDirection(f));
    var z := if f.forward || f.backward then damped.z - dir.z * acceleration * delta else damped.z;
    var x := if f.left || f.right then damped.x - dir.x * acceleration * delta else damped.x;
    assert Sgn(dir.z) == Axis(f.forward, f.backward);
    assert Sgn(dir.x) == Axis(f.left, f.right);
    assert dir.z * acceleration * delta == dir.z * (acceleration * delta);
    assert dir.x * acceleration * delta == dir.x * (acceleration * delta);
    Planar(x, z)
  }

  /** The velocity after a run of ticks with the same key flags. */
  function Ticks(v: Planar, f: Flags, acceleration: real, brakingPower: real, deltas: seq<real>,
                 normalize: Planar -> Planar): Planar
    requires KeepsSigns(normalize)
    decreases |deltas|
  {
    if deltas == [] then v
    else Ticks(Step(v, f, acceleration, brakingPower, deltas[0], normalize), f,
               acceleration, brakingPower, deltas[1..], normalize)
  }

  /** With no key held and every braking factor in [0, 1], each horizontal
      component only shrinks in magnitude over any run of ticks and never
      changes sign: the owner coasts to a stop. */
  lemma {:induction false} CoastingDecays(v: Planar, acceleration: real, brakingPower: real,
                                          deltas: seq<real>, normalize: Planar -> Planar)
    requires KeepsSigns(normalize)
    requires forall i :: 0 <= i < |deltas| ==> 0.0 <= brakingPower * deltas[i] <= 1.0
    ensures var r := Ticks(v, Released, acceleration, brakingPower, deltas, normalize);
      Abs(r.x) <= Abs(v.x) && Abs(r.z) <= Abs(v.z) &&
      (v.x >= 0.0 ==> r.x >= 0.0) && (v.x <= 0.0 ==> r.x <= 0.0) &&
      (v.z >= 0.0 ==> r.z >= 0.0) && (v.z <= 0.0 ==> r.z <= 0.0)
    decreases |deltas|
  {
    if deltas != [] {
      var next := Step(v, Released, acceleration, brakingPower, deltas[0], normalize);
      assert 0.0 <= brakingPower * deltas[0] <= 1.0;
      CoastingDecays(next, acceleration, brakingPower, deltas[1..], normalize);
    }
  }

  /** From rest, one tick with only `forward` held at acceleration 40,
      braking power 10 and delta 0.1 gives a depth velocity of -4 (the
      normalised direction of a single axis key is the unit vector). */
  lemma ForwardFromRest(normalize: Planar -> Planar)
    requires KeepsSigns(normalize)
    requires normalize(Planar(0.0, 1.0)) == Planar(0.0, 1.0)
    ensures Step(Still, Flags(true, false, false, false), 40.0, 10.0, 0.1, normalize) == Planar(0.0, -4.0)
  {
  }
}
