/** The discrete double-integrator model shared by both drone classes of
    src/drone.py: the matrices A and B built in the constructors, the product
    A*s + B*u the update applies, and the clipping of position and velocity
    that the restricted drone performs afterwards. All quantities are exact
    reals; dt = 0.1 is the rational 1/10. */
module Kinematics {

  /** A 3-vector: a position, a velocity, a waypoint or a control input. */
  datatype Vec3 = Vec3(x: real, y: real, z: real)

  /** The kinematic state; as a flat vector it is position then velocity. */
  datatype State = State(pos: Vec3, vel: Vec3)

  type Matrix = seq<seq<real>>

  /** Bounds of the restricted drone's box and speed, per axis. */
  const PosBound: real := 2.5
  const VelBound: real := 1.0

  function Add(a: Vec3, b: Vec3): Vec3
  {
    Vec3(a.x + b.x, a.y + b.y, a.z + b.z)
  }

  function Sub(a: Vec3, b: Vec3): Vec3
  {
    Vec3(a.x - b.x, a.y - b.y, a.z - b.z)
  }

  function Scale(c: real, a: Vec3): Vec3
  {
    Vec3(c * a.x, c * a.y, c * a.z)
  }

  /** numpy's (u == zeros(3)).all(). */
  predicate IsZero(u: Vec3)
  {
    u.x == 0.0 && u.y == 0.0 && u.z == 0.0
  }

  /** The 3-element array numpy holds for a vector. */
  function Vec3ToSeq(a: Vec3): (r: seq<real>)
    ensures |r| == 3
  {
    [a.x, a.y, a.z]
  }

  /** numpy.hstack([pos, vel]): the 6-element state vector. */
  function StateToSeq(s: State): (r: seq<real>)
    ensures |r| == 6
  {
    Vec3ToSeq(s.pos) + Vec3ToSeq(s.vel)
  }

  /** Reads a 6-element state vector: [:3] is the position, [3:] the velocity. */
  function SeqToState(a: seq<real>): State
    requires |a| == 6
  {
    State(Vec3(a[0], a[1], a[2]), Vec3(a[3], a[4], a[5]))
  }

  /** The state vector and the state determine each other. */
  lemma StateSeqRoundTrip(s: State, a: seq<real>)
    requires |a| == 6
    ensures SeqToState(StateToSeq(s)) == s
    ensures StateToSeq(SeqToState(a)) == a
  {
    assert StateToSeq(SeqToState(a)) == [a[0], a[1], a[2]] + [a[3], a[4], a[5]];
  }

  /** The state transition matrix [[I, dt*I], [0, I]]. */
  function TransitionMatrix(dt: real): (m: Matrix)
    ensures |m| == 6 && forall i :: 0 <= i < 6 ==> |m[i]| == 6
  {
    seq(6, i requires 0 <= i < 6 =>
      seq(6, j requires 0 <= j < 6 =>
        if i == j then 1.0 else if j == i + 3 then dt else 0.0))
  }

  /** The input matrix [[0.5*dt^2*I], [dt*I]], a 6x3 matrix. */
  function InputMatrix(dt: real): (m: Matrix)
    ensures |m| == 6 && forall i :: 0 <= i < 6 ==> |m[i]| == 3
  {
    seq(6, i requires 0 <= i < 6 =>
      seq(3, j requires 0 <= j < 3 =>
        if i < 3 && j == i then 0.5 * dt * dt
        else if 3 <= i && j == i - 3 then dt
        else 0.0))
  }

  function Dot(r: seq<real>, v: seq<real>): real
    requires |r| == |v|
    decreases |r|
  {
    if |r| == 0 then 0.0 else r[0] * v[0] + Dot(r[1..], v[1..])
  }

  function MatVec(m: Matrix, v: seq<real>): (r: seq<real>)
    requires forall i :: 0 <= i < |m| ==> |m[i]| == |v|
    ensures |r| == |m|
  {
    seq(|m|, i requires 0 <= i < |m| => Dot(m[i], v))
  }

  function VecAdd(a: seq<real>, b: seq<real>): (r: seq<real>)
    requires |a| == |b|
    ensures |r| == |a|
  {
    seq(|a|, i requires 0 <= i < |a| => a[i] + b[i])
  }

  /** The product A*s + B*u on the flat vectors, as the drones compute it. */
  function Propagate(s: seq<real>, u: seq<real>, dt: real): (r: seq<real>)
    requires |s| == 6 && |u| == 3
    ensures |r| == 6
  {
    VecAdd(MatVec(TransitionMatrix(dt), s), MatVec(InputMatrix(dt), u))
  }

  /** The double-integrator step written axis by axis: the position moves by
      the old velocity times dt plus half the control times dt squared, and
      the velocity by the control times dt. */
  function Integrate(s: State, u: Vec3, dt: real): State
  {
    State(Add(Add(s.pos, Scale(dt, s.vel)), Scale(0.5 * dt * dt, u)),
          Add(s.vel, Scale(dt, u)))
  }

  lemma DotStep(r: seq<real>, v: seq<real>, k: nat)
    requires |r| == |v| && k < |r|
    ensures Dot(r[k..], v[k..]) == r[k] * v[k] + Dot(r[k + 1..], v[k + 1..])
  {
    assert r[k..][1..] == r[k + 1..];
    assert v[k..][1..] == v[k + 1..];
  }

  lemma DotOfThree(r: seq<real>, v: seq<real>)
    requires |r| == 3 && |v| == 3
    ensures Dot(r, v) == r[0] * v[0] + r[1] * v[1] + r[2] * v[2]
  {
    assert r[0..] == r && v[0..] == v;
    DotStep(r, v, 0);
    DotStep(r, v, 1);
    DotStep(r, v, 2);
  }

  lemma DotOfSix(r: seq<real>, v: seq<real>)
    requires |r| == 6 && |v| == 6
    ensures Dot(r, v) == r[0] * v[0] + r[1] * v[1] + r[2] * v[2]
                       + r[3] * v[3] + r[4] * v[4] + r[5] * v[5]
  {
    assert r[0..] == r && v[0..] == v;
    DotStep(r, v, 0);
    DotStep(r, v, 1);
    DotStep(r, v, 2);
    DotStep(r, v, 3);
    DotStep(r, v, 4);
    DotStep(r, v, 5);
  }

  /** Row i of A*s: the component itself, plus dt times the matching
      velocity for a position component. */
  lemma TransitionRow(s: seq<real>, dt: real, i: nat)
    requires |s| == 6 && i < 6
    ensures Dot(TransitionMatrix(dt)[i], s) == if i < 3 then s[i] + dt * s[i + 3] else s[i]
  {
    var r := TransitionMatrix(dt)[i];
    DotOfSix(r, s);
    assert forall j :: 0 <= j < 6 ==> r[j] == if i == j then 1.0 else if j == i + 3 then dt else 0.0;
  }

  /** Row i of B*u: half dt squared times the control for a position
      component, dt times it for a velocity component. */
  lemma InputRow(u: seq<real>, dt: real, i: nat)
    requires |u| == 3 && i < 6
    ensures Dot(InputMatrix(dt)[i], u) == if i < 3 then 0.5 * dt * dt * u[i] else dt * u[i - 3]
  {
    var r := InputMatrix(dt)[i];
    DotOfThree(r, u);
    assert forall j :: 0 <= j < 3 ==> r[j] == if i < 3 && j == i then 0.5 * dt * dt
                                           else if 3 <= i && j == i - 3 then dt else 0.0;
  }

  /** Component i of A*s + B*u. */
  lemma PropagateAt(s: seq<real>, w: seq<real>, dt: real, i: nat)
    requires |s| == 6 && |w| == 3 && i < 6
    ensures Propagate(s, w, dt)[i] == if i < 3 then s[i] + dt * s[i + 3] + 0.5 * dt * dt * w[i]
                                      else s[i] + dt * w[i - 3]
  {
    TransitionRow(s, dt, i);
    InputRow(w, dt, i);
    assert Propagate(s, w, dt)[i] == Dot(TransitionMatrix(dt)[i], s) + Dot(InputMatrix(dt)[i], w);
  }

  /** The six components of A*s + B*u, written out. */
  lemma PropagateComponents(s: seq<real>, u: Vec3, dt: real)
    requires |s| == 6
    ensures var p := Propagate(s, Vec3ToSeq(u), dt);
      && p[0] == s[0] + dt * s[3] + 0.5 * dt * dt * u.x
      && p[1] == s[1] + dt * s[4] + 0.5 * dt * dt * u.y
      && p[2] == s[2] + dt * s[5] + 0.5 * dt * dt * u.z
      && p[3] == s[3] + dt * u.x
      && p[4] == s[4] + dt * u.y
      && p[5] == s[5] + dt * u.z
  {
    var w := Vec3ToSeq(u);
    assert w[0] == u.x && w[1] == u.y && w[2] == u.z;
    PositionComponents(s, w, dt);
    VelocityComponents(s, w, dt);
  }

  lemma PositionComponents(s: seq<real>, w: seq<real>, dt: real)
    requires |s| == 6 && |w| == 3
    ensures var p := Propagate(s, w, dt);
      && p[0] == s[0] + dt * s[3] + 0.5 * dt * dt * w[0]
      && p[1] == s[1] + dt * s[4] + 0.5 * dt * dt * w[1]
      && p[2] == s[2] + dt * s[5] + 0.5 * dt * dt * w[2]
  {
    PropagateAt(s, w, dt, 0);
    PropagateAt(s, w, dt, 1);
    PropagateAt(s, w, dt, 2);
  }

  lemma VelocityComponents(s: seq<real>, w: seq<real>, dt: real)
    requires |s| == 6 && |w| == 3
    ensures var p := Propagate(s, w, dt);
      && p[3] == s[3] + dt * w[0] && p[4] == s[4] + dt * w[1] && p[5] == s[5] + dt * w[2]
  {
    PropagateAt(s, w, dt, 3);
    PropagateAt(s, w, dt, 4);
    PropagateAt(s, w, dt, 5);
  }

  /** A state vector whose components are those of the axis-by-axis step
      reads back as that step. */
  lemma IntegrateFromComponents(s: seq<real>, u: Vec3, dt: real, p: seq<real>)
    requires |s| == 6 && |p| == 6
    requires p[0] == s[0] + dt * s[3] + 0.5 * dt * dt * u.x
    requires p[1] == s[1] + dt * s[4] + 0.5 * dt * dt * u.y
    requires p[2] == s[2] + dt * s[5] + 0.5 * dt * dt * u.z
    requires p[3] == s[3] + dt * u.x && p[4] == s[4] + dt * u.y && p[5] == s[5] + dt * u.z
    ensures SeqToState(p) == Integrate(SeqToState(s), u, dt)
  {
  }

  /** The matrix form and the axis-by-axis form of the step agree on every
      state vector, control and time step. */
  lemma PropagateIsIntegrate(s: seq<real>, u: Vec3, dt: real)
    requires |s| == 6
    ensures SeqToState(Propagate(s, Vec3ToSeq(u), dt)) == Integrate(SeqToState(s), u, dt)
  {
    PropagateComponents(s, u, dt);
    IntegrateFromComponents(s, u, dt, Propagate(s, Vec3ToSeq(u), dt));
  }

  /** numpy.clip: the minimum of the upper bound and the maximum of x and
      the lower bound. */
  function Clip(x: real, lo: real, hi: real): (r: real)
    ensures lo <= hi ==> lo <= r <= hi
    ensures lo <= x <= hi ==> r == x
    ensures x < lo <= hi ==> r == lo
    ensures lo <= hi < x ==> r == hi
  {
    var m := if x < lo then lo else x;
    if m > hi then hi else m
  }

  function ClipVec(a: Vec3, bound: real): Vec3
  {
    Vec3(Clip(a.x, -bound, bound), Clip(a.y, -bound, bound), Clip(a.z, -bound, bound))
  }

  predicate WithinBox(a: Vec3, bound: real)
  {
    -bound <= a.x <= bound && -bound <= a.y <= bound && -bound <= a.z <= bound
  }

  /** Position inside [-2.5, 2.5] and velocity inside [-1, 1] on every axis. */
  predicate InBounds(s: State)
  {
    WithinBox(s.pos, PosBound) && WithinBox(s.vel, VelBound)
  }

  /** Position clipped to [-2.5, 2.5] and velocity to [-1, 1], per axis:
      the result is within the bounds, and a state already within them is
      returned as it is. */
  function Clamp(s: State): (r: State)
    ensures InBounds(r)
    ensures InBounds(s) ==> r == s
  {
    State(ClipVec(s.pos, PosBound), ClipVec(s.vel, VelBound))
  }
}
