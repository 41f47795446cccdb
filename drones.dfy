/** The two drone classes of src/drone.py. Their state is a six-element array,
    as the numpy state vector is: the restricted drone's update makes
    `oldState` and `state` name the same array when the control is zero, and
    its in-place clipping then rewrites both. */
module Drones {
  import opened Kinematics

  /** Everything a drone holds, as a value: what the controller is shown
      and what the specification of an update talks about. */
  datatype DroneView = DroneView(
    id: int,
    state: State,
    oldState: State,
    dt: real,
    safetyRadius: real,
    refPath: seq<Vec3>,
    actualPath: seq<Vec3>)

  /** A drone whose last update left its state equal to the snapshot taken
      before that update. */
  predicate Frozen(d: DroneView)
  {
    d.state == d.oldState
  }

  /** What one update_state(u) of the restricted drone does to its value. */
  function Update(d: DroneView, u: Vec3): (r: DroneView)
    ensures InBounds(r.state)
    ensures IsZero(u) ==> r.state == Clamp(d.state) && Frozen(r)
    ensures !IsZero(u) ==> r.state == Clamp(Integrate(d.state, u, d.dt)) && r.oldState == d.state
    ensures r.actualPath == d.actualPath + [r.state.pos]
    ensures r.id == d.id && r.dt == d.dt && r.safetyRadius == d.safetyRadius
    ensures r.refPath == d.refPath
  {
    var next := if IsZero(u) then d.state else Integrate(d.state, u, d.dt);
    var s := Clamp(next);
    d.(state := s,
       oldState := if IsZero(u) then s else d.state,
       actualPath := d.actualPath + [s.pos])
  }

  /** With zero control a drone already inside the bounds keeps its state,
      and its snapshot equals it. */
  lemma FreezeInBounds(d: DroneView, u: Vec3)
    requires IsZero(u) && InBounds(d.state)
    ensures Update(d, u).state == d.state && Update(d, u).oldState == d.state
  {
  }

  /** A sequence of updates applied in order, the last one last. */
  function UpdateAll(d: DroneView, us: seq<Vec3>): DroneView
    decreases |us|
  {
    if us == [] then d else Update(UpdateAll(d, us[..|us| - 1]), us[|us| - 1])
  }

  /** However many updates a drone has received, its history has grown by
      exactly that many entries and the entries it had before are
      unchanged. */
  lemma {:induction false} HistoryGrows(d: DroneView, us: seq<Vec3>)
    ensures |UpdateAll(d, us).actualPath| == |d.actualPath| + |us|
    ensures UpdateAll(d, us).actualPath[..|d.actualPath|] == d.actualPath
    decreases |us|
  {
    if us != [] {
      HistoryGrows(d, us[..|us| - 1]);
    }
  }

  /** The k-th entry the updates add to the history is the position right
      after the k-th update. */
  lemma {:induction false} HistoryRecordsPositions(d: DroneView, us: seq<Vec3>, k: nat)
    requires k < |us|
    ensures |d.actualPath| + k < |UpdateAll(d, us).actualPath|
    ensures UpdateAll(d, us).actualPath[|d.actualPath| + k] == UpdateAll(d, us[..k + 1]).state.pos
    decreases |us|
  {
    var init := us[..|us| - 1];
    HistoryGrows(d, init);
    UpdateAllStep(d, us);
    if k == |us| - 1 {
      assert us[..k + 1] == us;
    } else {
      HistoryRecordsPositions(d, init, k);
      assert init[..k + 1] == us[..k + 1];
    }
  }

  /** The last of a sequence of updates logs the position it leaves. */
  lemma UpdateAllStep(d: DroneView, us: seq<Vec3>)
    requires |us| > 0
    ensures UpdateAll(d, us).actualPath == UpdateAll(d, us[..|us| - 1]).actualPath + [UpdateAll(d, us).state.pos]
  {
  }

  /** After one or more updates every position component lies in
      [-2.5, 2.5] and every velocity component in [-1, 1], wherever the
      drone started. */
  lemma UpdatesStayInBounds(d: DroneView, us: seq<Vec3>)
    requires |us| > 0
    ensures InBounds(UpdateAll(d, us).state)
  {
  }

  /** src/drone.py's Drone_restricted. */
  class RestrictedDrone {
    const id: int
    const dt: real
    const safetyRadius: real
    var state: array<real>
    var oldState: array<real>
    var refPath: seq<Vec3>
    var actualPath: seq<Vec3>

    ghost predicate Valid()
      reads this
    {
      state.Length == 6 && oldState.Length == 6
    }

    function View(): DroneView
      reads this, state, oldState
      requires Valid()
    {
      DroneView(id, SeqToState(state[..]), SeqToState(oldState[..]), dt, safetyRadius, refPath, actualPath)
    }

    /** The state is the position followed by the velocity, the snapshot is
        that same array, and the history and reference path are empty. */
    constructor (id: int, initialPos: Vec3, initialVel: Vec3, dt: real := 0.1, safetyRadius: real := 1.0)
      ensures Valid() && fresh(state) && oldState == state
      ensures View() == DroneView(id, State(initialPos, initialVel), State(initialPos, initialVel),
                                  dt, safetyRadius, [], [])
    {
      this.id := id;
      this.dt := dt;
      this.safetyRadius := safetyRadius;
      var s := StateToSeq(State(initialPos, initialVel));
      StateSeqRoundTrip(State(initialPos, initialVel), s);
      state := new real[6](i requires 0 <= i < 6 => s[i]);
      refPath := [];
      actualPath := [];
      new;
      oldState := state;
    }

    /** Takes the snapshot, freezes on zero control or applies A*s + B*u in
        a fresh array otherwise, clips the state in place and logs the new
        position. */
    method UpdateState(u: Vec3) returns (ok: bool)
      requires Valid()
      modifies this, state
      ensures Valid() && ok
      ensures View() == Update(old(View()), u)
      ensures IsZero(u) ==> state == old(state) && oldState == state
      ensures !IsZero(u) ==> fresh(state) && oldState == old(state)
    {
      ghost var before := View();
      oldState := state;
      if IsZero(u) {
        state := oldState;
      } else {
        var next := Propagate(state[..], Vec3ToSeq(u), dt);
        PropagateIsIntegrate(state[..], u, dt);
        state := new real[6](i requires 0 <= i < 6 => next[i]);
        assert state[..] == next;
      }
      ghost var next := SeqToState(state[..]);
      assert next == if IsZero(u) then before.state else Integrate(before.state, u, dt);
      ClipInPlace(state);
      actualPath := actualPath + [Vec3(state[0], state[1], state[2])];
      ok := true;
    }
  }

  /** The two in-place slice assignments of np.clip: positions to
      [-2.5, 2.5], then velocities to [-1, 1]. */
  method ClipInPlace(a: array<real>)
    requires a.Length == 6
    modifies a
    ensures SeqToState(a[..]) == Clamp(SeqToState(old(a[..])))
  {
    forall i | 0 <= i < 3 {
      a[i] := Clip(a[i], -PosBound, PosBound);
    }
    forall i | 3 <= i < 6 {
      a[i] := Clip(a[i], -VelBound, VelBound);
    }
  }

  /** src/drone.py's unrestricted Drone: no snapshot, no freeze, no clip. */
  class Drone {
    const id: int
    const dt: real
    const safetyRadius: real
    const varSafetyRadius: bool
    var state: array<real>
    var refPath: seq<Vec3>
    var actualPath: seq<Vec3>

    constructor (id: int, initialPos: Vec3, initialVel: Vec3, dt: real := 0.1, safetyRadius: real := 1.0)
      ensures fresh(state) && state.Length == 6 && SeqToState(state[..]) == State(initialPos, initialVel)
      ensures this.id == id && this.dt == dt && this.safetyRadius == safetyRadius
      ensures !varSafetyRadius && refPath == [] && actualPath == []
    {
      this.id := id;
      this.dt := dt;
      this.safetyRadius := safetyRadius;
      varSafetyRadius := false;
      var s := StateToSeq(State(initialPos, initialVel));
      StateSeqRoundTrip(State(initialPos, initialVel), s);
      state := new real[6](i requires 0 <= i < 6 => s[i]);
      refPath := [];
      actualPath := [];
    }

    /** Replaces the state by A*s + B*u, even for a zero control, and logs
        the new position. */
    method UpdateState(u: Vec3)
      requires state.Length == 6
      modifies this
      ensures fresh(state) && state.Length == 6
      ensures SeqToState(state[..]) == Integrate(SeqToState(old(state[..])), u, dt)
      ensures actualPath == old(actualPath) + [SeqToState(state[..]).pos]
      ensures refPath == old(refPath)
    {
      var next := Propagate(state[..], Vec3ToSeq(u), dt);
      PropagateIsIntegrate(state[..], u, dt);
      state := new real[6](i requires 0 <= i < 6 => next[i]);
      assert state[..] == next;
      actualPath := actualPath + [Vec3(state[0], state[1], state[2])];
    }
  }
}
