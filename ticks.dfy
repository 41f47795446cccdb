/** The bookkeeping of src/main.py's DroneSimulation, on values: the list of
    "other" drones each drone is shown, the keys of the cost bag, the
    sequential decide-and-commit pass over the drones that makes up one
    tick, the run of T ticks, and the "kinematically jammed" count. */
module Ticks {
  import opened Kinematics
  import opened Drones

  /** The lookahead handed to the controller on every call. */
  const Horizon: nat := 5

  /** mpc_control: the drone, the other drones, the tick and the horizon
      to a control input and its cost. Its code is not part of this model,
      so it is a parameter; it cannot change any drone, since it is a
      function of the values it is shown. */
  type Controller = (DroneView, seq<DroneView>, nat, nat) -> (Vec3, real)

  type Path = seq<Vec3>

  // ---------------------------------------------------------------------
  // Initialisation of one drone

  /** (path[1] - path[0]) / 0.3 */
  function InitialVelocity(path: Path): (v: Vec3)
    requires |path| >= 2
    ensures Add(path[0], Scale(0.3, v)) == path[1]
  {
    var d := Sub(path[1], path[0]);
    Vec3(d.x / 0.3, d.y / 0.3, d.z / 0.3)
  }

  /** The drone _initialize_drone builds for a path: it starts at the
      first waypoint with the velocity that covers the first step of the
      path in 0.3 time units, and has the default time step 0.1 and safety
      radius 1.0. */
  function InitialView(path: Path, droneId: int): (d: DroneView)
    requires |path| >= 2
    ensures d.id == droneId && d.state.pos == path[0]
    ensures Add(d.state.pos, Scale(0.3, d.state.vel)) == path[1]
    ensures d.oldState == d.state && d.dt == 0.1 && d.safetyRadius == 1.0
    ensures d.actualPath == [] && d.refPath == []
  {
    var s := State(path[0], InitialVelocity(path));
    DroneView(droneId, s, s, 0.1, 1.0, [], [])
  }

  // ---------------------------------------------------------------------
  // The "others" lists

  /** drones[:i] + drones[i+1:] */
  function Others<T>(ds: seq<T>, i: nat): (r: seq<T>)
    requires i < |ds|
    ensures |r| == |ds| - 1
    ensures forall k :: 0 <= k < |r| ==> r[k] == if k < i then ds[k] else ds[k + 1]
  {
    ds[..i] + ds[i + 1..]
  }

  /** Every drone other than the i-th is among the others, and when the
      drones are distinct the i-th one is not. */
  lemma OthersAreAllButSelf<T>(ds: seq<T>, i: nat)
    requires i < |ds|
    ensures forall j :: 0 <= j < |ds| && j != i ==> ds[j] in Others(ds, i)
    ensures (forall a, b :: 0 <= a < b < |ds| ==> ds[a] != ds[b]) ==> ds[i] !in Others(ds, i)
  {
    var r := Others(ds, i);
    forall j | 0 <= j < |ds| && j != i
      ensures ds[j] in r
    {
      var k := if j < i then j else j - 1;
      assert r[k] == ds[j];
    }
    if forall a, b :: 0 <= a < b < |ds| ==> ds[a] != ds[b] {
      forall k | 0 <= k < |r|
        ensures r[k] != ds[i]
      {
        if k < i {
          assert r[k] == ds[k];
        } else {
          assert r[k] == ds[k + 1];
        }
      }
    }
  }

  // ---------------------------------------------------------------------
  // Keys of the cost bag: 'drone_' + str(i)

  function DigitChar(d: nat): char
    requires d < 10
  {
    (48 + d) as char
  }

  /** Python's str(n) for a natural number: its decimal digits, without
      leading zeros. */
  function DecimalString(n: nat): (s: string)
    ensures |s| >= 1
    ensures n < 10 <==> |s| == 1
    decreases n
  {
    if n < 10 then [DigitChar(n)] else DecimalString(n / 10) + [DigitChar(n % 10)]
  }

  /** Different numbers have different decimal strings. */
  lemma {:induction false} DecimalStringInjective(a: nat, b: nat)
    requires DecimalString(a) == DecimalString(b)
    ensures a == b
    decreases a
  {
    var s := DecimalString(a);
    if a >= 10 {
      assert b >= 10;
      assert DigitChar(a % 10) == s[|s| - 1] == DigitChar(b % 10);
      assert DecimalString(a / 10) == s[..|s| - 1] == DecimalString(b / 10);
      DecimalStringInjective(a / 10, b / 10);
    } else {
      assert b < 10;
      assert DigitChar(a) == s[0] == DigitChar(b);
    }
  }

  function CostKey(i: nat): (k: string)
    ensures |k| > 6 && k[..6] == "drone_"
  {
    "drone_" + DecimalString(i)
  }

  /** Different drones have different cost-bag keys, so appending one
      drone's cost never touches another drone's list. */
  lemma CostKeyInjective(i: nat, j: nat)
    ensures CostKey(i) == CostKey(j) ==> i == j
  {
    if CostKey(i) == CostKey(j) {
      assert DecimalString(i) == CostKey(i)[6..] == CostKey(j)[6..] == DecimalString(j);
      DecimalStringInjective(i, j);
    }
  }

  ghost function CostKeys(n: nat): set<string>
  {
    set i | 0 <= i < n :: CostKey(i)
  }

  /** dict(zip(['drone_' + str(i) for i in range(n)], [[] for i in range(n)])):
      exactly the n keys, each with an empty list. */
  function InitialCostsBag(n: nat): (m: map<string, seq<real>>)
    ensures m.Keys == CostKeys(n)
    ensures forall i :: 0 <= i < n ==> CostKey(i) in m && m[CostKey(i)] == []
  {
    map i | 0 <= i < n :: CostKey(i) := []
  }

  // ---------------------------------------------------------------------
  // One tick

  /** The drones and the cost lists, one list per drone, in drone order. */
  datatype World = World(drones: seq<DroneView>, costs: seq<seq<real>>)

  /** The controller's answer for drone idx, shown the drones as they
      stand. */
  function Decide(vs: seq<DroneView>, idx: nat, mpc: Controller, t: nat): (Vec3, real)
    requires idx < |vs|
  {
    mpc(vs[idx], Others(vs, idx), t, Horizon)
  }

  /** The world after drones 0..k-1 have each decided, committed and had
      their cost appended, in that order. */
  function Stage(w: World, mpc: Controller, t: nat, k: nat): (r: World)
    requires |w.costs| == |w.drones| && k <= |w.drones|
    ensures |r.drones| == |w.drones| && |r.costs| == |w.costs|
  {
    if k == 0 then w
    else
      var prev := Stage(w, mpc, t, k - 1);
      var (u, cost) := Decide(prev.drones, k - 1, mpc, t);
      World(prev.drones[k - 1 := Update(prev.drones[k - 1], u)],
            prev.costs[k - 1 := prev.costs[k - 1] + [cost]])
  }

  /** The control and cost drone idx is given in the tick. */
  function ControlOf(w: World, mpc: Controller, t: nat, idx: nat): (Vec3, real)
    requires |w.costs| == |w.drones| && idx < |w.drones|
  {
    Decide(Stage(w, mpc, t, idx).drones, idx, mpc, t)
  }

  /** _compute_controls(t). */
  function Tick(w: World, mpc: Controller, t: nat): (r: World)
    requires |w.costs| == |w.drones|
    ensures |r.drones| == |w.drones| && |r.costs| == |w.costs|
  {
    Stage(w, mpc, t, |w.drones|)
  }

  /** Drone j is committed exactly once in a tick, at step j: after steps
      0..k-1 it and its cost list are as step j left them if j < k, and as
      they were before the tick otherwise. */
  lemma {:induction false} StageCommitsInOrder(w: World, mpc: Controller, t: nat, k: nat, j: nat)
    requires |w.costs| == |w.drones| && k <= |w.drones| && j < |w.drones|
    ensures Stage(w, mpc, t, k).drones[j] == if j < k then Stage(w, mpc, t, j + 1).drones[j] else w.drones[j]
    ensures Stage(w, mpc, t, k).costs[j] == if j < k then Stage(w, mpc, t, j + 1).costs[j] else w.costs[j]
    decreases k
  {
    if k > 0 && k != j + 1 {
      StageCommitsInOrder(w, mpc, t, k - 1, j);
    }
  }

  /** When drone idx decides, it and every drone after it still hold their
      state from before the tick, and every drone before it already holds
      the state it ends the tick with. */
  lemma ControllerSeesSequentialState(w: World, mpc: Controller, t: nat, idx: nat)
    requires |w.costs| == |w.drones| && idx < |w.drones|
    ensures forall m :: 0 <= m < |w.drones| ==>
      Stage(w, mpc, t, idx).drones[m] == if m < idx then Tick(w, mpc, t).drones[m] else w.drones[m]
  {
    forall m | 0 <= m < |w.drones|
      ensures Stage(w, mpc, t, idx).drones[m] == if m < idx then Tick(w, mpc, t).drones[m] else w.drones[m]
    {
      StageCommitsInOrder(w, mpc, t, idx, m);
      StageCommitsInOrder(w, mpc, t, |w.drones|, m);
    }
  }

  /** In a tick every drone j receives exactly one update, whose control is
      the one the controller chose when shown drones 0..j-1 already
      updated, and exactly one cost, the one returned with that control, is
      appended to drone j's list. */
  lemma TickUpdatesEachDroneOnce(w: World, mpc: Controller, t: nat, j: nat)
    requires |w.costs| == |w.drones| && j < |w.drones|
    ensures Tick(w, mpc, t).drones[j] == Update(w.drones[j], ControlOf(w, mpc, t, j).0)
    ensures Tick(w, mpc, t).costs[j] == w.costs[j] + [ControlOf(w, mpc, t, j).1]
  {
    StageCommitsInOrder(w, mpc, t, |w.drones|, j);
    StageCommitsInOrder(w, mpc, t, j, j);
  }

  /** After a tick every drone is within the position and velocity bounds,
      has logged exactly one more position, the position it now holds, and
      has one more cost; its identity, time step, radius and reference path
      are unchanged. */
  lemma TickEffects(w: World, mpc: Controller, t: nat)
    requires |w.costs| == |w.drones|
    ensures forall j :: 0 <= j < |w.drones| ==>
      var d, d' := w.drones[j], Tick(w, mpc, t).drones[j];
      && InBounds(d'.state)
      && d'.actualPath == d.actualPath + [d'.state.pos]
      && |Tick(w, mpc, t).costs[j]| == |w.costs[j]| + 1
      && d'.id == d.id && d'.dt == d.dt && d'.safetyRadius == d.safetyRadius && d'.refPath == d.refPath
  {
    forall j | 0 <= j < |w.drones|
      ensures var d, d' := w.drones[j], Tick(w, mpc, t).drones[j];
        && InBounds(d'.state)
        && d'.actualPath == d.actualPath + [d'.state.pos]
        && |Tick(w, mpc, t).costs[j]| == |w.costs[j]| + 1
        && d'.id == d.id && d'.dt == d.dt && d'.safetyRadius == d.safetyRadius && d'.refPath == d.refPath
    {
      TickUpdatesEachDroneOnce(w, mpc, t, j);
    }
  }

  // ---------------------------------------------------------------------
  // The jam test of _plot_scene

  /** How many drones hold a state equal to their snapshot. */
  function FrozenCount(vs: seq<DroneView>): (n: nat)
    ensures n <= |vs|
    decreases |vs|
  {
    if vs == [] then 0
    else FrozenCount(vs[..|vs| - 1]) + if Frozen(vs[|vs| - 1]) then 1 else 0
  }

  /** check_activity == N: "KINEMATICALLY JAMMED!". */
  predicate JamFlag(vs: seq<DroneView>)
  {
    FrozenCount(vs) == |vs|
  }

  /** The jam flag is raised exactly when every drone's state equals its
      snapshot. */
  lemma {:induction false} JamFlagIffAllFrozen(vs: seq<DroneView>)
    ensures JamFlag(vs) <==> forall i :: 0 <= i < |vs| ==> Frozen(vs[i])
    decreases |vs|
  {
    if vs != [] {
      var init := vs[..|vs| - 1];
      JamFlagIffAllFrozen(init);
      assert forall i :: 0 <= i < |init| ==> init[i] == vs[i];
    }
  }

  /** If every drone is given the zero control in a tick, the jam flag is
      raised after it, and every drone that started the tick within the
      bounds ends it with exactly the state it had. */
  lemma ZeroControlsJam(w: World, mpc: Controller, t: nat)
    requires |w.costs| == |w.drones|
    requires forall j :: 0 <= j < |w.drones| ==> IsZero(ControlOf(w, mpc, t, j).0)
    ensures JamFlag(Tick(w, mpc, t).drones)
    ensures forall j :: 0 <= j < |w.drones| && InBounds(w.drones[j].state) ==>
      Tick(w, mpc, t).drones[j].state == w.drones[j].state
  {
    var r := Tick(w, mpc, t);
    forall j | 0 <= j < |w.drones|
      ensures Frozen(r.drones[j])
      ensures InBounds(w.drones[j].state) ==> r.drones[j].state == w.drones[j].state
    {
      TickUpdatesEachDroneOnce(w, mpc, t, j);
    }
    JamFlagIffAllFrozen(r.drones);
  }

  // ---------------------------------------------------------------------
  // The run

  /** The world after ticks 0..n-1. */
  function RunTicks(w: World, mpc: Controller, n: nat): (r: World)
    requires |w.costs| == |w.drones|
    ensures |r.drones| == |w.drones| && |r.costs| == |w.costs|
    decreases n
  {
    if n == 0 then w else Tick(RunTicks(w, mpc, n - 1), mpc, n - 1)
  }

  /** The jam flag shown after each of ticks 0..n-1. */
  function JamFlags(w: World, mpc: Controller, n: nat): (flags: seq<bool>)
    requires |w.costs| == |w.drones|
    ensures |flags| == n
    decreases n
  {
    if n == 0 then [] else JamFlags(w, mpc, n - 1) + [JamFlag(RunTicks(w, mpc, n).drones)]
  }

  /** The flag for tick t is the jam test of the world right after that
      tick. */
  lemma {:induction false} JamFlagsAt(w: World, mpc: Controller, n: nat, t: nat)
    requires |w.costs| == |w.drones| && t < n
    ensures JamFlags(w, mpc, n)[t] == JamFlag(RunTicks(w, mpc, t + 1).drones)
    decreases n
  {
    if t < n - 1 {
      JamFlagsAt(w, mpc, n - 1, t);
    }
  }

  /** After n ticks every drone has logged n more positions and has n more
      costs in its list, and after at least one tick every drone is within
      the bounds. */
  lemma {:induction false} RunLengths(w: World, mpc: Controller, n: nat)
    requires |w.costs| == |w.drones|
    ensures forall j :: 0 <= j < |w.drones| ==>
      && |RunTicks(w, mpc, n).drones[j].actualPath| == |w.drones[j].actualPath| + n
      && |RunTicks(w, mpc, n).costs[j]| == |w.costs[j]| + n
      && (n > 0 ==> InBounds(RunTicks(w, mpc, n).drones[j].state))
    decreases n
  {
    if n > 0 {
      RunLengths(w, mpc, n - 1);
      TickEffects(RunTicks(w, mpc, n - 1), mpc, n - 1);
    }
  }

  // ---------------------------------------------------------------------
  // The figure counter of _plot_scene

  /** How many of ticks 0..n-1 save a figure: those whose number is a
      multiple of 5. */
  function SavedFrames(n: nat): nat
    decreases n
  {
    if n == 0 then 0 else SavedFrames(n - 1) + if (n - 1) % 5 == 0 then 1 else 0
  }

  /** A run of n ticks saves a figure at ticks 0, 5, 10, ..., that is
      ceiling(n / 5) of them. */
  lemma {:induction false} SavedFramesCount(n: nat)
    ensures SavedFrames(n) == (n + 4) / 5
    decreases n
  {
    if n > 0 {
      SavedFramesCount(n - 1);
    }
  }
}
