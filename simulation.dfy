/** src/main.py's DroneSimulation: N restricted drones, one cost list per
    drone, and T ticks, each one pass of decide-and-commit over the drones
    followed by the jam test. The drones are shared objects, as in the
    source: the "others" lists built at the start of a tick hold the same
    drones, so a drone deciding later in the tick sees the updates already
    made to the drones before it. */
module Simulation {
  import opened Kinematics
  import opened Drones
  import opened Ticks

  /** _initialize_drone: a drone at the first waypoint, moving so as to
      cover the first step of the path in 0.3 time units. */
  method InitializeDrone(path: Path, droneId: int) returns (d: RestrictedDrone)
    requires |path| >= 2
    ensures fresh(d) && fresh(d.state) && d.oldState == d.state && d.Valid()
    ensures d.View() == InitialView(path, droneId)
  {
    var vel := InitialVelocity(path);
    d := new RestrictedDrone(droneId, path[0], vel, safetyRadius := 1.0);
  }

  /** The drones of a list and the arrays they hold. */
  ghost function Objects(ds: seq<RestrictedDrone>): set<object>
    reads ds
  {
    (set i | 0 <= i < |ds| :: ds[i] as object)
      + (set i | 0 <= i < |ds| :: ds[i].state)
      + (set i | 0 <= i < |ds| :: ds[i].oldState)
  }

  /** The values of a list of drones, read from the heap. */
  function ViewsOf(ds: seq<RestrictedDrone>): (vs: seq<DroneView>)
    requires forall i :: 0 <= i < |ds| ==> ds[i].Valid()
    reads ds, Objects(ds)
    ensures |vs| == |ds| && forall i :: 0 <= i < |ds| ==> vs[i] == ds[i].View()
  {
    seq(|ds|, i requires 0 <= i < |ds| && ds[i].Valid()
                reads if 0 <= i < |ds| then {ds[i], ds[i].state, ds[i].oldState} else {} =>
      ds[i].View())
  }

  /** The world the constructor builds: drone i as _initialize_drone
      makes it for paths[i], with paths[i] as its reference path, and an
      empty cost list for each drone. */
  function InitialWorld(paths: seq<Path>): (w: World)
    requires forall i :: 0 <= i < |paths| ==> |paths[i]| >= 2
    ensures |w.drones| == |paths| && |w.costs| == |paths|
    ensures forall i :: 0 <= i < |paths| ==>
      && w.drones[i].id == i && w.drones[i].state.pos == paths[i][0]
      && w.drones[i].refPath == paths[i] && w.drones[i].actualPath == [] && w.costs[i] == []
  {
    World(seq(|paths|, i requires 0 <= i < |paths| => InitialView(paths[i], i).(refPath := paths[i])),
          seq(|paths|, i => []))
  }

  /** The drone number of each of the first n cost-bag keys. */
  ghost function KeyIndex(n: nat): (m: map<string, nat>)
    ensures forall i :: 0 <= i < n ==> CostKey(i) in m && m[CostKey(i)] == i
  {
    forall i: nat, j: nat
      ensures CostKey(i) == CostKey(j) ==> i == j
    {
      CostKeyInjective(i, j);
    }
    map i | 0 <= i < n :: CostKey(i) := i
  }

  /** Drone d, as the constructor builds it, is number i in own: it, and
      its state array, which is also its snapshot. */
  ghost predicate Born(d: RestrictedDrone, i: nat, own: map<object, nat>)
    reads d
  {
    d.Valid() && d.oldState == d.state
    && d in own && d.state in own && own[d] == i && own[d.state] == i
  }

  /** [_initialize_drone(paths[i], i) for i in range(len(paths))]: distinct
      new drones, drone i made for paths[i]. */
  method InitializeDrones(paths: seq<Path>) returns (ds: seq<RestrictedDrone>, ghost own: map<object, nat>)
    requires forall i :: 0 <= i < |paths| ==> |paths[i]| >= 2
    ensures |ds| == |paths| && forall o :: o in own ==> fresh(o)
    ensures forall i :: 0 <= i < |ds| ==> Born(ds[i], i, own) && ds[i].View() == InitialView(paths[i], i)
  {
    ds := [];
    own := map[];
    for idx := 0 to |paths|
      invariant |ds| == idx
      invariant forall o :: o in own ==> fresh(o)
      invariant forall i :: 0 <= i < idx ==>
        Born(ds[i], i, own) && ds[i].View() == InitialView(paths[i], i)
    {
      var d := InitializeDrone(paths[idx], idx);
      ds := ds + [d];
      own := own[d := idx][d.state := idx];
    }
  }

  /** The drone list of the constructor: _initialize_drone for each path,
      then each path set as that drone's reference path. */
  method BuildDrones(paths: seq<Path>) returns (ds: seq<RestrictedDrone>, ghost own: map<object, nat>)
    requires forall i :: 0 <= i < |paths| ==> |paths[i]| >= 2
    ensures |ds| == |paths| && forall o :: o in own ==> fresh(o)
    ensures forall i :: 0 <= i < |ds| ==>
      Born(ds[i], i, own) && ds[i].View() == InitialView(paths[i], i).(refPath := paths[i])
  {
    ds, own := InitializeDrones(paths);
    for idx := 0 to |paths|
      invariant forall i :: 0 <= i < |ds| ==> Born(ds[i], i, own)
      invariant forall i :: 0 <= i < |ds| ==>
        ds[i].View() == InitialView(paths[i], i).(refPath := if i < idx then paths[i] else [])
    {
      forall j | 0 <= j < |ds| && j != idx
        ensures ds[j] != ds[idx]
      {
        assert own[ds[j]] == j;
      }
      ds[idx].refPath := paths[idx];
    }
  }

  class DroneSimulation {
    const N: nat
    const T: nat
    const paths: seq<Path>
    const drones: seq<RestrictedDrone>
    var plotIdx: nat
    var costsBag: map<string, seq<real>>

    /** The cost-bag key of each drone, and the inverse of that list. */
    ghost const keys: seq<string>
    ghost const keyIndex: map<string, nat>

    /** Which drone each object belongs to: drone i, its state array and
        its snapshot array all belong to i, so no two drones share an
        object. Its keys are every object the simulation may change. */
    ghost var owner: map<object, nat>

    /** The drones and the cost lists, as values. */
    ghost var model: World

    /** N valid drones, none sharing an object with another, whose values
        are model.drones; exactly one cost-bag key per drone, holding that
        drone's list in model.costs. */
    ghost predicate Valid()
      reads this`costsBag, this`owner, this`model, drones, owner.Keys
    {
      && |drones| == N && |paths| == N && |keys| == N
      && |model.drones| == N && |model.costs| == N
      && this !in owner
      && (forall i :: 0 <= i < N ==> Owned(drones[i], i))
      && (forall i :: 0 <= i < N ==> drones[i].Valid() && drones[i].View() == model.drones[i])
      && (forall i {:trigger CostKey(i)} :: 0 <= i < N ==> keys[i] == CostKey(i))
      && (forall i :: 0 <= i < N ==>
            keys[i] in costsBag && keys[i] in keyIndex && keyIndex[keys[i]] == i && costsBag[keys[i]] == model.costs[i])
    }

    ghost predicate Owned(d: RestrictedDrone, i: nat)
      reads this`owner, d
    {
      && d in owner && d.state in owner && d.oldState in owner
      && owner[d] == i && owner[d.state] == i && owner[d.oldState] == i
    }

    /** Drone i starts as _initialize_drone builds it for paths[i], with
        paths[i] as its reference path; the cost bag has exactly the keys
        'drone_0' .. 'drone_<N-1>', each with an empty list. */
    constructor (paths: seq<Path>, T: nat := 100, N: nat := 4)
      requires |paths| == N && forall i :: 0 <= i < N ==> |paths[i]| >= 2
      ensures Valid() && fresh(owner.Keys - {this})
      ensures this.N == N && this.T == T && this.paths == paths && plotIdx == 0
      ensures model == InitialWorld(paths)
      ensures costsBag.Keys == CostKeys(N)
    {
      var ds;
      ghost var own;
      ds, own := BuildDrones(paths);
      this.N := N;
      this.T := T;
      this.paths := paths;
      drones := ds;
      owner := own;
      plotIdx := 0;
      costsBag := InitialCostsBag(N);
      keys := seq(N, i requires 0 <= i < N => CostKey(i));
      keyIndex := KeyIndex(N);
      model := InitialWorld(paths);
    }

    /** _compute_controls(t): the model advances by one Tick. */
    method ComputeControls(t: nat, mpc: Controller)
      requires Valid()
      modifies this`costsBag, this`owner, this`model, owner.Keys
      ensures Valid() && costsBag.Keys == old(costsBag.Keys)
      ensures old(owner.Keys) <= owner.Keys && fresh(owner.Keys - old(owner.Keys))
      ensures model == Tick(old(model), mpc, t) && plotIdx == old(plotIdx)
    {
      var others := seq(|drones|, i requires 0 <= i < |drones| => Others(drones, i));
      ghost var w0 := model;
      for idx := 0 to N
        invariant Valid() && costsBag.Keys == old(costsBag.Keys)
        invariant old(owner.Keys) <= owner.Keys && fresh(owner.Keys - old(owner.Keys))
        invariant model == Stage(w0, mpc, t, idx)
      {
        var me := drones[idx];
        OthersMatch(idx);
        var (u, cost) := mpc(me.View(), ViewsOf(others[idx]), t, Horizon);
        ghost var keys0 := owner.Keys;
        Commit(idx, u, cost);
        assert forall o :: o in owner.Keys && o !in keys0 ==> !old(allocated(o));
      }
    }

    /** The others list of drone idx, read from the heap, is the others
        list of the model. */
    lemma OthersMatch(idx: nat)
      requires Valid() && idx < N
      ensures ViewsOf(Others(drones, idx)) == Others(model.drones, idx)
    {
    }

    /** One pass of the loop of _compute_controls once the controller has
        answered: drone idx applies u, and cost is appended to the list
        under 'drone_' + str(idx). */
    method Commit(idx: nat, u: Vec3, cost: real)
      requires Valid() && idx < N
      modifies this`costsBag, this`owner, this`model, drones[idx], drones[idx].state
      ensures Valid() && costsBag.Keys == old(costsBag.Keys)
      ensures old(owner.Keys) <= owner.Keys && fresh(owner.Keys - old(owner.Keys))
      ensures model == World(old(model).drones[idx := Update(old(model).drones[idx], u)],
                             old(model).costs[idx := old(model).costs[idx] + [cost]])
    {
      MoveDrone(idx, u);
      var key := CostKey(idx);
      assert keys[idx] == key;
      costsBag := costsBag[key := costsBag[key] + [cost]];
      model := World(model.drones[idx := drones[idx].View()], model.costs[idx := model.costs[idx] + [cost]]);
    }

    /** Drone idx applies u; the other drones keep their values, and every
        object stays with the drone it belongs to. */
    method MoveDrone(idx: nat, u: Vec3)
      requires Valid() && idx < N
      modifies this`owner, drones[idx], drones[idx].state
      ensures old(owner.Keys) <= owner.Keys && fresh(owner.Keys - old(owner.Keys))
      ensures this !in owner
      ensures forall j :: 0 <= j < N ==> Owned(drones[j], j) && drones[j].Valid()
      ensures drones[idx].View() == Update(old(drones[idx].View()), u)
      ensures forall j :: 0 <= j < N && j != idx ==> drones[j].View() == old(drones[j].View())
    {
      var me := drones[idx];
      var _ := me.UpdateState(u);
      assert me.state == old(me.state) || me.state !in old(owner);
      owner := owner[me.state := idx];
      forall j | 0 <= j < N && j != idx
        ensures drones[j] != me && drones[j].state != old(me.state) && drones[j].oldState != old(me.state)
      {
        assert old(owner[drones[j]]) == j;
      }
    }

    /** The check_activity count of _plot_scene: the flag is raised exactly
        when every drone's state equals its snapshot element by element. */
    method CheckActivity() returns (jammed: bool)
      requires Valid()
      ensures jammed == JamFlag(model.drones)
    {
      var count: nat := 0;
      for i := 0 to N
        invariant count == FrozenCount(model.drones[..i])
      {
        StateSeqRoundTrip(SeqToState(drones[i].state[..]), drones[i].state[..]);
        StateSeqRoundTrip(SeqToState(drones[i].oldState[..]), drones[i].oldState[..]);
        if drones[i].state[..] == drones[i].oldState[..] {
          count := count + 1;
        }
        assert model.drones[..i + 1][..i] == model.drones[..i];
      }
      assert model.drones[..N] == model.drones;
      jammed := count == N;
    }

    /** _plot_scene(t) without the drawing: the jam test, and one more saved
        figure on every fifth tick. */
    method PlotScene(t: nat) returns (jammed: bool)
      requires Valid()
      modifies this`plotIdx
      ensures Valid() && model == old(model) && owner == old(owner)
      ensures jammed == JamFlag(model.drones)
      ensures plotIdx == old(plotIdx) + if t % 5 == 0 then 1 else 0
    {
      jammed := CheckActivity();
      if t % 5 == 0 {
        plotIdx := plotIdx + 1;
      }
    }

    /** run(): T ticks, each followed by the jam test; the result is the
        jam flag of every tick, in order. */
    method Run(mpc: Controller) returns (jams: seq<bool>)
      requires Valid()
      modifies this`costsBag, this`owner, this`model, this`plotIdx, owner.Keys
      ensures Valid() && fresh(owner.Keys - old(owner.Keys))
      ensures costsBag.Keys == old(costsBag.Keys)
      ensures model == RunTicks(old(model), mpc, T)
      ensures jams == JamFlags(old(model), mpc, T)
      ensures plotIdx == old(plotIdx) + (T + 4) / 5
    {
      ghost var w0 := model;
      jams := [];
      for t := 0 to T
        invariant Valid() && old(owner.Keys) <= owner.Keys && fresh(owner.Keys - old(owner.Keys))
        invariant costsBag.Keys == old(costsBag.Keys)
        invariant model == RunTicks(w0, mpc, t)
        invariant jams == JamFlags(w0, mpc, t)
        invariant plotIdx == old(plotIdx) + SavedFrames(t)
      {
        ghost var keys0 := owner.Keys;
        ComputeControls(t, mpc);
        assert forall o :: o in owner.Keys && o !in keys0 ==> !old(allocated(o));
        var jammed := PlotScene(t);
        assert model == RunTicks(w0, mpc, t + 1);
        jams := jams + [jammed];
      }
      SavedFramesCount(T);
    }
  }
}
