# Drone jam simulation: kinematics and tick bookkeeping

A Dafny model of the core of a small multi-drone simulation. Each drone is a
discrete double integrator with time step 0.1. A drone's state is a
six-element array: position, then velocity. The restricted drone works as
follows:

- it snapshots its state;
- it freezes on an exactly-zero control, and otherwise computes `A*s + B*u`
  into a new array;
- it clips position to [-2.5, 2.5] and velocity to [-1, 1] in place;
- it logs the new position.

The simulation holds N such drones. In each tick it builds, for every drone,
the list of the other drones. It then lets an abstract model-predictive
controller choose each drone's control in index order. Each drone is updated
as soon as its control is chosen, and the controller's cost goes into a cost
bag keyed `drone_<i>`. After the pass, the jam test counts the drones whose
state equals their snapshot.

Files:

- `kinematics.dfy` (module `Kinematics`): the state vector, the matrices A
  and B, the product `A*s + B*u`, and its per-axis closed form. Also numpy's
  clip and the bounds.
- `drones.dfy` (module `Drones`): the classes `RestrictedDrone` and `Drone`.
  Their state is an `array<real>`, so the zero-control aliasing of the
  snapshot and the state is reproduced. The value `DroneView` and the
  function `Update` specify one update.
- `ticks.dfy` (module `Ticks`): the value-level simulation. It covers drone
  initialisation, the others lists and the cost-bag keys. `Stage`, `Tick`
  and `RunTicks` describe the sequential decide-and-commit pass. It also has
  the jam flag and the figure counter.
- `simulation.dfy` (module `Simulation`): the class `DroneSimulation`. Its
  methods are proved against the functions of `Ticks` through a ghost
  `model` that `Valid()` ties to the heap.

The controller is a parameter of type
`(DroneView, seq<DroneView>, nat, nat) -> (Vec3, real)`. It is called with
the horizon 5.

## Model

| member | source | states |
|---|---|---|
| Kinematics.StateSeqRoundTrip | src/drone.py:65 | The six-element `hstack([pos, vel])` vector and the (position, velocity) pair determine each other: reading back a written state gives it back, and writing a read vector gives the vector back. |
| Kinematics.TransitionMatrix | src/drone.py:68-71 | `A` is 6x6; `TransitionRow` shows that row i picks component i, plus dt times the matching velocity for a position row. |
| Kinematics.TransitionRow | src/drone.py:68-71 | Row i of `A*s` is `s[i] + dt*s[i+3]` for a position component and `s[i]` for a velocity component. |
| Kinematics.InputMatrix | src/drone.py:73-76 | `B` is 6x3; `InputRow` shows that row i contributes `dt^2/2*u[i]` to a position component and `dt*u[i-3]` to a velocity component. |
| Kinematics.InputRow | src/drone.py:73-76 | Row i of `B*u` is `0.5*dt^2*u[i]` for a position component and `dt*u[i-3]` for a velocity component. |
| Kinematics.Propagate | src/drone.py:46 | `A @ state + B @ u` is again a six-element state vector; `PropagateIsIntegrate` gives its per-axis closed form. |
| Kinematics.PropagateIsIntegrate | src/drone.py:68-76 | For every state, control and time step, `A*s + B*u` with A and B as built moves the position by `dt*v + dt^2/2*u` using the old velocity, and the velocity by `dt*u`. |
| Kinematics.IsZero | src/drone.py:88 | `(u == np.zeros(3)).all()`; `Drones.Update`, `Drones.FreezeInBounds` and `Ticks.ZeroControlsJam` say what a zero control does. |
| Kinematics.Clip | src/drone.py:93-94 | numpy's clip lands in `[lo, hi]`, leaves a value already inside unchanged, and sends a value below to `lo` and a value above to `hi`. |
| Kinematics.Clamp | src/drone.py:93-94 | The clipped state is always within the position and velocity bounds, and a state already within them is returned unchanged. |
| Drones.ClipInPlace | src/drone.py:93-94 | The two in-place slice clips leave the array holding exactly the clamp of its previous contents. |
| Drones.Update | src/drone.py:84-98 | One update's effect, stated case by case. The new state is always within bounds. With zero control it is the clamp of the old state, and the snapshot equals it. Otherwise it is the clamp of the integrator step, and the snapshot is the state before the call. The history gains the new position. Id, dt, radius and reference path are unchanged. |
| Drones.FreezeInBounds | src/drone.py:86-89 | With zero control, a drone within the bounds keeps exactly its state, and its snapshot equals it. |
| Drones.HistoryGrows | src/drone.py:96 | After any number of updates, the history has grown by exactly that many entries, and the earlier entries are unchanged. |
| Drones.HistoryRecordsPositions | src/drone.py:96 | The k-th entry the updates add is the position right after the k-th update. |
| Drones.UpdatesStayInBounds | src/drone.py:93-94 | After at least one update, the restricted drone is within the bounds, wherever it started. |
| Drones.RestrictedDrone.constructor | src/drone.py:62-82 | The state is a new array holding the initial position and velocity. The snapshot is that same array. The history and reference path are empty, and id, dt and radius are as given. |
| Drones.RestrictedDrone.UpdateState | src/drone.py:84-98 | The heap-level update does what `Update` says, and always returns true. With zero control the state stays the same array, and the snapshot aliases it. Otherwise the state is a new array, and the snapshot is the old one. |
| Drones.Drone.constructor | src/drone.py:23-42 | The state is a new array holding the initial position and velocity. The history and reference path are empty, and the radius is not variable. |
| Drones.Drone.UpdateState | src/drone.py:44-47 | The unrestricted drone applies the integrator step even for zero control, with no freeze and no clip, into a new array. It logs the new position. |
| Ticks.InitialVelocity | src/main.py:78 | Moving from the first waypoint at velocity `(path[1] - path[0]) / 0.3` for 0.3 time units reaches the second waypoint. |
| Ticks.InitialView | src/main.py:78-79 | Drone `drone_id` starts at the path's first point with radius 1.0 and dt 0.1. Moving at its velocity for 0.3 reaches the second point. Its snapshot is its state, and its history is empty. |
| Ticks.Others | src/main.py:139 | `drones[:i] + drones[i+1:]` has one element fewer than the list. Its element k is drone k before i and drone k+1 from i on. |
| Ticks.OthersAreAllButSelf | src/main.py:139 | Every drone except the i-th is among the others of i, and when the drones are distinct the i-th is not. |
| Ticks.CostKey | src/main.py:55 | A cost-bag key is `drone_` followed by at least one character, the decimal index; `CostKeyInjective` shows different drones get different keys. |
| Ticks.DecimalString | src/main.py:55 | `str(n)` is never empty, and has one character exactly when n < 10. |
| Ticks.DecimalStringInjective | src/main.py:55 | Different numbers have different decimal strings. |
| Ticks.CostKeyInjective | src/main.py:55 | Different drones have different `'drone_' + str(i)` keys. |
| Ticks.InitialCostsBag | src/main.py:55-57 | The cost bag has exactly the keys of drones 0..n-1, each holding an empty list. |
| Ticks.Decide | src/main.py:141 | The call `mpc_control(drones[idx], others[idx], t, 5)` on the current values; `ControllerSeesSequentialState` says which drones are already updated when it is made. |
| Ticks.Stage | src/main.py:140-143 | The world after the first k passes of the loop keeps one drone and one cost list per drone; `StageCommitsInOrder` says which drones those passes changed and how. |
| Ticks.Tick | src/main.py:139-143 | One `_compute_controls(t)` keeps one drone and one cost list per drone; `TickUpdatesEachDroneOnce` and `TickEffects` give each drone's result. |
| Ticks.StageCommitsInOrder | src/main.py:140-143 | Partway through a tick, drone j and its cost list are as step j left them if step j has run, and as before the tick otherwise. |
| Ticks.ControllerSeesSequentialState | src/main.py:139-142 | When drone idx's control is chosen, drones before idx already hold their end-of-tick values. Drone idx and the drones after it still hold their values from before the tick. |
| Ticks.TickUpdatesEachDroneOnce | src/main.py:140-143 | During a tick, each drone is updated exactly once, with the control chosen at its turn. Exactly the cost returned with that control is appended to its list. |
| Ticks.TickEffects | src/main.py:140-143 | After a tick, every drone is within the bounds, has logged one more position (the one it now holds), and has one more cost. Its id, dt, radius and reference path are unchanged. |
| Ticks.FrozenCount | src/main.py:183-186 | The jam count never exceeds the number of drones. |
| Ticks.JamFlag | src/main.py:187 | `check_activity == N`; `JamFlagIffAllFrozen` shows it holds exactly when every drone's state equals its snapshot. |
| Ticks.JamFlagIffAllFrozen | src/main.py:183-188 | The jam flag holds if and only if every drone's state equals its snapshot. |
| Ticks.ZeroControlsJam | src/main.py:183-188 | If every drone gets zero control in a tick, the jam flag holds afterwards. Every drone that started the tick within the bounds ends it with exactly the same state. |
| Ticks.RunTicks | src/main.py:203-205 | The world after ticks 0..n-1 keeps one drone and one cost list per drone; `RunLengths` gives the lengths and bounds after n ticks. |
| Ticks.JamFlags | src/main.py:203-205 | There is one jam flag per tick run; `JamFlagsAt` says which world each flag tests. |
| Ticks.JamFlagsAt | src/main.py:203-205 | The jam flag reported for tick t is the jam test of the world right after tick t. |
| Ticks.RunLengths | src/main.py:203-205 | After n ticks every drone has logged n more positions and holds n more costs. After at least one tick every drone is within the bounds. |
| Ticks.SavedFramesCount | src/main.py:193-195 | A run of n ticks saves figures at ticks 0, 5, 10, …, which is ceiling(n/5) figures. |
| Simulation.InitializeDrone | src/main.py:78-79 | `_initialize_drone` returns a new valid drone whose value is `InitialView`: first point, velocity (p1 - p0)/0.3, radius 1.0. |
| Simulation.InitialWorld | src/main.py:53-60 | One drone and one cost list per path. Drone i has id i, starts at the first point of path i, has path i as its reference path and an empty history. Its cost list is empty. |
| Simulation.InitializeDrones | src/main.py:53 | The drone list has one new drone per path, drone i made for path i. No two drones share an object. |
| Simulation.BuildDrones | src/main.py:53-60 | After the reference paths are set, drone i is `InitialView(paths[i], i)` with `paths[i]` as its reference path. |
| Simulation.DroneSimulation.constructor | src/main.py:44-60 | The drones are `InitialWorld(paths)`: drone i is as `_initialize_drone` builds it, with `ref_path` set to its path. The cost bag has exactly the keys `drone_0`..`drone_<N-1>` with empty lists. The figure counter is 0, and `N`, `T` and the paths are as given. |
| Simulation.DroneSimulation.OthersMatch | src/main.py:139-141 | The others list of drone idx, read from the heap, is the others list of the model. |
| Simulation.DroneSimulation.MoveDrone | src/main.py:142 | Drone idx moves as `Update` says, and every other drone keeps its value. |
| Simulation.DroneSimulation.Commit | src/main.py:142-143 | Drone idx's value becomes `Update(old, u)`, and `cost` is appended to its list and no other. The bag's keys and the other drones are unchanged. |
| Simulation.DroneSimulation.ComputeControls | src/main.py:139-143 | One `_compute_controls(t)` advances the model by exactly one `Tick`, keeping the invariant and the bag's keys. |
| Simulation.DroneSimulation.CheckActivity | src/main.py:183-188 | The counting loop raises the flag exactly when `JamFlag` holds for the drones' current values. |
| Simulation.DroneSimulation.PlotScene | src/main.py:183-195 | `_plot_scene(t)` without drawing changes no drone. It returns the jam flag and adds 1 to the figure counter exactly when t is a multiple of 5. |
| Simulation.DroneSimulation.Run | src/main.py:199-205 | After `run()` the model is `RunTicks(old model, T)`, the cost bag has the same keys as before, the jam flags are those of each tick in order, and the figure counter has grown by ceiling(T/5). |

## Left out

- `generate_drone_paths` and `src/path_generator.py` are not part of this model. They use random sampling and Euclidean norms. The paths are a constructor parameter, each with at least two points.
- `mpc_control` is not part of this model, since its source is `mpc.py`. It is an arbitrary function parameter, called with the horizon 5; no property of its cost or search is assumed.
- The pairwise distance loop of `_plot_scene` is left out, because its violation test is commented out. All other plotting is left out too: figures, `savefig`, `plt.show`, labels, colours and `src/safety.py`. Only the jam count and the figure counter `plot_idx` are modelled.
- `configure_plt` and the `__main__` blocks of both files are left out. They perform I/O and run a scenario.
- Floating point: all arithmetic is on exact reals, with dt = 1/10. numpy rounding is not modelled.
- `ref_path = None` is represented by the empty path.
- The matrices `A` and `B` are not stored as drone fields. They are the fixed functions `TransitionMatrix(dt)` and `InputMatrix(dt)`, since the code never changes them.
- The controller is shown the drones as values (`DroneView`). The drones in the source are live objects, and the model likewise re-reads them at the moment of the call. The other lists hold references to the live drones, so drone idx sees drones 0..idx-1 already updated.
- `BuildDrones` sets the reference paths before the cost bag is created. The source does this after, but the two steps touch disjoint state, so the order is not observable.
- Drones.FreezeInBounds: stated only for drones already within the bounds. Outside them, a zero control still clamps the state, as `Update` states.
