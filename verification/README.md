# KUKA pick-and-place scenario controller, in Dafny

This project models the controller of a scripted pick-and-place scenario.
A simulated KUKA arm is driven by one call of `update_scenario(step)` per
physics step. The controller (`ExampleScenario` in
`Kuka_updated/scenario.py`) counts through phases 0–6:

| phase | motion |
|---|---|
| 0 | home → pre-grasp |
| 1 | pre-grasp → grasp |
| 2 | hold at grasp (cube grasped) |
| 3 | grasp → lift |
| 4 | lift → place |
| 5 | hold at place (cube released) |
| 6 | place → home |

Phase 7 is terminal. A phase ends on the first call at which its accumulated
step time reaches two seconds; the phase clock then restarts at exactly zero,
so any overshoot is dropped.
Within a phase, the target configuration is an eased blend of the phase's
two end configurations. The velocity command is the offset to the target
divided by the step, clipped to ±2 rad/s.

The model has three modules:

- `Trajectory` (`trajectory.dfy`) holds the pure arithmetic:
  - the clamped progress factor;
  - the blend `start + (end - start) * s`;
  - the key configurations that setup builds;
  - the phase-to-target table, proved to follow the route
    home → pre-grasp → grasp → grasp → lift → place → place → home;
  - the clipped velocity command.
- `Phases` (`phases.dfy`) is the state machine as functions of a `State`
  value: setup, teardown, one update (`Advance` for the state, `Update` for
  the state plus the applied action), and a run of many updates. `ValidState`
  is the invariant. The initial state, teardown and every update keep it;
  setup establishes it exactly when the robot has at most six joints. The
  lemmas about whole runs live here.
- `Controller` (`example_scenario.dfy`) is the class `ExampleScenario`. Its
  fields are updated in place, as in the source. Each method is proved to
  change the fields exactly as its `Phases` counterpart says:
  `SetupScenario` as `SetUp`, `TeardownScenario` as `TearDown`,
  `UpdateScenario` as `Update`. `ExecutePhase` returns
  `Trajectory.PhaseCommand`.

Numbers are Dafny `real`s. The easing curve `(1 - cos(t·π)) / 2` is not
computed. It is a parameter `ease` of which only the endpoint values are
known (`IsEasing`: `ease(0) = 0` and `ease(1) = 1`). The class holds it as
a constant of the subset type `Easing`.

The simulator is reduced to inputs and outputs:

- The joint positions `get_joint_positions` would read are the `current`
  parameter of an update.
- The action `apply_action` would receive is the returned `Action`, which
  holds the target positions and the velocities.
- The configuration `set_joint_positions` receives at setup is the value
  `SetupScenario` returns.
- The cube pose `get_world_pose` reports is the `worldPosition` of the
  `ObjectPrim` handed to setup.
- The call to `_update_cube_position` is the `followsCube` result.

The docstring at `Kuka_updated/scenario.py:34-43` lists six numbered steps.
The code runs seven phases (0–6, with the grasp and the release as separate
hold phases) and stops on reaching phase 7. The model follows the code.
The progress factor is clamped only from above (`min(…, 1.0)`), so a
negative phase clock gives a negative factor; the model follows the code
here too.

Two consequences of the code are proved:

- During a run the phase clock is always below the phase duration. A
  transition resets it to zero in the same call that reaches the duration.
  So the factor seen by `_execute_phase` is always below 1
  (`ProgressBelowOneWhileRunning`), and the `min` never takes effect from
  `update_scenario`.
- On a transition, the commanded target is the new phase's start
  configuration. That is the end configuration of the phase just left
  (`TransitionCommandsPhaseStart`, `TargetsContinuous`).

## Model

| member | source | states |
|---|---|---|
| `Trajectory.Progress` | Kuka_updated/scenario.py:157 | the factor is at most 1; it is non-negative when the phase clock is; it equals 1 exactly when the clock has reached the phase duration; below that it is clock / duration |
| `Trajectory.Blend` | Kuka_updated/scenario.py:205 | same length as the inputs; `start` at s = 0, `end` at s = 1, constant when start = end; for s in [0, 1] every joint lies between its start and end values |
| `Trajectory.InterpolatePositions` | Kuka_updated/scenario.py:201-205 | for any easing with the cosine's endpoint values, returns `start` at t = 0 and `end` at t = 1 |
| `Trajectory.Zeros` | Kuka_updated/scenario.py:86 | `np.zeros(n)`: n entries, all zero |
| `Trajectory.SlicePrefix` | Kuka_updated/scenario.py:89-98 | Python's `lit[:n]`: the first min(n, len) entries of the literal |
| `Trajectory.SetupPoses` | Kuka_updated/scenario.py:83-98 | home is num_dof zeros; the five configurations agree in length if and only if num_dof ≤ 6; the lift configuration equals the pre-grasp one |
| `Trajectory.Target` | Kuka_updated/scenario.py:162-185 | the target has one entry per joint; every phase outside 0–6 targets home |
| `Trajectory.TargetFollowsRoute` | Kuka_updated/scenario.py:163-183 | in phase k (0–6) the target is the blend from the k-th to the (k+1)-th configuration of the route home, pre-grasp, grasp, grasp, lift, place, place, home; the hold phases are blends of a configuration with itself |
| `Trajectory.TargetAtPhaseStart` | Kuka_updated/scenario.py:157-185 | at t = 0 the target of phase k (0–7) is the k-th route configuration |
| `Trajectory.TargetAtPhaseEnd` | Kuka_updated/scenario.py:163-183 | at t = 1 the target of phase k (0–6) is the (k+1)-th route configuration |
| `Trajectory.TargetsContinuous` | Kuka_updated/scenario.py:163-185 | for every phase number k, the target at the end of phase k equals the target at the start of phase k + 1 |
| `Trajectory.Divisor` | Kuka_updated/scenario.py:188 | `max(step, 0.001)` is at least 0.001, equals the step when the step is at least 0.001, and is never anything but the step or 0.001 |
| `Trajectory.Clip` | Kuka_updated/scenario.py:190-192 | the clipped value lies in [-2, 2], is unchanged when already inside, keeps the sign and does not grow in magnitude |
| `Trajectory.JointVelocity` | Kuka_updated/scenario.py:188-192 | one joint's command lies in [-2, 2], has the sign of the offset to the target, and times the divisor is exactly the offset when that fits within the limit |
| `Trajectory.Velocity` | Kuka_updated/scenario.py:187-192 | every commanded joint velocity lies in [-2, 2], points from the current position towards the target, and is the exact one-step velocity when that is within the limit |
| `Trajectory.PhaseCommand` | Kuka_updated/scenario.py:153-199 | the action carries one target and one velocity per joint, with every velocity within ±2 and pointing towards the target; at phase time 0 the target is the phase's start configuration |
| `Phases.Initial` | Kuka_updated/scenario.py:47-67 | the constructed controller is stopped, in phase 0, with its clock at 0 and no configurations, and satisfies the invariant |
| `Phases.SetUp` | Kuka_updated/scenario.py:69-98 | setup leaves the controller running in phase 0 with phase time 0 and the cube released; the overall time is not reset; the result satisfies the invariant if and only if num_dof ≤ 6 |
| `Phases.TearDown` | Kuka_updated/scenario.py:106-113 | teardown leaves the controller stopped, in phase 0, with both clocks at 0 and the cube released; from any state it restores the invariant |
| `Phases.Advance` | Kuka_updated/scenario.py:115-144 | a stopped controller is unchanged; a running one advances its clock by `step`; the phase advances by at most one, exactly when the phase clock plus the step reaches the duration, and then the phase clock is exactly 0; a run never restarts; stopping happens only on reaching phase 7; the invariant is preserved, including "cube held exactly in phases 2–4 of a run" |
| `Phases.Update` | Kuka_updated/scenario.py:115-151 | an action is applied exactly when the controller was running and still is after the step; the cube follows the arm exactly when an action is applied in phases 2–4; every applied velocity is within ±2; the applied action is `PhaseCommand` for the new phase and phase clock |
| `Phases.TransitionCommandsPhaseStart` | Kuka_updated/scenario.py:119-185 | a call that enters a new phase commands that phase's start configuration, whatever the step size |
| `Phases.ProgressBelowOneWhileRunning` | Kuka_updated/scenario.py:119-157 | while running, the progress factor is below 1 |
| `Phases.Run` | Kuka_updated/scenario.py:115-144 | over any sequence of steps the invariant is preserved, the phase never decreases and grows by at most the number of calls, and a stopped controller is never restarted |
| `Phases.StoppedRunIsIdle` | Kuka_updated/scenario.py:115-117 | once stopped, no sequence of calls changes anything |
| `Phases.RunStopsOnlyWhenComplete` | Kuka_updated/scenario.py:141-144 | a run that has stopped has reached phase 7, with the cube released |
| `Phases.CompletionTakesRemainingPhases` | Kuka_updated/scenario.py:119-144 | a run in phase p needs at least 7 − p calls to complete, however large the steps |
| `Phases.CompletionTakesSevenCalls` | Kuka_updated/scenario.py:119-144 | a run from phase 0 needs at least seven calls to complete, however large the steps |
| `Phases.LongStepsComplete` | Kuka_updated/scenario.py:119-144 | with every step at least the phase duration, a run in phase p with a non-negative phase clock is complete after 7 − p calls and still running after any shorter prefix of the steps |
| `Phases.GraspedExactlyInMiddlePhases` | Kuka_updated/scenario.py:76-138 | in every run started by setup (num_dof ≤ 6), the cube is held exactly when the run is in phases 2–4 |
| `Controller.ExampleScenario.constructor` | Kuka_updated/scenario.py:47-67 | the fields start in the initial state, with no handles |
| `Controller.ExampleScenario.SetupScenario` | Kuka_updated/scenario.py:69-104 | the fields become `SetUp` of their old values; the handles and initial cube position are stored; home (all zeros) is returned as the reset configuration; the object is valid afterwards if and only if num_dof ≤ 6 |
| `Controller.ExampleScenario.TeardownScenario` | Kuka_updated/scenario.py:106-113 | the fields become `TearDown` of their old values; the handles are dropped; the object is valid afterwards |
| `Controller.ExampleScenario.UpdateScenario` | Kuka_updated/scenario.py:115-151 | the new fields, the applied action and the cube-follow flag are exactly `Update` of the old fields; validity is preserved; the handles are untouched |
| `Controller.ExampleScenario.ExecutePhase` | Kuka_updated/scenario.py:153-199 | the returned action is `PhaseCommand` for the current phase and phase clock, so every velocity is within ±2 |

## Left out

- Trajectory.InterpolatePositions: states only the endpoint values. The cosine easing is not computed, so the monotonicity and the symmetry about t = 0.5 of `(1 - cos(t·π)) / 2` are not stated.
- Floating point: all arithmetic is exact real arithmetic. The comparison `_phase_time >= _phase_duration` after summing float steps, and float rounding in the blend and the division, are not modelled.
- `_update_cube_position` (`Kuka_updated/scenario.py:207-229`): its trigonometric end-effector estimate and `set_world_pose` are simulator numerics. Only the fact that it is called is modelled, as the `followsCube` result.
- Simulator calls (`get_joint_positions`, `apply_action`, `set_joint_positions`, `get_world_pose`, `ArticulationAction`) are inputs and outputs, as described above. The articulation is reduced to its joint count and the cube prim to its position.
- More than six joints: the sliced literals then have six entries while home has `num_dof`. In the source, the first update would raise a numpy shape error. The model does not describe that error path: `SetUp` then yields a state outside `ValidState`, and `Update` is specified only from valid states.
- Phases.Update and Controller.ExampleScenario.UpdateScenario: require the joint positions read from the robot to have one entry per joint. The source assumes this of the simulator and does not check it.
- The `print` logging and the empty `ScenarioTemplate` base class (`Kuka_updated/scenario.py:17-28`).
- `ui_builder.py` (UI widgets, timeline and stage events, asset loading) and `senario.py` (a sequence of simulator calls with blocking sleeps) are not part of this model.
