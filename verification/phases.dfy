/**
  The phase state machine of the pick-and-place scenario, as a function of
  the controller's state and the time step of one physics callback:
  setup, teardown, one update, and a run of many updates.
 */
module Phases {
  import opened Trajectory

  datatype Option<T> = None | Some(value: T)

  /**
    What the controller keeps between callbacks: `_running_scenario`,
    `_time`, `_phase`, `_phase_time`, `_cube_grasped` and the key
    configurations (absent until the first setup).
   */
  datatype State = State(
    running: bool,
    time: real,
    phase: int,
    phaseTime: real,
    cubeGrasped: bool,
    poses: Option<KeyPoses>)

  /**
    The states the controller can be in. A running controller is in one of
    phases 0-6, has spent less than a phase duration in it and holds
    configurations of one length; a stopped one is either fresh or torn down
    (phase 0) or complete (phase 7); the cube is held exactly during phases
    2-4 of a run.
   */
  predicate ValidState(s: State) {
    && 0 <= s.phase <= FinalPhase
    && (s.running ==>
          s.phase < FinalPhase && s.phaseTime < PhaseDuration
          && s.poses.Some? && s.poses.value.Uniform())
    && (!s.running ==> s.phaseTime == 0.0 && (s.phase == 0 || s.phase == FinalPhase))
    && (s.cubeGrasped <==> s.running && 2 <= s.phase <= 4)
  }

  /** The state a freshly constructed controller starts in. */
  function Initial(): (s: State)
    ensures ValidState(s)
    ensures !s.running && s.phase == 0 && s.time == 0.0 && s.poses.None?
  {
    State(false, 0.0, 0, 0.0, false, None)
  }

  /**
    `setup_scenario` for a robot with `numDof` joints: a run starts in
    phase 0 with the clock of the phase at zero and the cube released; the
    overall clock is kept. The result is a valid state exactly when the
    configurations agree in length, that is when there are at most six joints.
   */
  function SetUp(s: State, numDof: nat): (s': State)
    ensures s'.running && s'.phase == 0 && s'.phaseTime == 0.0 && !s'.cubeGrasped
    ensures s'.time == s.time
    ensures s'.poses == Some(SetupPoses(numDof))
    ensures ValidState(s') <==> numDof <= 6
  {
    State(true, s.time, 0, 0.0, false, Some(SetupPoses(numDof)))
  }

  /**
    `teardown_scenario`: every clock back to zero, phase 0, stopped, cube
    released; the configurations are left as they were. Valid from any state.
   */
  function TearDown(s: State): (s': State)
    ensures ValidState(s')
    ensures !s'.running && s'.phase == 0 && s'.time == 0.0 && !s'.cubeGrasped
    ensures s'.poses == s.poses
  {
    State(false, 0.0, 0, 0.0, false, s.poses)
  }

  /**
    The state part of `update_scenario`: nothing changes when stopped;
    otherwise both clocks advance by `step`, and when the phase clock has
    reached the phase duration the phase moves on by one and its clock
    restarts at zero. Entering phase 2 grasps the cube, entering phase 5
    releases it, and reaching phase 7 stops the run.
   */
  function Advance(s: State, step: real): (s': State)
    ensures !s.running ==> s' == s
    ensures s'.running ==> s.running
    ensures s'.poses == s.poses
    ensures s.running ==> s'.time == s.time + step
    ensures s'.phase == s.phase || s'.phase == s.phase + 1
    ensures s'.phase == s.phase + 1 <==> s.running && s.phaseTime + step >= PhaseDuration
    ensures s'.phase != s.phase ==> s'.phaseTime == 0.0
    ensures s'.phase == s.phase ==> s'.phaseTime == if s.running then s.phaseTime + step else s.phaseTime
    ensures s.running && !s'.running ==> s'.phase >= FinalPhase
    ensures ValidState(s) ==> ValidState(s')
  {
    if !s.running then s
    else
      var time := s.time + step;
      var phaseTime := s.phaseTime + step;
      if phaseTime >= PhaseDuration then
        var phase := s.phase + 1;
        if phase == 2 then
          s.(time := time, phase := phase, phaseTime := 0.0, cubeGrasped := true)
        else if phase == 5 then
          s.(time := time, phase := phase, phaseTime := 0.0, cubeGrasped := false)
        else if phase >= FinalPhase then
          s.(time := time, phase := phase, phaseTime := 0.0, running := false)
        else
          s.(time := time, phase := phase, phaseTime := 0.0)
      else
        s.(time := time, phaseTime := phaseTime)
  }

  /**
    What one call of `update_scenario` produces: the next state, the action
    applied to the robot (if any), and whether the cube is moved to follow
    the end effector.
   */
  datatype Outcome = Outcome(next: State, action: Option<Action>, followsCube: bool)

  /**
    `update_scenario`: advance the state; if the run is still going, apply
    the action of the current phase, computed from the joint positions
    `current` read from the robot, and move the cube along while it is held.
   */
  function Update(s: State, step: real, current: JointVector, ease: real -> real): (r: Outcome)
    requires ValidState(s)
    requires s.running ==> |current| == |s.poses.value.home|
    ensures r.next == Advance(s, step)
    ensures r.action.Some? <==> s.running && r.next.running
    ensures r.followsCube <==> r.action.Some? && 2 <= r.next.phase <= 4
    ensures r.action.Some? ==>
              && |r.action.value.jointPositions| == |current|
              && |r.action.value.jointVelocities| == |current|
              && forall i :: 0 <= i < |current| ==>
                   -MaxVelocity <= r.action.value.jointVelocities[i] <= MaxVelocity
    ensures r.action.Some? ==>
              r.action.value == PhaseCommand(r.next.phase, r.next.phaseTime, r.next.poses.value, ease, current, step)
  {
    var s' := Advance(s, step);
    if !s.running || !s'.running then Outcome(s', None, false)
    else
      var a := PhaseCommand(s'.phase, s'.phaseTime, s'.poses.value, ease, current, step);
      Outcome(s', Some(a), s'.cubeGrasped)
  }

  /**
    A call that moves to a new phase commands the configuration at which that
    phase starts, whatever the size of the step.
   */
  lemma TransitionCommandsPhaseStart(s: State, step: real, current: JointVector, ease: real -> real)
    requires ValidState(s) && IsEasing(ease)
    requires s.running ==> |current| == |s.poses.value.home|
    requires Advance(s, step).phase == s.phase + 1
    ensures var r := Update(s, step, current, ease);
            r.action.Some? ==> r.action.value.jointPositions == s.poses.value.Route()[s.phase + 1]
  {
  }

  /**
    During a run the progress factor stays below one: the transition resets
    the phase clock before it can reach the phase duration, so the clamp of
    the progress factor is never what bounds it.
   */
  lemma ProgressBelowOneWhileRunning(s: State)
    requires ValidState(s) && s.running
    ensures Progress(s.phaseTime) < 1.0
  {
  }

  /** The controller state after one callback per entry of `steps`. */
  function Run(s: State, steps: seq<real>): (r: State)
    ensures ValidState(s) ==> ValidState(r)
    ensures s.phase <= r.phase <= s.phase + |steps|
    ensures r.running ==> s.running
    ensures r.poses == s.poses
    decreases |steps|
  {
    if steps == [] then s else Run(Advance(s, steps[0]), steps[1..])
  }

  /** Once stopped, the controller stays as it is whatever the callbacks. */
  lemma {:induction false} StoppedRunIsIdle(s: State, steps: seq<real>)
    requires !s.running
    ensures Run(s, steps) == s
    decreases |steps|
  {
    if steps != [] {
      StoppedRunIsIdle(Advance(s, steps[0]), steps[1..]);
    }
  }

  /** A run that was going and has stopped has stopped because it completed phase 6. */
  lemma {:induction false} RunStopsOnlyWhenComplete(s: State, steps: seq<real>)
    requires ValidState(s) && s.running
    requires !Run(s, steps).running
    ensures Run(s, steps).phase == FinalPhase
    ensures !Run(s, steps).cubeGrasped
    decreases |steps|
  {
    var s1 := Advance(s, steps[0]);
    if s1.running {
      RunStopsOnlyWhenComplete(s1, steps[1..]);
    } else {
      StoppedRunIsIdle(s1, steps[1..]);
    }
  }

  /**
    However large the steps, a run in phase p needs at least 7 - p callbacks
    to complete: no callback skips a phase.
   */
  lemma CompletionTakesRemainingPhases(s: State, steps: seq<real>)
    requires ValidState(s) && s.running
    requires !Run(s, steps).running
    ensures |steps| >= FinalPhase - s.phase
  {
    RunStopsOnlyWhenComplete(s, steps);
  }

  /** In particular a run started by setup needs at least seven callbacks to complete. */
  lemma CompletionTakesSevenCalls(s: State, steps: seq<real>)
    requires ValidState(s) && s.running && s.phase == 0
    requires !Run(s, steps).running
    ensures |steps| >= FinalPhase
  {
    CompletionTakesRemainingPhases(s, steps);
  }

  /**
    With every step at least a phase duration, each callback completes one
    phase: a run in phase p with a non-negative phase clock is complete after
    exactly 7 - p callbacks, and still running after any fewer.
   */
  lemma {:induction false} LongStepsComplete(s: State, steps: seq<real>)
    requires ValidState(s) && s.running && s.phaseTime >= 0.0
    requires |steps| == FinalPhase - s.phase
    requires forall i :: 0 <= i < |steps| ==> steps[i] >= PhaseDuration
    ensures !Run(s, steps).running && Run(s, steps).phase == FinalPhase
    ensures forall k :: 0 <= k < |steps| ==> Run(s, steps[..k]).running
    decreases |steps|
  {
    forall k | 0 <= k < |steps| ensures Run(s, steps[..k]).running {
      if !Run(s, steps[..k]).running {
        CompletionTakesRemainingPhases(s, steps[..k]);
      }
    }
    var s1 := Advance(s, steps[0]);
    if s1.running {
      assert forall i :: 0 <= i < |steps[1..]| ==> steps[1..][i] == steps[i + 1];
      LongStepsComplete(s1, steps[1..]);
    } else {
      StoppedRunIsIdle(s1, steps[1..]);
    }
  }

  /**
    In any run started by setup on a robot with at most six joints, the cube
    is held exactly while the run is in phases 2-4.
   */
  lemma GraspedExactlyInMiddlePhases(s: State, numDof: nat, steps: seq<real>)
    requires numDof <= 6
    ensures var r := Run(SetUp(s, numDof), steps);
            r.cubeGrasped <==> r.running && 2 <= r.phase <= 4
  {
  }
}
