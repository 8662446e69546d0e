/**
  The scenario object the extension drives: `ExampleScenario`, whose
  methods update its fields in place once per physics callback. Every
  method is proved to move the object's state exactly as the state machine
  of module Phases prescribes.
 */
module Controller {
  import opened Trajectory
  import opened Phases

  /** The robot handle, reduced to the one property setup reads from it. */
  datatype Articulation = Articulation(numDof: nat)

  /** The cube handle, reduced to the world position setup reads from it. */
  datatype ObjectPrim = ObjectPrim(worldPosition: seq<real>)

  class ExampleScenario {
    /** The easing curve of `_interpolate_positions`. */
    const smooth: Easing

    var objectPrim: Option<ObjectPrim>
    var articulation: Option<Articulation>
    var runningScenario: bool
    var time: real
    var phase: int
    var phaseTime: real
    var poses: Option<KeyPoses>
    var cubeGrasped: bool
    var initialCubePosition: Option<seq<real>>

    /** The fields the state machine is about. */
    function Snapshot(): State
      reads this
    {
      State(runningScenario, time, phase, phaseTime, cubeGrasped, poses)
    }

    /** The state is a valid one, and a running scenario drives a robot with one joint per configuration entry. */
    ghost predicate Valid()
      reads this
    {
      && ValidState(Snapshot())
      && (runningScenario ==> articulation.Some? && articulation.value.numDof == |poses.value.home|)
    }

    /** `__init__`: stopped, both clocks at zero, phase 0, no handles and no configurations. */
    constructor (smooth: Easing)
      ensures Valid()
      ensures Snapshot() == Initial()
      ensures this.smooth == smooth
      ensures articulation.None? && objectPrim.None? && initialCubePosition.None?
    {
      this.smooth := smooth;
      objectPrim := None;
      articulation := None;
      runningScenario := false;
      time := 0.0;
      phase := 0;
      phaseTime := 0.0;
      poses := None;
      cubeGrasped := false;
      initialCubePosition := None;
    }

    /**
      `setup_scenario`: keep the handles, remember where the cube starts,
      start a run in phase 0 and build the key configurations. Returns the
      configuration the robot is reset to (home). The object is valid
      afterwards exactly when the robot has at most six joints.
     */
    method SetupScenario(articulation: Articulation, objectPrim: ObjectPrim) returns (reset: JointVector)
      modifies this
      ensures Snapshot() == SetUp(old(Snapshot()), articulation.numDof)
      ensures this.articulation == Some(articulation) && this.objectPrim == Some(objectPrim)
      ensures initialCubePosition == Some(objectPrim.worldPosition)
      ensures reset == poses.value.home == Zeros(articulation.numDof)
      ensures Valid() <==> articulation.numDof <= 6
    {
      this.articulation := Some(articulation);
      this.objectPrim := Some(objectPrim);
      initialCubePosition := Some(objectPrim.worldPosition);
      runningScenario := true;
      phase := 0;
      phaseTime := 0.0;
      cubeGrasped := false;
      poses := Some(SetupPoses(articulation.numDof));
      reset := poses.value.home;
    }

    /**
      `teardown_scenario`: clocks to zero, phase 0, stopped, cube released,
      handles dropped. Restores validity from any state.
     */
    method TeardownScenario()
      modifies this
      ensures Valid()
      ensures Snapshot() == TearDown(old(Snapshot()))
      ensures articulation.None? && objectPrim.None?
      ensures initialCubePosition == old(initialCubePosition)
    {
      time := 0.0;
      phaseTime := 0.0;
      phase := 0;
      objectPrim := None;
      articulation := None;
      runningScenario := false;
      cubeGrasped := false;
    }

    /**
      `update_scenario` for one physics step. Returns the action applied to
      the robot, if any, and whether the cube is moved to follow the end
      effector.
     */
    method UpdateScenario(step: real, current: JointVector) returns (action: Option<Action>, followsCube: bool)
      requires Valid()
      requires runningScenario ==> |current| == articulation.value.numDof
      modifies this
      ensures Valid()
      ensures Outcome(Snapshot(), action, followsCube) == Update(old(Snapshot()), step, current, smooth)
      ensures articulation == old(articulation) && objectPrim == old(objectPrim)
      ensures initialCubePosition == old(initialCubePosition)
    {
      ghost var before := Snapshot();
      if !runningScenario {
        return None, false;
      }
      time := time + step;
      phaseTime := phaseTime + step;
      if phaseTime >= PhaseDuration {
        phase := phase + 1;
        phaseTime := 0.0;
        if phase == 2 {
          cubeGrasped := true;
        } else if phase == 5 {
          cubeGrasped := false;
        } else if phase >= FinalPhase {
          runningScenario := false;
          assert Snapshot() == Advance(before, step);
          return None, false;
        }
      }
      assert Snapshot() == Advance(before, step);
      var a := ExecutePhase(step, current);
      action := Some(a);
      followsCube := cubeGrasped;
    }

    /**
      `_execute_phase`: the action for the current phase and phase clock,
      given the joint positions read from the robot.
     */
    method ExecutePhase(step: real, current: JointVector) returns (action: Action)
      requires poses.Some? && poses.value.Uniform()
      requires |current| == |poses.value.home|
      ensures action == PhaseCommand(phase, phaseTime, poses.value, smooth, current, step)
      ensures forall i :: 0 <= i < |current| ==> -MaxVelocity <= action.jointVelocities[i] <= MaxVelocity
    {
      action := PhaseCommand(phase, phaseTime, poses.value, smooth, current, step);
    }
  }
}
