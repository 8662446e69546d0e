/**
  Joint-space trajectory arithmetic of the KUKA pick-and-place scenario:
  the clamped progress factor of a phase, the eased blend between two joint
  configurations, the table that maps a phase to its target, and the
  clipped velocity command sent with that target.
 */
module Trajectory {

  /** One real per degree of freedom: a joint configuration or a velocity. */
  type JointVector = seq<real>

  /** Seconds spent in every phase (`_phase_duration`). */
  const PhaseDuration: real := 2.0
  /** Magnitude limit of every commanded joint velocity, in rad/s. */
  const MaxVelocity: real := 2.0
  /** Smallest time step used as the divisor of the velocity command. */
  const MinStep: real := 0.001
  /** The phase number at which the scenario is complete. */
  const FinalPhase: int := 7

  /**
    The cosine easing `(1 - cos(t * pi)) / 2` is not modelled; any curve
    stands for it that has the cosine's endpoint values, because those are
    the only facts about it the controller relies on.
   */
  predicate IsEasing(ease: real -> real) {
    ease(0.0) == 0.0 && ease(1.0) == 1.0
  }

  /** An easing curve as the controller holds it. */
  type Easing = ease: real -> real | IsEasing(ease) witness (t: real) => t

  /** `x` lies on the closed segment between `a` and `b`. */
  predicate Between(x: real, a: real, b: real) {
    (a <= x <= b) || (b <= x <= a)
  }

  /**
    Fraction of the current phase that has elapsed, clamped from above at 1:
    `min(phase_time / phase_duration, 1.0)`.
   */
  function Progress(phaseTime: real): (t: real)
    ensures t <= 1.0
    ensures phaseTime >= 0.0 ==> t >= 0.0
    ensures t == 1.0 <==> phaseTime >= PhaseDuration
    ensures phaseTime < PhaseDuration ==> t * PhaseDuration == phaseTime
  {
    var ratio := phaseTime / PhaseDuration;
    if ratio <= 1.0 then ratio else 1.0
  }

  /** The element-wise blend `start + (end - start) * s`. */
  function Blend(start: JointVector, end: JointVector, s: real): (r: JointVector)
    requires |start| == |end|
    ensures |r| == |start|
    ensures s == 0.0 ==> r == start
    ensures s == 1.0 ==> r == end
    ensures start == end ==> r == start
    ensures 0.0 <= s <= 1.0 ==> forall i :: 0 <= i < |r| ==> Between(r[i], start[i], end[i])
  {
    var r := seq(|start|, i requires 0 <= i < |start| => start[i] + (end[i] - start[i]) * s);
    assert 0.0 <= s <= 1.0 ==> forall i :: 0 <= i < |r| ==> Between(r[i], start[i], end[i]) by {
      if 0.0 <= s <= 1.0 {
        forall i | 0 <= i < |r| ensures Between(r[i], start[i], end[i]) {
          BlendComponentBetween(start[i], end[i], s);
        }
      }
    }
    r
  }

  lemma BlendComponentBetween(a: real, b: real, s: real)
    requires 0.0 <= s <= 1.0
    ensures Between(a + (b - a) * s, a, b)
  {
    var x := a + (b - a) * s;
    assert x - a == (b - a) * s;
    assert b - x == (b - a) * (1.0 - s);
    if a <= b {
      ProductNonNegative(b - a, s);
      ProductNonNegative(b - a, 1.0 - s);
    } else {
      ProductNonNegative(a - b, s);
      ProductNonNegative(a - b, 1.0 - s);
      assert (a - b) * s == -((b - a) * s);
      assert (a - b) * (1.0 - s) == -((b - a) * (1.0 - s));
    }
  }

  lemma ProductNonNegative(x: real, y: real)
    requires x >= 0.0 && y >= 0.0
    ensures x * y >= 0.0
  {
  }

  /** `_interpolate_positions`: the blend driven by the eased progress. */
  function InterpolatePositions(start: JointVector, end: JointVector, t: real, ease: real -> real): (r: JointVector)
    requires |start| == |end|
    ensures |r| == |start|
    ensures IsEasing(ease) && t == 0.0 ==> r == start
    ensures IsEasing(ease) && t == 1.0 ==> r == end
  {
    Blend(start, end, ease(t))
  }

  /** The five joint configurations fixed by `setup_scenario`. */
  datatype KeyPoses = KeyPoses(
    home: JointVector,
    preGrasp: JointVector,
    grasp: JointVector,
    lift: JointVector,
    place: JointVector)
  {
    /** All five configurations have one entry per joint. */
    predicate Uniform() {
      |preGrasp| == |home| && |grasp| == |home| && |lift| == |home| && |place| == |home|
    }

    /**
      The configurations in the order the phases visit them: phase k moves
      from `Route()[k]` to `Route()[k + 1]`; the grasp and place holds are
      the phases whose two ends coincide.
     */
    function Route(): (r: seq<JointVector>)
      ensures |r| == FinalPhase + 1
      ensures r[0] == home && r[FinalPhase] == home
    {
      [home, preGrasp, grasp, grasp, lift, place, place, home]
    }
  }

  /** The six-joint literals from which `setup_scenario` slices its configurations. */
  const PreGraspLiteral: seq<real> := [0.0, -0.5, 0.5, 0.0, 0.5, 0.0]
  const GraspLiteral: seq<real> := [0.0, -0.3, 0.3, 0.0, 0.8, 0.0]
  const LiftLiteral: seq<real> := [0.0, -0.5, 0.5, 0.0, 0.5, 0.0]
  const PlaceLiteral: seq<real> := [1.0, -0.3, 0.3, 0.0, 0.8, 0.0]

  /** `np.zeros(n)`. */
  function Zeros(n: nat): (z: JointVector)
    ensures |z| == n
    ensures forall i :: 0 <= i < n ==> z[i] == 0.0
  {
    seq(n, i => 0.0)
  }

  /** The slice `lit[:n]`: Python clips the bound to the length of the list. */
  function SlicePrefix(lit: seq<real>, n: nat): (r: seq<real>)
    ensures |r| == if n <= |lit| then n else |lit|
    ensures forall i :: 0 <= i < |r| ==> r[i] == lit[i]
  {
    if n <= |lit| then lit[..n] else lit
  }

  /**
    The configurations `setup_scenario` builds for a robot with `numDof`
    joints. They agree in length exactly when the robot has at most six
    joints; beyond six the sliced literals stay at six entries while home
    has `numDof`.
   */
  function SetupPoses(numDof: nat): (p: KeyPoses)
    ensures |p.home| == numDof
    ensures forall i :: 0 <= i < numDof ==> p.home[i] == 0.0
    ensures p.Uniform() <==> numDof <= 6
    ensures p.lift == p.preGrasp
  {
    KeyPoses(
      Zeros(numDof),
      SlicePrefix(PreGraspLiteral, numDof),
      SlicePrefix(GraspLiteral, numDof),
      SlicePrefix(LiftLiteral, numDof),
      SlicePrefix(PlaceLiteral, numDof))
  }

  /** The target configuration `_execute_phase` chooses for `phase` at progress `t`. */
  function Target(phase: int, t: real, poses: KeyPoses, ease: real -> real): (r: JointVector)
    requires poses.Uniform()
    ensures |r| == |poses.home|
    ensures !(0 <= phase < FinalPhase) ==> r == poses.home
  {
    if phase == 0 then InterpolatePositions(poses.home, poses.preGrasp, t, ease)
    else if phase == 1 then InterpolatePositions(poses.preGrasp, poses.grasp, t, ease)
    else if phase == 2 then poses.grasp
    else if phase == 3 then InterpolatePositions(poses.grasp, poses.lift, t, ease)
    else if phase == 4 then InterpolatePositions(poses.lift, poses.place, t, ease)
    else if phase == 5 then poses.place
    else if phase == 6 then InterpolatePositions(poses.place, poses.home, t, ease)
    else poses.home
  }

  /** Every phase of the run moves along its leg of the route; the holds are legs of length zero. */
  lemma TargetFollowsRoute(phase: int, t: real, poses: KeyPoses, ease: real -> real)
    requires poses.Uniform()
    requires 0 <= phase < FinalPhase
    ensures Target(phase, t, poses, ease) == Blend(poses.Route()[phase], poses.Route()[phase + 1], ease(t))
  {
    var route := poses.Route();
    if phase == 2 {
      assert route[2] == route[3] == poses.grasp;
    } else if phase == 5 {
      assert route[5] == route[6] == poses.place;
    }
  }

  /** At the start of a phase the target is where the route enters that phase. */
  lemma TargetAtPhaseStart(phase: int, poses: KeyPoses, ease: real -> real)
    requires poses.Uniform() && IsEasing(ease)
    requires 0 <= phase <= FinalPhase
    ensures Target(phase, 0.0, poses, ease) == poses.Route()[phase]
  {
    if phase < FinalPhase {
      TargetFollowsRoute(phase, 0.0, poses, ease);
    }
  }

  /** At the end of a phase the target is where the route leaves that phase. */
  lemma TargetAtPhaseEnd(phase: int, poses: KeyPoses, ease: real -> real)
    requires poses.Uniform() && IsEasing(ease)
    requires 0 <= phase < FinalPhase
    ensures Target(phase, 1.0, poses, ease) == poses.Route()[phase + 1]
  {
    TargetFollowsRoute(phase, 1.0, poses, ease);
  }

  /**
    The targets join up: the end of every phase's motion is the start of the
    next one's, for every phase number, inside or outside the run.
   */
  lemma TargetsContinuous(phase: int, poses: KeyPoses, ease: real -> real)
    requires poses.Uniform() && IsEasing(ease)
    ensures Target(phase, 1.0, poses, ease) == Target(phase + 1, 0.0, poses, ease)
  {
    if 0 <= phase < FinalPhase {
      TargetAtPhaseEnd(phase, poses, ease);
      TargetAtPhaseStart(phase + 1, poses, ease);
    } else if phase == -1 {
      TargetAtPhaseStart(0, poses, ease);
    }
  }

  /** `max(step, 0.001)`: the time step the velocity command divides by. */
  function Divisor(step: real): (d: real)
    ensures d >= MinStep
    ensures d == step || d == MinStep
    ensures step >= MinStep ==> d == step
  {
    if step >= MinStep then step else MinStep
  }

  /** `np.clip(v, -2.0, 2.0)` on one component. */
  function Clip(v: real): (r: real)
    ensures -MaxVelocity <= r <= MaxVelocity
    ensures -MaxVelocity <= v <= MaxVelocity ==> r == v
    ensures (r > 0.0 <==> v > 0.0) && (r < 0.0 <==> v < 0.0)
    ensures Between(r, 0.0, v)
  {
    if v < -MaxVelocity then -MaxVelocity
    else if v > MaxVelocity then MaxVelocity
    else v
  }

  /** Sign of a real as -1, 0 or 1. */
  function Sign(x: real): int {
    if x > 0.0 then 1 else if x < 0.0 then -1 else 0
  }

  /**
    The commanded joint velocity `clip((target - current) / max(step, 0.001))`.
    Every component is within the limit, points from the current position
    towards the target, and is the exact one-step velocity when that is
    within the limit.
   */
  function Velocity(target: JointVector, current: JointVector, step: real): (v: JointVector)
    requires |target| == |current|
    ensures |v| == |target|
    ensures forall i :: 0 <= i < |v| ==> -MaxVelocity <= v[i] <= MaxVelocity
    ensures forall i :: 0 <= i < |v| ==> Sign(v[i]) == Sign(target[i] - current[i])
    ensures forall i :: 0 <= i < |v| && -MaxVelocity * Divisor(step) <= target[i] - current[i] <= MaxVelocity * Divisor(step)
              ==> v[i] * Divisor(step) == target[i] - current[i]
  {
    var d := Divisor(step);
    seq(|target|, i requires 0 <= i < |target| => JointVelocity(target[i] - current[i], d))
  }

  /**
    One component of the velocity command: the offset `delta` to cover,
    divided by the time step `d` and clipped.
   */
  function JointVelocity(delta: real, d: real): (v: real)
    requires d > 0.0
    ensures -MaxVelocity <= v <= MaxVelocity
    ensures Sign(v) == Sign(delta)
    ensures -MaxVelocity * d <= delta <= MaxVelocity * d ==> v * d == delta
  {
    QuotientSign(delta, d);
    assert -MaxVelocity * d <= delta <= MaxVelocity * d ==> -MaxVelocity <= delta / d <= MaxVelocity by {
      if -MaxVelocity * d <= delta <= MaxVelocity * d {
        QuotientWithinLimit(delta, d);
      }
    }
    assert (delta / d) * d == delta;
    Clip(delta / d)
  }

  lemma QuotientSign(x: real, d: real)
    requires d > 0.0
    ensures Sign(x / d) == Sign(x)
  {
    assert (x / d) * d == x;
  }

  lemma QuotientWithinLimit(x: real, d: real)
    requires d > 0.0
    requires -MaxVelocity * d <= x <= MaxVelocity * d
    ensures -MaxVelocity <= x / d <= MaxVelocity
  {
    assert (x / d) * d == x;
  }

  /** The action `_execute_phase` applies: the target and the clipped velocity. */
  datatype Action = Action(jointPositions: JointVector, jointVelocities: JointVector)

  /**
    The action of `_execute_phase` for a phase, the time spent in it and the
    joint positions read from the robot.
   */
  function PhaseCommand(phase: int, phaseTime: real, poses: KeyPoses, ease: real -> real,
                        current: JointVector, step: real): (a: Action)
    requires poses.Uniform()
    requires |current| == |poses.home|
    ensures |a.jointPositions| == |current| && |a.jointVelocities| == |current|
    ensures forall i :: 0 <= i < |current| ==> -MaxVelocity <= a.jointVelocities[i] <= MaxVelocity
    ensures forall i :: 0 <= i < |current| ==>
              Sign(a.jointVelocities[i]) == Sign(a.jointPositions[i] - current[i])
    ensures IsEasing(ease) && 0 <= phase <= FinalPhase && phaseTime == 0.0 ==>
              a.jointPositions == poses.Route()[phase]
  {
    var target := Target(phase, Progress(phaseTime), poses, ease);
    assert IsEasing(ease) && 0 <= phase <= FinalPhase && phaseTime == 0.0 ==> target == poses.Route()[phase] by {
      if IsEasing(ease) && 0 <= phase <= FinalPhase && phaseTime == 0.0 {
        TargetAtPhaseStart(phase, poses, ease);
      }
    }
    Action(target, Velocity(target, current, step))
  }
}
