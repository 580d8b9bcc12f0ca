/** The progress-based two-finger translation task of
    scripts/environments/two_finger/translation.py: a goal drawn from a
    rectangle relative to the reference marker, the observation vector
    assembled from the environment information, a reward for the progress
    made towards the goal, and the suspended variant's lift servo that picks
    the cube up on every reset. */
module TwoFingerTranslation {
  import opened Common
  import opened Text

  /** The reward for reaching the goal. */
  const GoalReward: real := 500.0

  /** The goal rectangle: x in [-30, 120), y in [60, 110). */
  const GoalMin: seq<int> := [-30, 60]
  const GoalMax: seq<int> := [120, 110]

  /** `_choose_goal`, given the two integers drawn from the rectangle's ranges. */
  function ChooseGoal(drawX: int, drawY: int): (goal: seq<real>)
    requires GoalMin[0] <= drawX < GoalMax[0] && GoalMin[1] <= drawY < GoalMax[1]
    ensures |goal| == 2
    ensures GoalMin[0] as real <= goal[0] < GoalMax[0] as real
    ensures GoalMin[1] as real <= goal[1] < GoalMax[1] as real
  {
    [drawX as real, drawY as real]
  }

  /** Every point of the rectangle can be drawn. */
  lemma ChooseGoalCoversRectangle(x: int, y: int)
    requires GoalMin[0] <= x < GoalMax[0] && GoalMin[1] <= y < GoalMax[1]
    ensures exists dx, dy ::
      (&& GoalMin[0] <= dx < GoalMax[0] && GoalMin[1] <= dy < GoalMax[1]
       && ChooseGoal(dx, dy) == [x as real, y as real])
  {
    assert ChooseGoal(x, y) == [x as real, y as real];
  }

  /** A pose as the environment reports it. */
  datatype Pose = Pose(position: seq<real>, orientation: seq<real>)

  /** The joint readings of the gripper. */
  datatype GripperReadings = GripperReadings(positions: seq<real>, velocities: seq<real>)

  /** The environment information of one step: the gripper's joint readings,
      the poses of its markers by index, the object's pose and the goal. */
  datatype EnvironmentInfo = EnvironmentInfo(
    gripper: GripperReadings,
    gripperPoses: map<int, Pose>,
    objectPose: Pose,
    goal: seq<real>)

  /** The action type under which velocities are part of the observation. */
  const VelocityActionType: string := "velocity"

  /** A missing marker index in the gripper poses. */
  const KeyError: Fault := OtherError("KeyError")

  /** Whether the poses hold every index in [lo, hi). */
  predicate HasPoses(poses: map<int, Pose>, lo: int, hi: int)
  {
    forall i :: lo <= i < hi ==> i in poses
  }

  /** The pose states of indices lo, lo+1, ..., hi-1, concatenated in that order. */
  function PoseStates(poses: map<int, Pose>, lo: int, hi: int, poseToState: Pose -> seq<real>): seq<real>
    requires HasPoses(poses, lo, hi)
    decreases hi - lo
  {
    if hi <= lo then [] else PoseStates(poses, lo, hi - 1, poseToState) + poseToState(poses[hi - 1])
  }

  /** The observation vector: joint positions, the velocities only under
      velocity control, the pose states of gripper markers 1 to
      numMotors + 2, the object's pose state and the goal. */
  function ObservationLayout(info: EnvironmentInfo, actionType: string, numMotors: nat, goal: seq<real>,
                             poseToState: Pose -> seq<real>): seq<real>
    requires HasPoses(info.gripperPoses, 1, numMotors + 3)
  {
    info.gripper.positions
    + (if actionType == VelocityActionType then info.gripper.velocities else [])
    + PoseStates(info.gripperPoses, 1, numMotors + 3, poseToState)
    + poseToState(info.objectPose)
    + goal
  }

  /** `_environment_info_to_state`. `goal` is the environment's current goal
      and `poseToState` the task's opaque conversion of a pose. */
  method EnvironmentInfoToState(info: EnvironmentInfo, actionType: string, numMotors: nat, goal: seq<real>,
                                poseToState: Pose -> seq<real>) returns (r: Result<seq<real>>)
    ensures r.Ok? <==> HasPoses(info.gripperPoses, 1, numMotors + 3)
    ensures r.Ok? ==> r.value == ObservationLayout(info, actionType, numMotors, goal, poseToState)
    ensures r.Err? ==> r.fault == KeyError
  {
    var state: seq<real> := [];
    state := state + info.gripper.positions;
    if actionType == VelocityActionType {
      state := state + info.gripper.velocities;
    }
    var prefix := state;
    var i := 1;
    while i < numMotors + 3
      invariant 1 <= i <= numMotors + 3
      invariant HasPoses(info.gripperPoses, 1, i)
      invariant state == prefix + PoseStates(info.gripperPoses, 1, i, poseToState)
    {
      if i !in info.gripperPoses {
        return Err(KeyError);
      }
      state := state + poseToState(info.gripperPoses[i]);
      i := i + 1;
    }
    state := state + poseToState(info.objectPose);
    state := state + goal;
    r := Ok(state);
  }

  /** With the usual planar pose states of two entries, marker i's X and Y
      sit at offset 2 * (i - lo) of the marker part. */
  lemma {:induction false} PoseStatesLayout(poses: map<int, Pose>, lo: int, hi: int, poseToState: Pose -> seq<real>, i: int)
    requires HasPoses(poses, lo, hi)
    requires forall p :: |poseToState(p)| == 2
    requires lo <= i < hi
    ensures |PoseStates(poses, lo, hi, poseToState)| == 2 * (hi - lo)
    ensures PoseStates(poses, lo, hi, poseToState)[2 * (i - lo)..2 * (i - lo) + 2] == poseToState(poses[i])
    decreases hi - lo
  {
    if i < hi - 1 {
      PoseStatesLayout(poses, lo, hi - 1, poseToState, i);
      var front := PoseStates(poses, lo, hi - 1, poseToState);
      assert PoseStates(poses, lo, hi, poseToState) == front + poseToState(poses[hi - 1]);
      assert (front + poseToState(poses[hi - 1]))[2 * (i - lo)..2 * (i - lo) + 2] == front[2 * (i - lo)..2 * (i - lo) + 2];
    } else if lo < i {
      PoseStatesLayout(poses, lo, hi - 1, poseToState, i - 1);
    }
  }

  /** With planar pose states the observation has a fixed length, and the
      goal is its last two entries. */
  lemma ObservationLength(info: EnvironmentInfo, actionType: string, numMotors: nat, goal: seq<real>,
                          poseToState: Pose -> seq<real>)
    requires HasPoses(info.gripperPoses, 1, numMotors + 3)
    requires forall p :: |poseToState(p)| == 2
    requires |goal| == 2
    ensures var s := ObservationLayout(info, actionType, numMotors, goal, poseToState);
      && |s| == |info.gripper.positions|
               + (if actionType == VelocityActionType then |info.gripper.velocities| else 0)
               + 2 * (numMotors + 2) + 2 + 2
      && s[|s| - 2..] == goal
  {
    PoseStatesLayout(info.gripperPoses, 1, numMotors + 3, poseToState, 1);
  }

  /** `_reward_function`: the goal is the current one; only the first two
      position coordinates of the object count. The episode ends, with the
      goal reward, exactly when the object is within the tolerance of the
      goal; short of that the reward is the distance gained. */
  function RewardFunction(previous: EnvironmentInfo, current: EnvironmentInfo, noiseTolerance: real,
                          dist: (seq<real>, seq<real>) -> real): (r: (real, bool))
    ensures var after := dist(current.goal, Planar(current.objectPose.position));
      && (r.1 <==> after <= noiseTolerance)
      && (r.1 ==> r.0 == GoalReward)
  {
    var targetGoal := current.goal;
    var objectPrevious := Planar(previous.objectPose.position);
    var objectCurrent := Planar(current.objectPose.position);
    var goalDistanceBefore := dist(targetGoal, objectPrevious);
    var goalDistanceAfter := dist(targetGoal, objectCurrent);
    var goalProgress := goalDistanceBefore - goalDistanceAfter;
    if goalDistanceAfter <= noiseTolerance then (GoalReward, true) else (0.0 + goalProgress, false)
  }

  function Min(a: int, b: int): int
  {
    if a < b then a else b
  }

  /** `position[0:2]`. */
  function Planar(position: seq<real>): (xy: seq<real>)
    ensures xy == position[..Min(2, |position|)]
  {
    if |position| <= 2 then position else position[..2]
  }

  /** Short of the goal, the reward is positive exactly when the object moved
      closer to the current goal, negative exactly when it moved away. */
  lemma RewardIsProgress(previous: EnvironmentInfo, current: EnvironmentInfo, noiseTolerance: real,
                         dist: (seq<real>, seq<real>) -> real)
    requires !RewardFunction(previous, current, noiseTolerance, dist).1
    ensures var r := RewardFunction(previous, current, noiseTolerance, dist).0;
      var before := dist(current.goal, Planar(previous.objectPose.position));
      var after := dist(current.goal, Planar(current.objectPose.position));
      && r == before - after
      && (r > 0.0 <==> after < before)
      && (r < 0.0 <==> after > before)
  {
  }

  /** Holding the object still short of the goal earns nothing, whatever the
      distance left (the absolute-distance task penalises it instead). */
  lemma StandingStillEarnsNothing(previous: EnvironmentInfo, current: EnvironmentInfo, noiseTolerance: real,
                                  dist: (seq<real>, seq<real>) -> real)
    requires Planar(previous.objectPose.position) == Planar(current.objectPose.position)
    requires !RewardFunction(previous, current, noiseTolerance, dist).1
    ensures RewardFunction(previous, current, noiseTolerance, dist).0 == 0.0
  {
  }

  /** Coordinates past the second, orientations, the gripper's readings and
      the previous goal never affect the reward. */
  lemma RewardUsesPlanarObjectOnly(previous1: EnvironmentInfo, current1: EnvironmentInfo,
                                   previous2: EnvironmentInfo, current2: EnvironmentInfo,
                                   noiseTolerance: real, dist: (seq<real>, seq<real>) -> real)
    requires Planar(previous1.objectPose.position) == Planar(previous2.objectPose.position)
    requires Planar(current1.objectPose.position) == Planar(current2.objectPose.position)
    requires current1.goal == current2.goal
    ensures RewardFunction(previous1, current1, noiseTolerance, dist) == RewardFunction(previous2, current2, noiseTolerance, dist)
  {
  }

  /** The lift servo of the suspended variant. */
  const LiftServoId: int := 5
  const LiftMaxValue: int := 3500
  const LiftMinValue: int := 0
  const LiftSpeedLimit: int := 150
  const LiftTorqueLimit: int := 150

  /** The finger steps that close the gripper on the cube. */
  const CubeGrip: seq<int> := [512, 362, 512, 662]

  /** The message of the fault raised when the lift servo cannot be initialised. */
  function LiftServoMessage(gripperId: int): (message: string)
    ensures "Gripper#" <= message
  {
    "Gripper#" + IntToDecimal(gripperId) + ": Failed to initialise lift servo"
  }

  /** What the suspended variant's construction amounts to, given the outcome
      of creating, enabling or reading the velocity of its lift servo: a gripper or servo fault is
      re-raised as a gripper fault that keeps it as its cause; any other fault
      escapes unchanged. */
  function LiftServoInit(gripperId: int, init: Status): (r: Status)
    ensures init.Ok? ==> r == init
    ensures init.Err? && (init.fault.GripperError? || init.fault.DynamixelServoError?) ==>
      r == Err(GripperError(LiftServoMessage(gripperId), Some(init.fault)))
    ensures init.Err? && !(init.fault.GripperError? || init.fault.DynamixelServoError?) ==> r == init
  {
    match init
    case Ok(_) => init
    case Err(f) =>
      if f.GripperError? || f.DynamixelServoError? then Err(GripperError(LiftServoMessage(gripperId), Some(f)))
      else init
  }

  /** The message names the gripper: different grippers give different messages. */
  lemma LiftServoMessageNamesGripper(a: int, b: int)
    requires LiftServoMessage(a) == LiftServoMessage(b)
    ensures a == b
  {
    var prefix, suffix := "Gripper#", ": Failed to initialise lift servo";
    var m := LiftServoMessage(a);
    assert m == prefix + IntToDecimal(a) + suffix;
    assert m == prefix + IntToDecimal(b) + suffix;
    assert IntToDecimal(a) == m[|prefix|..|m| - |suffix|] == IntToDecimal(b);
    IntToDecimalInjective(a, b);
  }

  /** A hardware actuation of the suspended variant. */
  datatype Actuation = WiggleHome | LiftMove(step: int) | GripperMove(steps: seq<int>)

  /** `grab_cube`: lift up, close the fingers on the cube, lift down. */
  const GrabCubePlan: seq<Actuation> := [LiftMove(LiftMaxValue), GripperMove(CubeGrip), LiftMove(LiftMinValue)]

  /** The suspended `_reset`: wiggle home, then grab the cube. */
  const ResetPlan: seq<Actuation> := [WiggleHome] + GrabCubePlan

  class Suspended {
    const gripperId: int
    /** Every actuation issued, oldest first. */
    var actuations: seq<Actuation>

    constructor (gripperId: int)
      ensures this.gripperId == gripperId && actuations == []
    {
      this.gripperId := gripperId;
      actuations := [];
    }

    method LiftUp(status: Status) returns (outcome: Status)
      modifies this
      ensures actuations == old(actuations) + [LiftMove(LiftMaxValue)]
      ensures outcome == status
    {
      actuations := actuations + [LiftMove(LiftMaxValue)];
      outcome := status;
    }

    method LiftDown(status: Status) returns (outcome: Status)
      modifies this
      ensures actuations == old(actuations) + [LiftMove(LiftMinValue)]
      ensures outcome == status
    {
      actuations := actuations + [LiftMove(LiftMinValue)];
      outcome := status;
    }

    /** `statuses[i]` is the outcome of the i-th actuation of the plan. */
    method GrabCube(statuses: seq<Status>) returns (outcome: Status)
      requires |statuses| == |GrabCubePlan|
      modifies this
      ensures actuations == old(actuations) + Issued(GrabCubePlan, statuses)
      ensures outcome == Outcome(statuses)
    {
      IssuedStep(GrabCubePlan, statuses);
      IssuedStep(GrabCubePlan[1..], statuses[1..]);
      IssuedStep(GrabCubePlan[2..], statuses[2..]);
      AllIssuedWhenNoneRaises(GrabCubePlan[3..], statuses[3..]);
      assert GrabCubePlan[1..][1..] == GrabCubePlan[2..] && statuses[1..][1..] == statuses[2..];
      assert GrabCubePlan[2..][1..] == GrabCubePlan[3..] && statuses[2..][1..] == statuses[3..];
      outcome := LiftUp(statuses[0]);
      if outcome.Err? {
        return;
      }
      actuations := actuations + [GripperMove(CubeGrip)];
      outcome := statuses[1];
      if outcome.Err? {
        return;
      }
      outcome := LiftDown(statuses[2]);
      assert outcome.Ok? ==> outcome.value == ();
    }

    /** The suspended `_reset`; `statuses[i]` is the outcome of the i-th actuation. */
    method Reset(statuses: seq<Status>) returns (outcome: Status)
      requires |statuses| == |ResetPlan|
      modifies this
      ensures actuations == old(actuations) + Issued(ResetPlan, statuses)
      ensures outcome == Outcome(statuses)
    {
      IssuedStep(ResetPlan, statuses);
      assert ResetPlan[1..] == GrabCubePlan;
      actuations := actuations + [WiggleHome];
      outcome := statuses[0];
      if outcome.Err? {
        return;
      }
      outcome := GrabCube(statuses[1..]);
    }
  }

  /** When every actuation returns, a reset wiggles home, lifts to the top,
      closes on the cube and lowers to the bottom, in that order. */
  lemma ResetOrder(statuses: seq<Status>)
    requires |statuses| == |ResetPlan|
    requires forall i :: 0 <= i < |statuses| ==> statuses[i].Ok?
    ensures Issued(ResetPlan, statuses)
      == [WiggleHome, LiftMove(3500), GripperMove([512, 362, 512, 662]), LiftMove(0)]
  {
    AllIssuedWhenNoneRaises(ResetPlan, statuses);
  }
}
