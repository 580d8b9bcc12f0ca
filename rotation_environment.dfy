/** The valve-rotation task of scripts/gripper_environment.py: a target angle
    drawn from the four quadrants, a reward for turning the marked valve
    towards it, and episode termination once the valve is within three
    degrees of the target. The gripper and camera are opaque: `home` and
    `move` outcomes and the camera's successive marker detections are
    parameters. */
module RotationEnvironment {
  import opened Common
  import opened Objects

  /** The marker whose yaw is the valve angle. */
  const ValveMarker: int := 0

  /** Detection attempts per pose lookup. */
  const MaxDetectAttempts: nat := 4

  /** Changes of the distance to the target within this band earn nothing. */
  const NoiseBand: real := 3.0

  /** The valve counts as at the target within this many degrees. */
  const GoalTolerance: real := 3.0

  const GoalBonus: real := 100.0

  /** `choose_target_angle`, given the integer drawn from [1, 5). */
  function ChooseTargetAngle(draw: int): int
  {
    if draw == 1 then 90
    else if draw == 2 then 180
    else if draw == 3 then 270
    else if draw == 4 then 0
    else -1
  }

  /** Every draw the generator can produce selects one of the four quadrant
      angles, each draw a different one; the -1 fallback is never taken. */
  lemma TargetAngleIsQuadrant(draw: int, other: int)
    requires 1 <= draw <= 4 && 1 <= other <= 4
    ensures ChooseTargetAngle(draw) in {0, 90, 180, 270}
    ensures ChooseTargetAngle(draw) != -1
    ensures ChooseTargetAngle(draw) == ChooseTargetAngle(other) ==> draw == other
  {
  }

  function Abs(x: real): real
  {
    if x < 0.0 then -x else x
  }

  /** The valve angle a marker pose gives: its yaw. */
  function Yaw(pose: MarkerPose): real
  {
    pose.orientation.z
  }

  /** `reward_function`: a missing final pose, then a missing start pose, ends
      the episode with no reward. Otherwise the reward is the change in the
      plain (unwrapped) distance to the target, zeroed inside the noise band,
      plus the bonus when the final distance is within the tolerance, which
      also ends the episode. */
  function RewardFunction(targetAngle: int, start: Option<MarkerPose>, final: Option<MarkerPose>): (r: (real, bool))
    ensures final.None? ==> r == (0.0, true)
    ensures start.None? ==> r == (0.0, true)
    ensures final.Some? && start.Some? ==>
      (r.1 <==> Abs(targetAngle as real - Yaw(final.value)) <= GoalTolerance)
  {
    if final.None? then (0.0, true)
    else if start.None? then (0.0, true)
    else
      var target := targetAngle as real;
      var after := Abs(target - Yaw(final.value));
      var delta := Abs(target - Yaw(start.value)) - after;
      var reward := if -NoiseBand <= delta <= NoiseBand then 0.0 else delta;
      if after <= GoalTolerance then (reward + GoalBonus, true) else (reward, false)
  }

  /** Inside the noise band the reward is nothing but the bonus; outside it
      the reward moves with the progress made towards the target. */
  lemma RewardFollowsProgress(targetAngle: int, start: MarkerPose, final: MarkerPose)
    ensures var r := RewardFunction(targetAngle, Some(start), Some(final));
      var t := targetAngle as real;
      var delta := Abs(t - Yaw(start)) - Abs(t - Yaw(final));
      var bonus := if r.1 then GoalBonus else 0.0;
      && (-NoiseBand <= delta <= NoiseBand ==> r.0 == bonus)
      && (delta > NoiseBand ==> r.0 == bonus + delta && r.0 > bonus + NoiseBand)
      && (delta < -NoiseBand ==> r.0 == bonus + delta && r.0 < bonus - NoiseBand)
  {
  }

  /** Reaching the target is never penalised: the episode ends with at least the bonus. */
  lemma GoalEarnsAtLeastBonus(targetAngle: int, start: MarkerPose, final: MarkerPose)
    requires RewardFunction(targetAngle, Some(start), Some(final)).1
    ensures RewardFunction(targetAngle, Some(start), Some(final)).0 >= GoalBonus
  {
    var t := targetAngle as real;
    assert Abs(t - Yaw(final)) <= GoalTolerance;
    assert Abs(t - Yaw(start)) - Abs(t - Yaw(final)) >= -NoiseBand;
  }

  /** The distance is not wrapped at 360 degrees: a valve one degree short of
      the zero target, at 359, is 359 degrees away and does not end the episode. */
  lemma NoWrapAroundAtZero(start: MarkerPose, final: MarkerPose)
    requires Yaw(final) == 359.0
    ensures !RewardFunction(0, Some(start), Some(final)).1
  {
  }

  /** Ending one degree past a 90-degree target terminates the episode with
      the bonus of 100 on top of the progress reward. */
  lemma GoalExample(start: MarkerPose, final: MarkerPose)
    requires Yaw(start) == 45.0 && Yaw(final) == 91.0
    ensures RewardFunction(90, Some(start), Some(final)) == (144.0, true)
  {
  }

  /** Number of detections a pose lookup makes from attempt i on: it stops at
      the first non-empty detection or after the last attempt. */
  function AttemptsFrom(detect: nat -> Detection, i: nat): (n: nat)
    requires i < MaxDetectAttempts
    ensures i < n <= MaxDetectAttempts
    ensures forall j :: i <= j < n - 1 ==> |detect(j)| == 0
    ensures n < MaxDetectAttempts ==> |detect(n - 1)| > 0
    decreases MaxDetectAttempts - i
  {
    if |detect(i)| > 0 || i + 1 == MaxDetectAttempts then i + 1 else AttemptsFrom(detect, i + 1)
  }

  /** The pose a lookup returns: the marker's pose in the last detection made, if it is there. */
  function LookedUpPose(detect: nat -> Detection, markerId: int): Option<MarkerPose>
  {
    var last := detect(AttemptsFrom(detect, 0) - 1);
    if markerId in last then Some(last[markerId]) else None
  }

  /** `get_marker_pose`: `detect(i)` is the camera's i-th marker detection. */
  method GetMarkerPose(markerId: int, detect: nat -> Detection) returns (pose: Option<MarkerPose>, attempts: nat)
    ensures attempts == AttemptsFrom(detect, 0) && pose == LookedUpPose(detect, markerId)
    ensures 1 <= attempts <= MaxDetectAttempts
    ensures forall i :: 0 <= i < attempts - 1 ==> |detect(i)| == 0
    ensures pose.Some? ==> markerId in detect(attempts - 1) && pose.value == detect(attempts - 1)[markerId]
  {
    var markerPoses: Detection := map[];
    attempts := 0;
    while |markerPoses| == 0 && attempts < MaxDetectAttempts
      invariant attempts <= MaxDetectAttempts
      invariant attempts == 0 ==> markerPoses == map[]
      invariant attempts > 0 ==> markerPoses == detect(attempts - 1)
      invariant forall i :: 0 <= i < attempts - 1 ==> |detect(i)| == 0
    {
      markerPoses := detect(attempts);
      attempts := attempts + 1;
    }
    if markerId in markerPoses {
      pose := Some(markerPoses[markerId]);
    } else {
      pose := None;
    }
  }

  /** A frame with other markers but not the valve's stops the lookup: the
      valve's pose is missing even if a later frame would have shown it. */
  lemma FirstNonEmptyDetectionDecides(detect: nat -> Detection, other: int, p: MarkerPose)
    requires other != ValveMarker
    requires detect(0) == map[other := p]
    ensures AttemptsFrom(detect, 0) == 1
    ensures LookedUpPose(detect, ValveMarker) == None
  {
  }

  /** The value appended to the state for a pose: its yaw, or -1 when missing. */
  function YawOrMissing(pose: Option<MarkerPose>): (yaw: real)
    ensures pose.None? ==> yaw == -1.0
  {
    match pose
    case Some(p) => Yaw(p)
    case None => -1.0
  }

  /** A hardware action of the environment. */
  datatype HwEvent = Setup | Home | Detect | Move(action: seq<real>)

  function Detects(n: nat): (events: seq<HwEvent>)
    ensures |events| == n && forall i :: 0 <= i < n ==> events[i] == Detect
  {
    seq(n, _ => Detect)
  }

  /** What `gripper.home` returns: the home state and whether it ended the episode. */
  datatype HomeReturn = HomeReturn(state: seq<real>, terminated: bool)

  class Environment {
    var targetAngle: int
    /** Every hardware action taken, oldest first. */
    var events: seq<HwEvent>

    /** Draws the first target angle (`draw` is the integer drawn from
        [1, 5)), then sets the gripper up. */
    constructor (draw: int)
      requires 1 <= draw <= 4
      ensures targetAngle == ChooseTargetAngle(draw) && events == [Setup]
    {
      targetAngle := ChooseTargetAngle(draw);
      events := [Setup];
    }

    /** `reset`: home the gripper, append the valve yaw (-1 when it is not
        seen) to the home state, and draw a fresh target angle. A fault of
        `home` escapes before anything else happens. */
    method Reset(home: Result<HomeReturn>, detect: nat -> Detection, draw: int) returns (r: Result<HomeReturn>)
      requires 1 <= draw <= 4
      modifies this
      ensures home.Err? ==> r == home && targetAngle == old(targetAngle) && events == old(events) + [Home]
      ensures home.Ok? ==>
        && events == old(events) + [Home] + Detects(AttemptsFrom(detect, 0))
        && targetAngle == ChooseTargetAngle(draw)
        && r == Ok(HomeReturn(home.value.state + [YawOrMissing(LookedUpPose(detect, ValveMarker))], home.value.terminated))
    {
      events := events + [Home];
      if home.Err? {
        return home;
      }
      var pose, attempts := GetMarkerPose(ValveMarker, detect);
      events := events + Detects(attempts);
      var state := home.value.state + [YawOrMissing(pose)];
      targetAngle := ChooseTargetAngle(draw);
      r := Ok(HomeReturn(state, home.value.terminated));
    }

    /** `step`: look up the valve pose, move the gripper, look the pose up
        again, append the final yaw (-1 when it is not seen) to the state the
        move returned, and score the move. A fault of the move escapes. */
    method Step(action: seq<real>, move: Result<seq<real>>, before: nat -> Detection, after: nat -> Detection)
      returns (r: Result<StepReturn>)
      modifies this
      ensures targetAngle == old(targetAngle)
      ensures move.Err? ==>
        && r == Err(move.fault)
        && events == old(events) + Detects(AttemptsFrom(before, 0)) + [Move(action)]
      ensures move.Ok? ==>
        && events == old(events) + Detects(AttemptsFrom(before, 0)) + [Move(action)] + Detects(AttemptsFrom(after, 0))
        && var final := LookedUpPose(after, ValveMarker);
           var score := RewardFunction(targetAngle, LookedUpPose(before, ValveMarker), final);
           r == Ok(StepReturn(move.value + [YawOrMissing(final)], score.0, score.1, false))
    {
      var startPose, n1 := GetMarkerPose(ValveMarker, before);
      events := events + Detects(n1) + [Move(action)];
      if move.Err? {
        return Err(move.fault);
      }
      var finalPose, n2 := GetMarkerPose(ValveMarker, after);
      events := events + Detects(n2);
      var state := move.value + [YawOrMissing(finalPose)];
      var score := RewardFunction(targetAngle, startPose, finalPose);
      var truncated := false;
      r := Ok(StepReturn(state, score.0, score.1, truncated));
    }
  }
}
