/** The absolute-distance translation task of
    scripts/environments/TranslationEnvironment.py: a goal position drawn from
    a fixed rectangle, a reward that is minus the remaining distance to the
    goal, and termination once the object is within the noise tolerance. The
    Euclidean distance is an uninterpreted function parameter. */
module TranslationEnvironment {
  import opened Common

  /** The reward for reaching the goal. */
  const GoalReward: real := 500.0

  /** The goal rectangle: x in [225, 450), y in [150, 225). */
  const GoalMinX: int := 225
  const GoalMaxX: int := 450
  const GoalMinY: int := 150
  const GoalMaxY: int := 225

  /** The first two coordinates of a vector, or fewer when it is shorter (`v[0:2]`). */
  function First2(v: seq<real>): (xy: seq<real>)
    ensures |xy| <= 2 && xy <= v
    ensures |v| >= 2 ==> xy == [v[0], v[1]]
  {
    if |v| <= 2 then v else v[..2]
  }

  /** `choose_goal`: overwrite the first two entries of a slice of the
      object's state with the drawn coordinates. The slice holds as many
      entries as the state, up to two; assigning past its end raises. */
  method ChooseGoal(objectState: seq<real>, drawX: int, drawY: int) returns (r: Result<seq<real>>)
    requires GoalMinX <= drawX < GoalMaxX && GoalMinY <= drawY < GoalMaxY
    ensures r.Ok? <==> |objectState| >= 2
    ensures r.Err? ==> r.fault == IndexError
    ensures r.Ok? ==> r.value == [drawX as real, drawY as real]
    ensures r.Ok? ==>
      && GoalMinX as real <= r.value[0] < GoalMaxX as real
      && GoalMinY as real <= r.value[1] < GoalMaxY as real
  {
    var slice := First2(objectState);
    var position := new real[|slice|](i => if 0 <= i < |slice| then slice[i] else 0.0);
    if position.Length < 1 {
      return Err(IndexError);
    }
    position[0] := drawX as real;
    if position.Length < 2 {
      return Err(IndexError);
    }
    position[1] := drawY as real;
    r := Ok(position[..]);
  }

  /** `reward_function`: a missing start position, then a missing final
      position, ends the episode with no reward. Otherwise the episode ends,
      with the goal reward, exactly when the final position's first two
      coordinates are within the tolerance of the target's; short of that the
      reward is minus the distance, and so below minus the tolerance. */
  function RewardFunction(targetGoal: seq<real>, goalBefore: Option<seq<real>>, goalAfter: Option<seq<real>>,
                          noiseTolerance: real, dist: (seq<real>, seq<real>) -> real): (r: (real, bool))
    ensures goalBefore.None? ==> r == (0.0, true)
    ensures goalAfter.None? ==> r == (0.0, true)
    ensures goalBefore.Some? && goalAfter.Some? ==>
      var d := dist(First2(targetGoal), First2(goalAfter.value));
      && (r.1 <==> d <= noiseTolerance)
      && (r.1 ==> r.0 == GoalReward)
      && (!r.1 ==> r.0 == -d && r.0 < -noiseTolerance)
  {
    if goalBefore.None? then (0.0, true)
    else if goalAfter.None? then (0.0, true)
    else
      var goalDifference := dist(First2(targetGoal), First2(goalAfter.value));
      if goalDifference <= noiseTolerance then (GoalReward, true) else (-goalDifference, false)
  }

  /** The start position matters only through its presence check. */
  lemma RewardIgnoresStartPosition(targetGoal: seq<real>, before1: seq<real>, before2: seq<real>,
                                   goalAfter: Option<seq<real>>, noiseTolerance: real,
                                   dist: (seq<real>, seq<real>) -> real)
    ensures RewardFunction(targetGoal, Some(before1), goalAfter, noiseTolerance, dist)
         == RewardFunction(targetGoal, Some(before2), goalAfter, noiseTolerance, dist)
  {
  }

  /** Only the first two coordinates of the target and the final position count. */
  lemma RewardUsesPlanarPosition(target1: seq<real>, target2: seq<real>, before: seq<real>,
                                 after1: seq<real>, after2: seq<real>, noiseTolerance: real,
                                 dist: (seq<real>, seq<real>) -> real)
    requires First2(target1) == First2(target2) && First2(after1) == First2(after2)
    ensures RewardFunction(target1, Some(before), Some(after1), noiseTolerance, dist)
         == RewardFunction(target2, Some(before), Some(after2), noiseTolerance, dist)
  {
  }

  /** Unlike a progress reward, holding still away from the goal is still
      penalised by the whole remaining distance. */
  lemma StandingStillIsPenalised(targetGoal: seq<real>, position: seq<real>, noiseTolerance: real,
                                 dist: (seq<real>, seq<real>) -> real)
    requires noiseTolerance >= 0.0
    requires !RewardFunction(targetGoal, Some(position), Some(position), noiseTolerance, dist).1
    ensures RewardFunction(targetGoal, Some(position), Some(position), noiseTolerance, dist).0 < 0.0
  {
  }

  /** A list that `add_goal` grows in place and hands back. */
  class StateList {
    var items: seq<real>

    constructor (items: seq<real>)
      ensures this.items == items
    {
      this.items := items;
    }
  }

  class Translation {
    /** The object's state when the environment was created. */
    var goalState: seq<real>

    constructor (objectState: seq<real>)
      ensures goalState == objectState
    {
      goalState := objectState;
    }

    /** `add_goal`: append the goal's first and then its second entry to the
        list itself, and return that same list. A goal with fewer than two
        entries raises after appending what it has. */
    method AddGoal(state: StateList) returns (r: Result<StateList>)
      modifies state
      ensures r.Ok? <==> |goalState| >= 2
      ensures r.Ok? ==> r.value == state && state.items == old(state.items) + [goalState[0], goalState[1]]
      ensures r.Err? ==> r.fault == IndexError && state.items == old(state.items) + goalState
    {
      if |goalState| < 1 {
        return Err(IndexError);
      }
      state.items := state.items + [goalState[0]];
      if |goalState| < 2 {
        return Err(IndexError);
      }
      state.items := state.items + [goalState[1]];
      r := Ok(state);
    }
  }
}
