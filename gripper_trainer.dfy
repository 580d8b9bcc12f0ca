/** The training driver of scripts/gripper_trainer.py: how a failed
    environment step or reset is recovered (or ends the run), and the
    step-count schedule and episode bookkeeping of the training loop.

    The environment, the agent, the replay memory and the error-handling
    helper are opaque: what they return is given as input. */
module GripperTrainer {
  import opened Common

  /** An action taken on the way out of a run that cannot recover. */
  datatype Shutdown = CloseGripper | SaveModels(tag: string)

  /** Close the gripper, then save the models under the error tag. */
  const ErrorShutdown: seq<Shutdown> := [CloseGripper, SaveModels("error_models")]

  /** The exit status of a run that cannot recover. */
  const ErrorExitCode: int := 1

  /** What a recovering call amounts to: a value, the end of the run (after
      the shutdown actions), a fault that is not handled here, or, for a call
      that keeps retrying, more retries than the given attempts cover. */
  datatype Recovery<T> =
    | Returned(value: T)
    | Exited(code: int, shutdown: seq<Shutdown>)
    | Propagates(fault: Fault)
    | StillRetrying

  /** The faults the trainer tries to recover from: every OSError (Python's
      `EnvironmentError`), with or without a gripper, and every gripper fault. */
  predicate Recoverable(f: Fault)
  {
    IsOsError(f) || f.GripperError?
  }

  /** `environment_step`: `step` is what the environment's step did, `homed`
      whether homing the gripper after a failure succeeded, and `objectPose`
      the object pose read afterwards. */
  function EnvironmentStep(step: Result<StepReturn>, homed: bool, objectPose: seq<real>): (r: Recovery<StepReturn>)
    ensures step.Ok? ==> r == Returned(step.value)
    ensures step.Err? && !Recoverable(step.fault) ==> r == Propagates(step.fault)
    ensures step.Err? && Recoverable(step.fault) && homed ==> r == Returned(StepReturn(objectPose, 0.0, false, false))
    ensures step.Err? && Recoverable(step.fault) && !homed ==> r == Exited(ErrorExitCode, ErrorShutdown)
  {
    match step
    case Ok(v) => Returned(v)
    case Err(f) =>
      if !Recoverable(f) then Propagates(f)
      else if homed then Returned(StepReturn(objectPose, 0.0, false, false))
      else Exited(ErrorExitCode, ErrorShutdown)
  }

  /** A recovered step never ends the episode, so a failure is not allowed
      to skip the rest of it: fed to the training loop, it adds a zero
      extrinsic reward to the running episode and only counts one more step. */
  lemma RecoveredStepContinuesEpisode(cfg: TrainingConfig, alg: AlgorithmConfig, s: TrainState, k: nat,
                                      f: Fault, objectPose: seq<real>, intrinsic: real)
    requires ValidPeriods(cfg) && Recoverable(f)
    ensures var r := EnvironmentStep(Err(f), true, objectPose);
      && r.Returned?
      && var s' := TrainStep(cfg, alg, s, k, Tick(r.value.reward, intrinsic, r.value.done, r.value.truncated));
         && s'.episodeNum == s.episodeNum
         && s'.episodeTimesteps == s.episodeTimesteps + 1
         && s'.episodeReward == s.episodeReward
         && s'.evaluations == s.evaluations
  {
  }

  /** One attempt of `environment_reset`: what the environment's reset did and
      whether homing after a failure succeeded. */
  datatype ResetAttempt<T> = ResetAttempt(reset: Result<T>, homed: bool)

  /** What Python raises when a call would exceed the interpreter's recursion limit. */
  const RecursionError: Fault := OtherError("RecursionError")

  /** Whether an attempt fails in a way that makes the trainer try again. */
  predicate Retried<T>(a: ResetAttempt<T>)
  {
    a.reset.Err? && Recoverable(a.reset.fault) && a.homed
  }

  /** Index of the first attempt that is not retried, or |attempts|. */
  function FirstSettled<T>(attempts: seq<ResetAttempt<T>>): (k: nat)
    ensures k <= |attempts|
    ensures forall i :: 0 <= i < k ==> Retried(attempts[i])
    ensures k < |attempts| ==> !Retried(attempts[k])
  {
    if attempts == [] || !Retried(attempts[0]) then 0 else 1 + FirstSettled(attempts[1..])
  }

  /** `environment_reset`, retrying by calling itself from its own handler
      after every recovered failure; `attempts[i]` is what its i-th attempt
      sees. Each retry nests one call deeper, and `room` is the number of
      nested calls the interpreter's recursion limit still allows: the retry
      that would exceed it raises a RecursionError, which no handler on the
      way out catches, so the run ends without closing the gripper or saving
      the models. */
  function EnvironmentReset<T>(attempts: seq<ResetAttempt<T>>, room: nat): (r: Recovery<T>)
    ensures var k := FirstSettled(attempts);
      && (room < k ==> r == Propagates(RecursionError))
      && (k <= room && k == |attempts| ==> r == StillRetrying)
      && (k <= room && k < |attempts| && attempts[k].reset.Ok? ==> r == Returned(attempts[k].reset.value))
      && (k <= room && k < |attempts| && attempts[k].reset.Err? && !Recoverable(attempts[k].reset.fault) ==>
            r == Propagates(attempts[k].reset.fault))
      && (k <= room && k < |attempts| && attempts[k].reset.Err? && Recoverable(attempts[k].reset.fault) ==>
            r == Exited(ErrorExitCode, ErrorShutdown))
  {
    if attempts == [] then StillRetrying
    else
      match attempts[0].reset
      case Ok(v) => Returned(v)
      case Err(f) =>
        if !Recoverable(f) then Propagates(f)
        else if !attempts[0].homed then Exited(ErrorExitCode, ErrorShutdown)
        else if room == 0 then Propagates(RecursionError)
        else EnvironmentReset(attempts[1..], room - 1)
  }

  /** Attempts that each fail with the given recovered fault, then one that succeeds. */
  function FailThenSucceed<T>(failures: seq<Fault>, value: T): (attempts: seq<ResetAttempt<T>>)
    ensures |attempts| == |failures| + 1
  {
    if failures == [] then [ResetAttempt(Ok(value), false)]
    else [ResetAttempt(Err(failures[0]), true)] + FailThenSucceed(failures[1..], value)
  }

  /** The retries are bounded only by the recursion limit: as many recovered
      failures as it leaves room for are retried, and the reset that then
      succeeds is returned; one more failure ends the run with a
      RecursionError that the trainer does not handle. */
  lemma {:induction false} ResetRetriesUpToRecursionLimit<T>(failures: seq<Fault>, value: T, room: nat)
    requires forall i :: 0 <= i < |failures| ==> Recoverable(failures[i])
    ensures FirstSettled(FailThenSucceed(failures, value)) == |failures|
    ensures |failures| <= room ==> EnvironmentReset(FailThenSucceed(failures, value), room) == Returned(value)
    ensures |failures| > room ==> EnvironmentReset(FailThenSucceed(failures, value), room) == Propagates(RecursionError)
    decreases |failures|
  {
    if failures != [] {
      var attempts := FailThenSucceed(failures, value);
      assert attempts[1..] == FailThenSucceed(failures[1..], value);
      ResetRetriesUpToRecursionLimit(failures[1..], value, if room == 0 then 0 else room - 1);
    }
  }

  /** The training configuration the loop reads. */
  datatype TrainingConfig = TrainingConfig(
    maxStepsTraining: nat,
    maxStepsExploration: int,
    numberStepsPerEvaluation: int,
    numberStepsPerTrainPolicy: int,
    g: nat)

  /** The algorithm settings the loop reads; each may be absent. */
  datatype AlgorithmConfig = AlgorithmConfig(
    intrinsicOn: Option<bool>,
    minNoise: Option<real>,
    noiseDecay: Option<real>,
    noiseScale: Option<real>)

  function IntrinsicOn(alg: AlgorithmConfig): bool
  {
    alg.intrinsicOn == Some(true)
  }

  function MinNoise(alg: AlgorithmConfig): real
  {
    if alg.minNoise.Some? then alg.minNoise.value else 0.0
  }

  function NoiseDecay(alg: AlgorithmConfig): real
  {
    if alg.noiseDecay.Some? then alg.noiseDecay.value else 1.0
  }

  function InitialNoise(alg: AlgorithmConfig): real
  {
    if alg.noiseScale.Some? then alg.noiseScale.value else 0.1
  }

  /** Both periods are used as divisors. */
  predicate ValidPeriods(cfg: TrainingConfig)
  {
    cfg.numberStepsPerEvaluation != 0 && cfg.numberStepsPerTrainPolicy != 0
  }

  /** Step k samples a random action instead of asking the policy. */
  predicate IsExplorationStep(cfg: TrainingConfig, k: int)
  {
    k < cfg.maxStepsExploration
  }

  /** Step k trains the policy. Whether an integer is a multiple of a nonzero
      period does not depend on the rounding of the remainder. */
  predicate PolicyUpdateDue(cfg: TrainingConfig, k: int)
    requires ValidPeriods(cfg)
  {
    k >= cfg.maxStepsExploration && k % cfg.numberStepsPerTrainPolicy == 0
  }

  /** Step k asks for an evaluation at the end of its episode. */
  predicate EvaluationDue(cfg: TrainingConfig, k: int)
    requires ValidPeriods(cfg)
  {
    (k + 1) % cfg.numberStepsPerEvaluation == 0
  }

  /** Step k adds the agent's intrinsic reward to what the memory stores. */
  predicate IntrinsicActive(cfg: TrainingConfig, alg: AlgorithmConfig, k: int)
  {
    IntrinsicOn(alg) && k > cfg.maxStepsExploration
  }

  /** `noise_scale * noise_decay`. */
  function Decayed(noiseScale: real, noiseDecay: real): real
  {
    noiseScale * noiseDecay
  }

  function Max(a: real, b: real): real
  {
    if a < b then b else a
  }

  /** What one step of the loop gets back: the extrinsic reward and episode
      flags of the (recovered) environment step, and the intrinsic reward the
      agent would give. */
  datatype Tick = Tick(extrinsic: real, intrinsic: real, done: bool, truncated: bool)

  predicate Ends(t: Tick)
  {
    t.done || t.truncated
  }

  /** The loop's variables, with the memory's rewards, the number of policy
      updates and the steps at which an evaluation ran made visible. */
  datatype TrainState = TrainState(
    episodeTimesteps: nat,
    episodeReward: real,
    episodeNum: nat,
    evaluate: bool,
    noiseScale: real,
    policyUpdates: nat,
    evaluations: seq<nat>,
    memoryRewards: seq<real>)

  function InitialState(alg: AlgorithmConfig): TrainState
  {
    TrainState(0, 0.0, 0, false, InitialNoise(alg), 0, [], [])
  }

  /** One iteration of the loop, at step k. */
  function TrainStep(cfg: TrainingConfig, alg: AlgorithmConfig, s: TrainState, k: nat, t: Tick): TrainState
    requires ValidPeriods(cfg)
  {
    var noise := if IsExplorationStep(cfg, k) then s.noiseScale
                 else Max(MinNoise(alg), Decayed(s.noiseScale, NoiseDecay(alg)));
    var intrinsic := if IntrinsicActive(cfg, alg, k) then t.intrinsic else 0.0;
    var updates := s.policyUpdates + if PolicyUpdateDue(cfg, k) then cfg.g else 0;
    var evaluate := s.evaluate || EvaluationDue(cfg, k);
    var memory := s.memoryRewards + [t.extrinsic + intrinsic];
    if Ends(t) then
      TrainState(0, 0.0, s.episodeNum + 1, false, noise, updates,
                 s.evaluations + (if evaluate then [k] else []), memory)
    else
      TrainState(s.episodeTimesteps + 1, s.episodeReward + t.extrinsic, s.episodeNum, evaluate, noise, updates,
                 s.evaluations, memory)
  }

  /** The state after the first n iterations. */
  function RunSteps(cfg: TrainingConfig, alg: AlgorithmConfig, ticks: seq<Tick>, n: nat): TrainState
    requires ValidPeriods(cfg) && n <= |ticks|
  {
    if n == 0 then InitialState(alg)
    else TrainStep(cfg, alg, RunSteps(cfg, alg, ticks, n - 1), n - 1, ticks[n - 1])
  }

  /** `train`'s loop; `ticks[k]` is what step k gets back. */
  method Train(cfg: TrainingConfig, alg: AlgorithmConfig, ticks: seq<Tick>) returns (s: TrainState)
    requires ValidPeriods(cfg) && |ticks| == cfg.maxStepsTraining
    ensures s == RunSteps(cfg, alg, ticks, |ticks|)
  {
    var intrinsicOn := IntrinsicOn(alg);
    var minNoise := MinNoise(alg);
    var noiseDecay := NoiseDecay(alg);
    var noiseScale := InitialNoise(alg);
    var episodeTimesteps: nat := 0;
    var episodeReward := 0.0;
    var episodeNum: nat := 0;
    var evaluate := false;
    var policyUpdates: nat := 0;
    var evaluations: seq<nat> := [];
    var memoryRewards: seq<real> := [];
    for k := 0 to cfg.maxStepsTraining
      invariant TrainState(episodeTimesteps, episodeReward, episodeNum, evaluate, noiseScale,
                           policyUpdates, evaluations, memoryRewards)
             == RunSteps(cfg, alg, ticks, k)
    {
      var t := ticks[k];
      ghost var before := RunSteps(cfg, alg, ticks, k);
      ghost var after := TrainStep(cfg, alg, before, k, t);
      assert noiseScale == before.noiseScale && noiseDecay == NoiseDecay(alg) && minNoise == MinNoise(alg);
      episodeTimesteps := episodeTimesteps + 1;
      if k < cfg.maxStepsExploration {
        // a random action; the noise is untouched
      } else {
        noiseScale := Decayed(noiseScale, noiseDecay);
        noiseScale := Max(minNoise, noiseScale);
      }
      assert noiseScale == after.noiseScale;
      var intrinsicReward := 0.0;
      if intrinsicOn && k > cfg.maxStepsExploration {
        intrinsicReward := t.intrinsic;
      }
      var totalReward := t.extrinsic + intrinsicReward;
      memoryRewards := memoryRewards + [totalReward];
      assert memoryRewards == after.memoryRewards;
      episodeReward := episodeReward + t.extrinsic;
      if k >= cfg.maxStepsExploration && k % cfg.numberStepsPerTrainPolicy == 0 {
        for i := 0 to cfg.g
          invariant policyUpdates == before.policyUpdates + i
        {
          policyUpdates := policyUpdates + 1;
        }
      }
      assert policyUpdates == after.policyUpdates;
      if (k + 1) % cfg.numberStepsPerEvaluation == 0 {
        evaluate := true;
      }
      assert evaluate == before.evaluate || EvaluationDue(cfg, k);
      if t.done || t.truncated {
        if evaluate {
          evaluations := evaluations + [k];
          evaluate := false;
        }
        episodeTimesteps := 0;
        episodeReward := 0.0;
        episodeNum := episodeNum + 1;
      }
      assert RunSteps(cfg, alg, ticks, k + 1) == TrainStep(cfg, alg, before, k, t);
    }
    s := TrainState(episodeTimesteps, episodeReward, episodeNum, evaluate, noiseScale,
                    policyUpdates, evaluations, memoryRewards);
  }

  /** Number of the first n steps that end an episode. */
  function CountEnds(ticks: seq<Tick>, n: nat): (c: nat)
    requires n <= |ticks|
    ensures c <= n
  {
    if n == 0 then 0 else CountEnds(ticks, n - 1) + if Ends(ticks[n - 1]) then 1 else 0
  }

  /** The step at which the episode running after the first n steps began:
      just after the last of them that ended an episode, or 0. */
  function EpisodeStart(ticks: seq<Tick>, n: nat): (b: nat)
    requires n <= |ticks|
    ensures b <= n
    ensures forall i :: b <= i < n ==> !Ends(ticks[i])
    ensures b > 0 ==> Ends(ticks[b - 1])
  {
    if n == 0 then 0 else if Ends(ticks[n - 1]) then n else EpisodeStart(ticks, n - 1)
  }

  /** Sum of the extrinsic rewards of steps lo to hi - 1. */
  function ExtrinsicSum(ticks: seq<Tick>, lo: nat, hi: nat): real
    requires lo <= hi <= |ticks|
  {
    if hi == lo then 0.0 else ExtrinsicSum(ticks, lo, hi - 1) + ticks[hi - 1].extrinsic
  }

  /** Episode bookkeeping: the episode number counts the steps that ended an
      episode, the timestep counter counts the steps of the running episode,
      and the episode reward is the sum of their extrinsic rewards only. */
  lemma {:induction false} EpisodeBookkeeping(cfg: TrainingConfig, alg: AlgorithmConfig, ticks: seq<Tick>, n: nat)
    requires ValidPeriods(cfg) && n <= |ticks|
    ensures var s := RunSteps(cfg, alg, ticks, n);
      var b := EpisodeStart(ticks, n);
      && s.episodeNum == CountEnds(ticks, n)
      && s.episodeTimesteps == n - b
      && s.episodeReward == ExtrinsicSum(ticks, b, n)
  {
    if n > 0 {
      EpisodeBookkeeping(cfg, alg, ticks, n - 1);
    }
  }

  /** The memory receives one reward per step: the extrinsic reward, plus the
      intrinsic reward exactly on the steps where it is active. */
  lemma {:induction false} MemoryRewards(cfg: TrainingConfig, alg: AlgorithmConfig, ticks: seq<Tick>, n: nat)
    requires ValidPeriods(cfg) && n <= |ticks|
    ensures var m := RunSteps(cfg, alg, ticks, n).memoryRewards;
      && |m| == n
      && (forall k :: 0 <= k < n && IntrinsicActive(cfg, alg, k) ==> m[k] == ticks[k].extrinsic + ticks[k].intrinsic)
      && (forall k :: 0 <= k < n && !IntrinsicActive(cfg, alg, k) ==> m[k] == ticks[k].extrinsic)
  {
    if n > 0 {
      MemoryRewards(cfg, alg, ticks, n - 1);
    }
  }

  /** The first step that asks the policy (k == max_steps_exploration) still
      stores only its extrinsic reward: the intrinsic reward starts one step later. */
  lemma FirstPolicyStepStoresExtrinsicOnly(cfg: TrainingConfig, alg: AlgorithmConfig, ticks: seq<Tick>, n: nat)
    requires ValidPeriods(cfg) && n <= |ticks|
    requires 0 <= cfg.maxStepsExploration < n
    ensures !IsExplorationStep(cfg, cfg.maxStepsExploration)
    ensures var m := RunSteps(cfg, alg, ticks, n).memoryRewards;
      cfg.maxStepsExploration < |m| && m[cfg.maxStepsExploration] == ticks[cfg.maxStepsExploration].extrinsic
  {
    MemoryRewards(cfg, alg, ticks, n);
  }

  /** The exploration steps leave the noise scale alone; after any policy step
      it is never below the floor. */
  lemma {:induction false} NoiseFloor(cfg: TrainingConfig, alg: AlgorithmConfig, ticks: seq<Tick>, n: nat)
    requires ValidPeriods(cfg) && n <= |ticks|
    ensures n <= cfg.maxStepsExploration ==> RunSteps(cfg, alg, ticks, n).noiseScale == InitialNoise(alg)
    ensures n > cfg.maxStepsExploration && n > 0 ==> RunSteps(cfg, alg, ticks, n).noiseScale >= MinNoise(alg)
  {
    if n > 0 {
      NoiseFloor(cfg, alg, ticks, n - 1);
    }
  }

  /** Number of the first n steps that train the policy. */
  function CountTrainingSteps(cfg: TrainingConfig, n: nat): (c: nat)
    requires ValidPeriods(cfg)
    ensures c <= n
  {
    if n == 0 then 0 else CountTrainingSteps(cfg, n - 1) + if PolicyUpdateDue(cfg, n - 1) then 1 else 0
  }

  lemma MultiplySuccessor(a: nat, b: nat)
    ensures a * (b + 1) == a * b + a
  {
  }

  /** Exactly G policy updates run at every training step and none elsewhere:
      none at all while exploring. */
  lemma {:induction false} PolicyUpdates(cfg: TrainingConfig, alg: AlgorithmConfig, ticks: seq<Tick>, n: nat)
    requires ValidPeriods(cfg) && n <= |ticks|
    ensures RunSteps(cfg, alg, ticks, n).policyUpdates == cfg.g * CountTrainingSteps(cfg, n)
    ensures n <= cfg.maxStepsExploration ==> RunSteps(cfg, alg, ticks, n).policyUpdates == 0
  {
    if n > 0 {
      PolicyUpdates(cfg, alg, ticks, n - 1);
      MultiplySuccessor(cfg.g, CountTrainingSteps(cfg, n - 1));
    }
  }

  /** Whether some step in [lo, hi) asked for an evaluation. */
  predicate DueWithin(cfg: TrainingConfig, lo: int, hi: int)
    requires ValidPeriods(cfg)
  {
    exists j :: lo <= j < hi && EvaluationDue(cfg, j)
  }

  lemma DueWithinExtend(cfg: TrainingConfig, lo: int, hi: int)
    requires ValidPeriods(cfg) && lo <= hi
    ensures DueWithin(cfg, lo, hi + 1) <==> DueWithin(cfg, lo, hi) || EvaluationDue(cfg, hi)
  {
    if DueWithin(cfg, lo, hi + 1) && !EvaluationDue(cfg, hi) {
      var j :| lo <= j < hi + 1 && EvaluationDue(cfg, j);
      assert j < hi;
    }
  }

  /** The evaluate flag is raised by a due step and is lowered only when an
      episode ends: it is up exactly when a step of the running episode was
      due. An evaluation runs exactly at the end of each episode with a due
      step, and only there. */
  lemma {:induction false} EvaluationSchedule(cfg: TrainingConfig, alg: AlgorithmConfig, ticks: seq<Tick>, n: nat)
    requires ValidPeriods(cfg) && n <= |ticks|
    ensures var s := RunSteps(cfg, alg, ticks, n);
      && (s.evaluate <==> DueWithin(cfg, EpisodeStart(ticks, n), n))
      && (forall e :: e in s.evaluations <==>
            (&& 0 <= e < n && Ends(ticks[e])
             && DueWithin(cfg, EpisodeStart(ticks, e), e + 1)))
  {
    if n > 0 {
      var k := n - 1;
      EvaluationSchedule(cfg, alg, ticks, k);
      DueWithinExtend(cfg, EpisodeStart(ticks, k), k);
      var s := RunSteps(cfg, alg, ticks, k);
      var s' := RunSteps(cfg, alg, ticks, n);
      if Ends(ticks[k]) {
        assert !DueWithin(cfg, n, n);
        assert s'.evaluations == s.evaluations + (if s.evaluate || EvaluationDue(cfg, k) then [k] else []);
      } else {
        assert s'.evaluations == s.evaluations;
        assert EpisodeStart(ticks, n) == EpisodeStart(ticks, k);
      }
    }
  }
}
