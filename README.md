# Gripper training rig — a Dafny model of its decision logic

The UoA-CARES gripper rig trains a reinforcement-learning policy on a real
robotic gripper. Between its opaque hardware calls (Dynamixel bus
transactions, camera frames, a serial line to a magnetic sensor, the random
number generator) sit small rules:

- the register table and result classification of a servo;
- the retry and resend loops of three object-pose sources;
- the re-wrapping of environment errors;
- the goal sampling, reward and termination rules of three tasks, and the
  order in which each assembles its observation;
- the recovery policy, step-count schedule and episode bookkeeping of the
  trainer.

This project models those rules and proves what they promise. Every
hardware or library call is an input:

- a bus reply, a call status (`Result<()>`), a sequence of serial replies,
  or a function from attempt number to marker detection;
- the random draw, given with a `requires` stating its range;
- the Euclidean distance and Python's `float()`, as uninterpreted function
  parameters.

Loops that Python lets run forever (the magnet's resend loop, a
non-blindable marker search) run over a finite oracle. When the oracle
runs out, they end in an explicit outcome: `Blocked` or `StillPolling`.
The trainer's reset retry recurses, so it is bounded by Python's recursion
limit: it takes the number of nested calls still allowed as a parameter,
and ends in `StillRetrying` when its attempts run out first.

Files and modules:

- `common.dfy` (`Common`): Option/Result and the faults that cross layers.
  Also `Issued`/`Outcome`, which describe a straight-line sequence of calls
  that stops at the first one that raises.
- `text.dfy` (`Text`): Python's `str(int)` and `str.split(",")`, with their
  round trips.
- `servo.dfy` (`ServoProtocol`): `scripts/Servo.py`. Class `Servo` has a
  transaction log.
- `objects.dfy` (`Objects`): `scripts/Objects.py`. It holds the exception
  handler, the command codes, class `ServoObject`, the marker search, and
  class `MagnetObject` with its written requests and unread replies.
- `rotation_environment.dfy` (`RotationEnvironment`):
  `scripts/gripper_environment.py`.
- `translation_environment.dfy` (`TranslationEnvironment`):
  `scripts/environments/TranslationEnvironment.py`.
- `two_finger_translation.dfy` (`TwoFingerTranslation`):
  `scripts/environments/two_finger/translation.py`.
- `gripper_trainer.dfy` (`GripperTrainer`): `scripts/gripper_trainer.py`.

The servo's settings are `const` fields, so no operation can change them
after construction.

Some facts about the code that a reader might not expect:

- The GET_YAW request is the two characters `0,`, with no newline (scripts/Objects.py:124).
- A decode or number-parse error on the serial line makes `get_yaw`/`offset` return None, despite the "retrying" in the log message (scripts/Objects.py:135-136, 151-152).
- The serial port is opened without a read timeout, so every line read ends in a newline. A reply tagged "YAW" or "OFFSET" therefore always has a second field, and neither call can raise IndexError.
- The rotation task's goal bonus is +100 (scripts/gripper_environment.py:75).
- The rotation distance is the plain absolute difference, with no 360-degree wrap, and its tolerance is the literal 3.
- `environment_reset` retries after every successful homing by calling itself from inside its own handler (scripts/gripper_trainer.py:104-109). A long run of failures therefore ends in a RecursionError, which `except (EnvironmentError, GripperError)` does not catch: the run crashes without closing the gripper or saving the models.

## Model

| member | source | states |
|---|---|---|
| ServoProtocol.AddressTable | scripts/Servo.py:10-19 | the register table: torque_enable 24, led 25, goal_position 30, moving_speed 32, torque_limit 35, present_position 37, present_velocity 38, moving 49 |
| ServoProtocol.AddressesDistinct | scripts/Servo.py:10-19 | two registers have the same address if and only if they are the same register |
| ServoProtocol.ProcessResult | scripts/Servo.py:77-83 | a comm failure is reported exactly when the comm result is not COMM_SUCCESS, whatever the packet error; a packet error exactly when comm succeeded and the error is nonzero; success otherwise; the classification is total (never raises) |
| ServoProtocol.Servo.constructor | scripts/Servo.py:21-32 | stores the six settings; no transaction issued yet |
| ServoProtocol.Servo.VerifyStep | scripts/Servo.py:74-75 | a step is valid if and only if min <= step <= max |
| ServoProtocol.Servo.VerifyStepInclusive | scripts/Servo.py:74-75 | both bounds are valid steps, the steps just outside them are not |
| ServoProtocol.Servo.TurnOnLED | scripts/Servo.py:35-37 | appends exactly one 1-byte write of the LED colour to address 25; the report classifies the bus reply |
| ServoProtocol.Servo.LimitTorque | scripts/Servo.py:40-42 | appends exactly one 2-byte write of the torque limit to address 35; the report classifies the reply |
| ServoProtocol.Servo.EnableTorque | scripts/Servo.py:45-47 | appends exactly one 2-byte write of 1 to address 24; the report classifies the reply |
| ServoProtocol.Servo.DisableTorque | scripts/Servo.py:50-52 | appends exactly one 1-byte write of 0 to address 24 (a narrower write than enabling); the report classifies the reply |
| ServoProtocol.Servo.LimitSpeed | scripts/Servo.py:55-57 | appends exactly one 2-byte write of the speed limit to address 32; the report classifies the reply |
| ServoProtocol.Servo.MovingCheck | scripts/Servo.py:60-63 | appends exactly one 1-byte read of address 49 and returns the data component of the answer |
| ServoProtocol.Servo.PresentPosition | scripts/Servo.py:66-71 | appends exactly one 2-byte read of address 37 and returns the bus's whole answer unchanged |
| Objects.ExceptionHandler | scripts/Objects.py:17-27 | a normal return and any fault that is not an OSError pass through unchanged; an OSError raised with a gripper is re-raised as an OSError with the message "Environment for Gripper#<id>: <message>", caused by the original, and with no readable gripper; an OSError without a gripper becomes an AttributeError raised by the handler itself |
| Objects.HandlerTwiceRaisesAttributeError | scripts/Objects.py:23-25 | an error the handler has re-raised is still an OSError but has no gripper, so a second handler around it raises AttributeError |
| Objects.HandlerMessageInjective | scripts/Objects.py:24-25 | the re-raised message determines both the gripper id and the handler's message |
| Objects.RequestTexts | scripts/Objects.py:123-140 | the GET_YAW request is exactly "0," and the OFFSET request exactly "1,<yaw>\n"; the first comma field of each parses to its command's enum value (0 and 1) |
| Objects.WrapYaw | scripts/Objects.py:68-69 | adds 360 exactly when the angle is negative and otherwise returns it unchanged |
| Objects.WrapYawRange | scripts/Objects.py:65-70 | an angle within one turn of zero ends in [0, 360), and wrapping again changes nothing |
| Objects.ServoObject.constructor | scripts/Objects.py:36-50 | the target servo's step range is [0, 4095]; no command given yet |
| Objects.ServoObject.GetYaw | scripts/Objects.py:65-70 | the yaw of an angle within one turn of zero lies in [0, 360) |
| Objects.ServoObject.Reset | scripts/Objects.py:72-75 | for a draw in [min, max] inclusive, the commands given are move(draw) then disable, stopping after the first that raises; the call raises that call's fault, or returns normally |
| Objects.ServoObject.ResetTargetServo | scripts/Objects.py:77-82 | the commands given are enable, move(home), disable, in that order, stopping after the first that raises; that fault goes through the exception handler with "Failed while trying to reset target servo" |
| Objects.ArucoGetYaw | scripts/Objects.py:91-103 | polls frames in order; returns the yaw (orientation[2]) of the first frame holding the marker; when blindable, polls at most detection_attempts frames and returns None exactly after that many misses; when not blindable, only a hit ends the search |
| Objects.DefaultSearchNeverGivesUp | scripts/Objects.py:91-103 | with the defaults (blindable False, 10 attempts) the search never returns None: it ends only on a sighting, and keeps polling exactly when no frame shows the marker |
| Objects.BlindableGivesUpAfterAttempts | scripts/Objects.py:91-103 | a blindable search for an absent marker polls exactly detection_attempts frames and returns None |
| Objects.Decode | scripts/Objects.py:120-121 | a decoded line has at least one comma field |
| Objects.FinalResponse | scripts/Objects.py:129-131 | the resend loop ends on a response whose first field is exactly the expected tag (or on a decode error) |
| Objects.MagnetObject.constructor | scripts/Objects.py:114-118 | with a marker yaw, the sensor is calibrated through offset (its requests written, its replies consumed) and the calibration's outcome is that of offset, never an IndexError, so construction cannot raise; without one, nothing is written |
| Objects.MagnetObject.GetResponse | scripts/Objects.py:120-121 | consumes exactly one reply and returns its comma fields, or a decode error |
| Objects.MagnetObject.Exchange | scripts/Objects.py:126-131 | writes the identical request once, plus once more after every response whose first field is not the tag; consumes exactly the replies up to the first tagged one |
| Objects.MagnetObject.GetYaw | scripts/Objects.py:123-136 | the result is the parsed second field of the first "YAW" reply, or None on a decode or parse error, and never an IndexError; "0," is written once per reply read |
| Objects.MagnetObject.Offset | scripts/Objects.py:138-152 | the result is the truthiness of the second field of the first "OFFSET" reply, or None on a decode error, and never an IndexError; "1,<yaw>\n" is written once per reply read |
| Objects.YawFromFirstTaggedReply | scripts/Objects.py:126-134 | whatever the earlier untagged replies were, the yaw is that of the first "YAW" reply, read after exactly one resend per earlier reply |
| Objects.YawExample | scripts/Objects.py:123-134 | a reply not tagged "YAW" is answered with exactly one resend, after which "YAW,173.5\n" gives 173.5 |
| Objects.UndecodableReplyGivesNone | scripts/Objects.py:135-136 | a reply that does not decode ends get_yaw and offset with None, after reading only that reply |
| Objects.TaggedReplyHasPayload | scripts/Objects.py:115-121 | a newline-terminated line whose first field is a newline-free tag has a second field |
| Objects.YawNeverRaisesIndexError | scripts/Objects.py:129-133 | reading `response[1]` in get_yaw never raises IndexError, whatever the replies |
| Objects.OffsetNeverRaisesIndexError | scripts/Objects.py:145-149 | reading `response[1]` in offset never raises IndexError, whatever the replies |
| Objects.OffsetSinglePayloadIsTrue | scripts/Objects.py:149-150 | a reply "OFFSET,<payload>\n" with one payload field counts as success for every payload, empty included, because the newline stays in the field |
| Objects.OffsetTruthiness | scripts/Objects.py:149-150 | with further fields after the payload, the result is true if and only if the payload is non-empty |
| Objects.OffsetZeroIsTrue | scripts/Objects.py:149-150 | "OFFSET,0\n" counts as success |
| Objects.OffsetEmptyIsFalse | scripts/Objects.py:149-150 | "OFFSET,,\n" counts as failure |
| Text.NatToDecimal | scripts/Objects.py:124 | the rendered number is non-empty and all digits, with no leading zero except for 0 itself |
| Text.IntRoundTrip | scripts/Objects.py:24-25 | the rendered gripper id parses back to the same integer |
| Text.IntToDecimalInjective | scripts/Objects.py:24-25 | distinct gripper ids render differently |
| Text.Split | scripts/Objects.py:121 | a line splits into at least one field, and no field contains a comma |
| Text.SplitJoin | scripts/Objects.py:121 | joining the fields with commas gives the line back |
| Text.JoinSplit | scripts/Objects.py:121 | comma-free fields joined with commas split back into the same fields |
| Common.Issued | scripts/Objects.py:79-82 | the calls issued are a prefix of the plan: up to and including the first that raises, or all of them |
| Common.Outcome | scripts/Objects.py:79-82 | a sequence of calls returns normally if and only if every call does; otherwise it raises the fault of the first call that raises |
| Common.IssuedStep | scripts/Objects.py:79-82 | the first call is always issued, and the rest run only when it returns |
| Common.AllIssuedWhenNoneRaises | scripts/Objects.py:79-82 | when no call raises, the whole plan is issued and the sequence returns normally |
| RotationEnvironment.TargetAngleIsQuadrant | scripts/gripper_environment.py:32-43 | every draw from [1, 5) gives one of 0, 90, 180, 270, each draw a different one, and never the -1 fallback |
| RotationEnvironment.RewardFunction | scripts/gripper_environment.py:45-77 | (0, True) when the final pose is missing, else when the start pose is missing; otherwise terminated if and only if the target is within 3 degrees of the final yaw |
| RotationEnvironment.RewardFollowsProgress | scripts/gripper_environment.py:61-77 | with delta = before-distance minus after-distance, the reward is only the bonus when -3 <= delta <= 3, and bonus + delta otherwise |
| RotationEnvironment.GoalEarnsAtLeastBonus | scripts/gripper_environment.py:67-75 | a terminating step earns at least the +100 bonus |
| RotationEnvironment.NoWrapAroundAtZero | scripts/gripper_environment.py:61 | the distance does not wrap: a valve at 359 degrees with target 0 does not terminate |
| RotationEnvironment.GoalExample | scripts/gripper_environment.py:58-77 | target 90, from 45 to 91: terminated with reward 44 + 100 |
| RotationEnvironment.AttemptsFrom | scripts/gripper_environment.py:85-89 | at most 4 detections; every detection before the last was empty; fewer than 4 only if the last was non-empty |
| RotationEnvironment.GetMarkerPose | scripts/gripper_environment.py:80-95 | performs 1 to 4 detections, stopping at the first with any marker; returns the requested marker's pose from the last detection, or None |
| RotationEnvironment.FirstNonEmptyDetectionDecides | scripts/gripper_environment.py:85-95 | a first detection showing only another marker ends the lookup with None |
| RotationEnvironment.YawOrMissing | scripts/gripper_environment.py:22-25 | a missing pose is appended as -1 |
| RotationEnvironment.Environment.constructor | scripts/gripper_environment.py:9-15 | the target angle is the one `choose_target_angle` picks for the draw, and setting up the gripper is the only gripper action |
| RotationEnvironment.Environment.Reset | scripts/gripper_environment.py:17-30 | homes first, then looks up the pose; the home state gets the marker yaw (or -1) appended and a fresh target angle is drawn; a failed home raises and changes neither |
| RotationEnvironment.Environment.Step | scripts/gripper_environment.py:98-116 | start-pose lookup, then move, then final-pose lookup, in that order; the move's state gets the final yaw (or -1) appended; reward and termination are the reward function's; truncated is always false; a failed move raises before the final lookup |
| TranslationEnvironment.First2 | scripts/environments/TranslationEnvironment.py:35-36 | the slice [0:2]: a prefix of at most two entries, exactly the first two when there are two |
| TranslationEnvironment.ChooseGoal | scripts/environments/TranslationEnvironment.py:18-23 | a 2-element position [x, y] with x in [225, 450) and y in [150, 225); an object state with fewer than two entries raises IndexError |
| TranslationEnvironment.RewardFunction | scripts/environments/TranslationEnvironment.py:25-61 | (0, True) when goal_before is missing, else when goal_after is missing; otherwise done if and only if the distance between the first two coordinates of target and goal_after is within the tolerance, with reward 500; else the reward is minus the distance, strictly below minus the tolerance |
| TranslationEnvironment.RewardIgnoresStartPosition | scripts/environments/TranslationEnvironment.py:25-57 | goal_before matters only through its None check |
| TranslationEnvironment.RewardUsesPlanarPosition | scripts/environments/TranslationEnvironment.py:35-37 | coordinates past the second of the target and goal_after do not matter |
| TranslationEnvironment.StandingStillIsPenalised | scripts/environments/TranslationEnvironment.py:52-57 | with a non-negative tolerance, a step that does not reach the goal has a negative reward even without movement |
| TranslationEnvironment.Translation.constructor | scripts/environments/TranslationEnvironment.py:13-15 | the goal state is the object state at creation |
| TranslationEnvironment.Translation.AddGoal | scripts/environments/TranslationEnvironment.py:66-69 | the passed list itself grows by goal_state[0] then goal_state[1] and is returned, its earlier entries unchanged; a shorter goal state appends what it has and then raises IndexError |
| TwoFingerTranslation.ChooseGoal | scripts/environments/two_finger/translation.py:31-38 | the goal is [x, y] with x in [-30, 120) and y in [60, 110) |
| TwoFingerTranslation.ChooseGoalCoversRectangle | scripts/environments/two_finger/translation.py:21-38 | every integer point of the rectangle is some draw's goal |
| TwoFingerTranslation.EnvironmentInfoToState | scripts/environments/two_finger/translation.py:41-62 | the state is the joint positions, then the velocities only for the "velocity" action type, then the pose states of gripper markers 1 to num_motors+2 in order, then the object's pose state, then the goal; a missing marker raises KeyError |
| TwoFingerTranslation.PoseStatesLayout | scripts/environments/two_finger/translation.py:52-54 | with two-entry pose states, marker i's X and Y sit at offset 2*(i-1) of the marker part |
| TwoFingerTranslation.ObservationLength | scripts/environments/two_finger/translation.py:41-62 | with two-entry pose states the observation length is positions (+ velocities) + 2*(num_motors+2) + 2 + 2, ending with the goal |
| TwoFingerTranslation.Planar | scripts/environments/two_finger/translation.py:72-73 | the slice position[0:2] |
| TwoFingerTranslation.RewardFunction | scripts/environments/two_finger/translation.py:65-103 | done if and only if the current goal is within the tolerance of the object's planar position, and the reward is then exactly 500 |
| TwoFingerTranslation.RewardIsProgress | scripts/environments/two_finger/translation.py:75-97 | short of the goal, the reward is distance-before minus distance-after, positive exactly when the object moved closer and negative exactly when it moved away |
| TwoFingerTranslation.StandingStillEarnsNothing | scripts/environments/two_finger/translation.py:75-97 | short of the goal, an object that did not move earns 0 (unlike the absolute-distance task) |
| TwoFingerTranslation.RewardUsesPlanarObjectOnly | scripts/environments/two_finger/translation.py:70-76 | only the first two position coordinates of each object pose and the current goal affect the reward |
| TwoFingerTranslation.LiftServoMessage | scripts/environments/two_finger/translation.py:140 | the message starts "Gripper#" |
| TwoFingerTranslation.LiftServoInit | scripts/environments/two_finger/translation.py:132-140 | a gripper or servo fault while creating, enabling or reading the velocity of the lift servo is re-raised as a gripper fault naming the gripper, caused by the original; other faults escape unchanged |
| TwoFingerTranslation.LiftServoMessageNamesGripper | scripts/environments/two_finger/translation.py:140 | the message determines the gripper id: different grippers give different messages |
| TwoFingerTranslation.Suspended.constructor | scripts/environments/two_finger/translation.py:119-131 | no actuation issued yet |
| TwoFingerTranslation.Suspended.LiftUp | scripts/environments/two_finger/translation.py:149-150 | one lift move to 3500 |
| TwoFingerTranslation.Suspended.LiftDown | scripts/environments/two_finger/translation.py:152-153 | one lift move to 0 |
| TwoFingerTranslation.Suspended.GrabCube | scripts/environments/two_finger/translation.py:155-158 | lift to 3500, gripper move to [512, 362, 512, 662], lift to 0, in that order, stopping after the first that raises |
| TwoFingerTranslation.Suspended.Reset | scripts/environments/two_finger/translation.py:144-146 | wiggle home, then grab the cube, stopping after the first actuation that raises |
| TwoFingerTranslation.ResetOrder | scripts/environments/two_finger/translation.py:144-158 | a reset that does not fail issues exactly wiggle home, lift 3500, grip [512, 362, 512, 662], lift 0 |
| GripperTrainer.EnvironmentStep | scripts/gripper_trainer.py:130-145 | a step returns its own result; after an OSError (with or without a gripper) or a gripper error with a successful homing, it returns (object pose, 0, False, False); if homing fails, it closes the gripper, saves the "error_models", and exits with 1, with no second attempt; other faults propagate |
| GripperTrainer.RecoveredStepContinuesEpisode | scripts/gripper_trainer.py:138-141 | a recovered step is neither done nor truncated, so in the training loop it keeps the episode running: same episode number, one more timestep, no reward added, no evaluation |
| GripperTrainer.FirstSettled | scripts/gripper_trainer.py:99-109 | every attempt before the first settled one failed recoverably with a successful homing |
| GripperTrainer.EnvironmentReset | scripts/gripper_trainer.py:99-113 | if the recursion limit leaves room for every retry before it, the first attempt not retried decides: its result is returned, a non-recoverable fault propagates, and a failed homing exits with 1 after closing the gripper and saving the models; otherwise an unhandled RecursionError propagates, with no shutdown actions |
| GripperTrainer.ResetRetriesUpToRecursionLimit | scripts/gripper_trainer.py:99-113 | as many recovered failures as the recursion limit leaves room for are retried and the reset that then succeeds is returned; one failure more ends in an unhandled RecursionError |
| GripperTrainer.Train | scripts/gripper_trainer.py:249-341 | the loop's counters, flags, noise, memory rewards, policy updates and evaluations after every step are those of the step-by-step specification |
| GripperTrainer.EpisodeBookkeeping | scripts/gripper_trainer.py:259-341 | the episode number counts the steps that were done or truncated; the timestep counter counts the steps of the running episode; the episode reward sums their extrinsic rewards only |
| GripperTrainer.MemoryRewards | scripts/gripper_trainer.py:287-299 | the memory receives one reward per step: extrinsic plus intrinsic when intrinsic reward is active, extrinsic alone otherwise |
| GripperTrainer.FirstPolicyStepStoresExtrinsicOnly | scripts/gripper_trainer.py:262-295 | step k = max_steps_exploration already asks the policy, yet the memory stores only its extrinsic reward, because the intrinsic test is strict |
| GripperTrainer.NoiseFloor | scripts/gripper_trainer.py:261-271 | exploration steps leave the noise scale alone; after any policy step it is at least min_noise |
| GripperTrainer.PolicyUpdates | scripts/gripper_trainer.py:303-309 | exactly G updates at every step k >= max_steps_exploration with k % number_steps_per_train_policy == 0, none elsewhere, none while exploring |
| GripperTrainer.EvaluationSchedule | scripts/gripper_trainer.py:315-332 | the evaluate flag is up exactly when a step of the running episode had (k+1) % number_steps_per_evaluation == 0; an evaluation runs at exactly those episode ends |

## Left out

- Output and timing: printing, logging, `sleep`, `dynamic_sleep`, wall-clock times, video recording, `env_render`, and `Record`.
- Hardware and library calls are not modelled; their results are inputs.
  - These include the Dynamixel packet handler, serial port opening, camera frames, ArUco pose estimation, and `handle_gripper_error_home`.
  - The cares_lib `Servo.move/enable/current_position/step_to_angle`, `Gripper.move/home/wiggle_home/setup/close`, and `_pose_to_state` are not part of this model.
- ServoProtocol.ProcessResult: returns the classification that `process_result` prints, instead of printing the SDK's text for it.
- Object pose sources:
  - `ServoObject.setup_handlers` (its IOError) and `get_yaw`'s position-to-angle conversion are out; `GetYaw` takes the converted angle.
  - The `reset` and `reset_target_servo` of the marker and magnet sources are `pass` and have no behaviour to model.
- The rotation `Environment` constructor's creation of the gripper, camera and detector is out, as is a failing `gripper.setup()`. The `gripper_error` returned by `move` is out too, because the reward function never reads it.
- The translation environments' base classes are not part of this model: `get_object_state`, `reset`, `step`.
- `ep_final_distance` (scripts/environments/TranslationEnvironment.py:63-64) is left out. It is only the Euclidean distance, an uninterpreted function here, from the goal to the object's state, which comes from the base class.
- TwoFingerTranslation.ChooseGoal: `randrange` is called with float bounds, and the draws are modelled as integers in the half-open ranges.
- `TwoFingerTranslationFlat._reset` (only `wiggle_home`) is left out. It is not part of the modelled core.
- GripperTrainer.Train:
  - It requires both periods to be nonzero, for every run. In Python a zero evaluation period raises ZeroDivisionError at the first step. A zero training period raises only at the first step k >= max_steps_exploration, because the test at scripts/gripper_trainer.py:303-305 checks that first. So a run that never leaves exploration works with a zero training period, and the model leaves such runs out.
  - The loop takes each step's recovered return as input. An exit or propagated fault inside `environment_step`/`environment_reset` during training is modelled by EnvironmentStep and EnvironmentReset, not threaded through the loop.
  - The trainer's constructor, `evaluation_loop`, the agent, the memory buffer and `train_policy` are external learning collaborators; only the number of updates is counted.
- Magnetic sensor: Python's `float()` is an input function. The offset yaw is given as the text Python renders for it, because float rendering is not modelled.
- Euclidean distance (`math.dist`, `np.linalg.norm`) is an uninterpreted function, so no property depends on its values.
- Rewards and angles are mathematical reals, so floating-point rounding is not modelled.
- `exit(1)` is a terminal outcome value (`Exited`), not process termination.
- Python's builtin `EnvironmentError` is OSError. An OSError raised with a gripper is modelled as a fault carrying the gripper id the handler reads from it; any other OSError (pyserial's SerialException, say) as a fault without one.
- DynamixelServoError and GripperError are taken not to be OSErrors. Their classes are not part of this model.
- Objects.ExceptionHandler: the error it re-raises is built from two positional arguments, so Python sets no `gripper` attribute on it. The model re-raises it as an OSError without a gripper, with the handler's message and the original as its cause.
- Serial I/O faults: a SerialException (an OSError) raised by the magnet's write or readline is not caught by `except (UnicodeDecodeError, ValueError)` (scripts/Objects.py:135, 151) and would escape `get_yaw`/`offset`. The model's replies are always read successfully, so it does not represent these faults.
- GripperTrainer.EnvironmentReset / ResetRetriesUpToRecursionLimit: how many nested retries the recursion limit leaves depends on the stack depth at the call and on the frames of the callees. The model takes that number as a parameter instead of computing it.
- A marker pose is a (position, orientation) pair, and `marker_pose[1][2]` (scripts/gripper_environment.py:25, 58, 109) is taken to be orientation.z, the yaw. The detector that builds the pose is not part of this model.
