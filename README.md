# Two-finger gripper environment: goal, reward and state rules

This project models the decision and reshaping logic of the gripper environment
(`GripperEnvironment` in `gripper_january/scripts/two_finger_gripper_env.py`) of a
reinforcement-learning rig. A two-finger gripper turns a valve, and a camera reads
the valve's yaw from an ArUco marker. The model covers four parts:

- **Goal selection** (`choose_target_angle`): a draw of a die on 1..4 selects one
  of the goal angles 90, 180, 270 or 0 degrees. The draw is a parameter of the
  model. The source's implicit "no angle" for any other draw is modelled as `None`.
- **Reward** (`reward_function`): the progress of a move is
  `|goal − yaw before| − |goal − yaw after|`. Progress within the noise tolerance
  of 3 degrees earns 0, and the tolerance is inclusive at both ends. Larger
  progress is paid as it is. A move that ends within 3 degrees of the goal adds a
  bonus of 100 and ends the episode. Angles are compared with a plain absolute
  difference and are never reduced modulo 360. The model keeps this on purpose:
  a yaw of 359 is not at a goal of 0.
- **Joint coordinates** (`find_joint_coordinates`): the marker-pose table is a map
  from marker id to pose. The source walks it once per entry but looks each entry
  up by its position 0, 1, 2, … rather than by its key. The model keeps this
  walk. It fails, as the source's `KeyError` or `IndexError` would, at the first
  position that is not a key or whose pose has no translation row. The walk
  succeeds exactly when the keys are 0..n−1 and every pose has a translation row. Because only the table's size and
  integer lookups are used, the order of the table's entries does not matter, so
  a map models the dictionary faithfully.
- **State vector** (`define_state_space`): the coordinate lists are flattened in
  order and the object yaw is appended. The source fixes the layout to mode 3.
  The model takes the mode as a parameter and also gives modes 1 and 2, but the
  lemmas about the layout are stated for `StateMode` = 3.

The environment object is a class. It holds its fixed configuration (4 motors,
valve marker 6, markers 0..6) and the goal angle, which `reset` reassigns.

Angles, yaws and rewards are `real`. The source works on floating-point values,
so rounding is not modelled.

Files: `wrappers.dfy` (Option, Result), `gripper_reward.dfy` (module
`GripperReward`), `gripper_state.dfy` (module `GripperState`) and
`gripper_environment.dfy` (module `Environment`, class `GripperEnvironment`).

## Model

| member | source | states |
|---|---|---|
| `GripperReward.TargetAngleFor` | gripper_january/scripts/two_finger_gripper_env.py:42-51 | an angle is selected exactly for draws 1..4, and it is always one of 0, 90, 180, 270 |
| `GripperReward.TargetAngleTable` | gripper_january/scripts/two_finger_gripper_env.py:44-51 | draws 1, 2, 3, 4 select 90, 180, 270, 0 respectively |
| `GripperReward.TargetAngleRoundTrip` | gripper_january/scripts/two_finger_gripper_env.py:42-51 | every valid draw selects a goal from which the draw can be recovered, so distinct draws give distinct goals |
| `GripperReward.DrawRoundTrip` | gripper_january/scripts/two_finger_gripper_env.py:42-51 | every goal angle is selected by exactly one draw |
| `GripperReward.RewardFunction` | gripper_january/scripts/two_finger_gripper_env.py:54-73 | done holds exactly when the final yaw is within 3 of the goal; the reward minus the bonus (100 when done, 0 otherwise) is 0 exactly when the progress lies in [−3, 3], and otherwise it equals the progress |
| `GripperReward.RewardSignTracksApproach` | gripper_january/scripts/two_finger_gripper_env.py:59-66 | short of the goal, the reward is positive exactly when the valve ended more than 3 closer to the goal, negative exactly when it ended more than 3 further away, and zero otherwise |
| `GripperReward.GoalRewardAtLeastBonus` | gripper_january/scripts/two_finger_gripper_env.py:59-71 | a move that reaches the goal earns exactly 100 or more than 103, never less than the bonus |
| `GripperReward.BaseRewardBoundedByMove` | gripper_january/scripts/two_finger_gripper_env.py:59-66 | the reward without the bonus is no larger in size than the yaw change of the move |
| `GripperReward.SwapNegatesReward` | gripper_january/scripts/two_finger_gripper_env.py:59-66 | swapping the start and final yaw negates the progress and the base reward, and, when neither yaw is at the goal, negates the returned reward |
| `GripperReward.RewardShiftInvariant` | gripper_january/scripts/two_finger_gripper_env.py:59-68 | shifting the goal and both yaws by the same amount leaves reward and done unchanged |
| `GripperReward.NoWrapAround` | gripper_january/scripts/two_finger_gripper_env.py:59-71 | angles are not wrapped: a final yaw of 359 is not done for goal 0, but it is done for goal 360 |
| `GripperState.DropLast` | gripper_january/scripts/two_finger_gripper_env.py:93 | the slice `[:-1]`: a non-empty vector loses exactly its last component, and an empty one stays empty |
| `GripperState.FindJointCoordinates` | gripper_january/scripts/two_finger_gripper_env.py:87-94 | succeeds exactly when every position 0..n−1 of the n-entry table is a key with a translation row; the result then has one entry per table entry, and entry i is the first translation row of marker i without its last component; otherwise it fails at the first unreadable position, naming it and whether the key was missing |
| `GripperState.IndexedByPositionKeys` | gripper_january/scripts/two_finger_gripper_env.py:92-93 | the walk by position succeeds exactly when the table's keys are 0..n−1 and every pose has a translation row |
| `GripperState.StrayMarkerBreaksWalk` | gripper_january/scripts/two_finger_gripper_env.py:83-93 | a table with all seven markers 0..6 in view, which the pose search accepts, still fails the walk when a stray marker 9 is also in view |
| `GripperState.Flatten` | gripper_january/scripts/two_finger_gripper_env.py:110 | the flattened list has as many values as all the coordinate lists together |
| `GripperState.FlattenAt` | gripper_january/scripts/two_finger_gripper_env.py:110 | value j of list i appears in the flattened list right after all the values of the lists before it, so the order is kept |
| `GripperState.DefineStateSpace` | gripper_january/scripts/two_finger_gripper_env.py:96-113 | the vector built is the layout of the given mode: servos then yaw (1); coordinates, yaw, then servos (2); coordinates then yaw (3); empty otherwise |
| `GripperState.StateVectorLayout` | gripper_january/scripts/two_finger_gripper_env.py:109-113 | for any inputs in mode 3, the state has one more value than the coordinates, it is the flattened coordinates followed by the yaw, and the servo positions have no effect on it |
| `GripperState.StateVectorAt` | gripper_january/scripts/two_finger_gripper_env.py:110-112 | in mode 3, value j of coordinate list i sits in the state at its flattened position |
| `Environment.GripperEnvironment.constructor` | gripper_january/scripts/two_finger_gripper_env.py:14-23 | a new environment has 4 motors, valve marker 6, markers 0..6, and the goal selected by the draw |
| `Environment.GripperEnvironment.ChooseNewTarget` | gripper_january/scripts/two_finger_gripper_env.py:38 | only the goal changes, and it becomes the angle selected by the draw |
| `Environment.GripperEnvironment.StepReward` | gripper_january/scripts/two_finger_gripper_env.py:133 | the step's reward is measured against the current goal: done exactly when the final yaw is within 3 of it, with at least the bonus when done, and only when the final yaw is within 3 of one of the four goal angles |

## Left out

- The hardware handles built by the constructor (`Gripper`, `Camera` and `ArucoDetector`, lines 16-19): the model has no counterpart for them, because they only drive the serial gripper and the camera.
- `reset`, `step` and `find_marker_pose`: these drive the serial gripper, the camera and the ArUco detector. `find_marker_pose` retries without bound until all seven markers are seen. Only the goal reassignment of `reset` (line 38) and the reward call of `step` (line 133) are modelled.
- Reading the object yaw out of a pose table (`marker_pose_all[6][1][2]` in `reset` and `step`): this belongs to the hardware steps above. The yaw is a parameter of the model instead.
- The random draw `np.random.randint(1, 5)`: the model takes the draw as a parameter. The constructor and `ChooseNewTarget` require it to lie in 1..4, which that call guarantees.
- `DefineStateSpace`: in mode 1 the source appends the yaw to the caller's servo list in place and returns that same list. The model returns the same values but not the aliasing or the change to the caller's list. Modes 1 and 2 cannot be reached in the source, because the mode is fixed to 3.
- Floating point: yaws and rewards are exact reals, and numpy arrays are sequences of reals.
- The logging calls (`logging.debug` when the goal is reached, `logging.error` with `exit()` on gripper errors).
- `script_combination/Algorithm.py` (TD3 actor-critic, autoencoder and predictive-ensemble training) is not part of this model. It is floating-point tensor training built on an autodiff library and its optimizers.
- `gripper_january/scripts/training_loop_autoencoder.py` is not part of this model. It is the episode loop, replay sampling, argument parsing, plotting and saving.
