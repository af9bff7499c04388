/**
 * The state the gripper environment object keeps between episodes: its fixed
 * configuration and the goal angle that each reset draws anew.
 */
module Environment {
  import opened Wrappers
  import opened GripperReward

  class GripperEnvironment {
    /** The number of servo motors of the gripper. */
    const numMotors: nat
    /** The id of the marker fixed to the valve, whose yaw is the valve angle. */
    const objectMarkerId: int
    /** The marker ids that must all be in view before a pose table is used. */
    const markerIds: seq<int>
    /** The goal angle of the current episode, in degrees. */
    var targetAngle: int

    ghost predicate Valid()
      reads this
    {
      && targetAngle in GoalAngles
      && numMotors == 4
      && objectMarkerId == 6
      && markerIds == [0, 1, 2, 3, 4, 5, 6]
    }

    /**
     * The environment with its first goal chosen by a draw of the die on 1..4
     * (the draw that np.random.randint(1, 5) delivers).
     */
    constructor (draw: int)
      requires 1 <= draw <= 4
      ensures Valid()
      ensures TargetAngleFor(draw) == Some(targetAngle)
    {
      numMotors := 4;
      targetAngle := TargetAngleFor(draw).value;
      objectMarkerId := 6;
      markerIds := [0, 1, 2, 3, 4, 5, 6];
    }

    /** The new goal that reset draws for the next episode; nothing else changes. */
    method ChooseNewTarget(draw: int)
      requires Valid()
      requires 1 <= draw <= 4
      modifies this`targetAngle
      ensures Valid()
      ensures TargetAngleFor(draw) == Some(targetAngle)
    {
      targetAngle := TargetAngleFor(draw).value;
    }

    /**
     * The reward step hands out for a move of the valve from yaw `before` to
     * yaw `after`, measured against the current goal.
     */
    function StepReward(before: real, after: real): (r: RewardResult)
      reads this
      requires Valid()
      ensures r.done <==> Abs(targetAngle as real - after) <= NoiseTolerance
      ensures r.done ==> r.reward >= GoalBonus
      ensures r.done ==> exists goal :: goal in GoalAngles && Abs(goal as real - after) <= NoiseTolerance
    {
      assert targetAngle in GoalAngles;
      RewardFunction(targetAngle as real, before, after)
    }
  }
}
