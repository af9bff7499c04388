/**
 * Goal selection and the reward rule of the two-finger gripper environment
 * (GripperEnvironment.choose_target_angle and reward_function).
 *
 * Angles are the valve yaw in degrees as reported by the marker detector and are
 * compared with a plain absolute difference: they are never reduced modulo 360.
 */
module GripperReward {
  import opened Wrappers

  /** A yaw change (in degrees) no larger than this is treated as detector noise. */
  const NoiseTolerance: real := 3.0

  /** Added to the reward of a move that ends within the tolerance of the goal. */
  const GoalBonus: real := 100.0

  /** The goal angles the environment chooses from. */
  const GoalAngles: set<int> := {90, 180, 270, 0}

  function Abs(x: real): (r: real)
    ensures r >= 0.0 && (r == x || r == -x)
  {
    if x < 0.0 then -x else x
  }

  /**
   * The goal angle selected by a draw of the uniform die on 1..4.
   * A draw outside that range selects nothing: choose_target_angle falls off
   * its if-chain and returns None.
   */
  function TargetAngleFor(draw: int): (r: Option<int>)
    ensures r.Some? <==> 1 <= draw <= 4
    ensures r.Some? ==> r.value in GoalAngles
  {
    if draw == 1 then Some(90)
    else if draw == 2 then Some(180)
    else if draw == 3 then Some(270)
    else if draw == 4 then Some(0)
    else None
  }

  /** The draw that selects a given goal angle. */
  function DrawFor(angle: int): (d: int)
    requires angle in GoalAngles
    ensures 1 <= d <= 4
  {
    if angle == 90 then 1
    else if angle == 180 then 2
    else if angle == 270 then 3
    else 4
  }

  /** Draws 1, 2, 3, 4 select 90, 180, 270 and 0 degrees respectively. */
  lemma TargetAngleTable()
    ensures TargetAngleFor(1) == Some(90) && TargetAngleFor(2) == Some(180)
    ensures TargetAngleFor(3) == Some(270) && TargetAngleFor(4) == Some(0)
  {
  }

  /** Every valid draw selects a goal that DrawFor maps back to the same draw. */
  lemma TargetAngleRoundTrip(draw: int)
    requires 1 <= draw <= 4
    ensures TargetAngleFor(draw).Some? && DrawFor(TargetAngleFor(draw).value) == draw
  {
  }

  /** Every goal angle is selected by exactly the draw DrawFor gives. */
  lemma DrawRoundTrip(angle: int, draw: int)
    requires angle in GoalAngles
    ensures TargetAngleFor(DrawFor(angle)) == Some(angle)
    ensures TargetAngleFor(draw) == Some(angle) <==> draw == DrawFor(angle)
  {
  }

  /** The outcome of one move: the reward and whether the goal was reached. */
  datatype RewardResult = RewardResult(reward: real, done: bool)

  /**
   * How much closer to the goal the valve ended than it started
   * (negative when it moved away).
   */
  function Progress(target: real, before: real, after: real): real
  {
    Abs(target - before) - Abs(target - after)
  }

  /**
   * reward_function: progress towards the goal is rewarded unless it lies
   * within the noise tolerance (inclusive at both ends), and a move that ends
   * within the tolerance of the goal earns the bonus and ends the episode.
   */
  function RewardFunction(target: real, before: real, after: real): (r: RewardResult)
    ensures r.done <==> Abs(target - after) <= NoiseTolerance
    ensures var base := r.reward - (if r.done then GoalBonus else 0.0);
            (base == 0.0 <==> -NoiseTolerance <= Progress(target, before, after) <= NoiseTolerance)
            && (base != 0.0 ==> base == Progress(target, before, after))
  {
    var angleDifference := Abs(target - after);
    var delta := Progress(target, before, after);
    var reward := if -NoiseTolerance <= delta <= NoiseTolerance then 0.0 else delta;
    if angleDifference <= NoiseTolerance then RewardResult(reward + GoalBonus, true)
    else RewardResult(reward, false)
  }

  /** The reward without the goal bonus. */
  function BaseReward(target: real, before: real, after: real): real
  {
    var r := RewardFunction(target, before, after);
    if r.done then r.reward - GoalBonus else r.reward
  }

  /**
   * Short of the goal, the reward is positive exactly when the valve ended more
   * than the tolerance closer to the goal, negative exactly when it ended more
   * than the tolerance further away, and zero otherwise.
   */
  lemma RewardSignTracksApproach(target: real, before: real, after: real)
    requires !RewardFunction(target, before, after).done
    ensures var r := RewardFunction(target, before, after).reward;
            && (r > 0.0 <==> Abs(target - after) + NoiseTolerance < Abs(target - before))
            && (r < 0.0 <==> Abs(target - before) + NoiseTolerance < Abs(target - after))
            && (r == 0.0 <==> Abs(Abs(target - before) - Abs(target - after)) <= NoiseTolerance)
  {
  }

  /**
   * Reaching the goal always pays at least the bonus: the move can have lost at
   * most the tolerance, so its base reward is either zero or a gain above the
   * tolerance.
   */
  lemma GoalRewardAtLeastBonus(target: real, before: real, after: real)
    requires RewardFunction(target, before, after).done
    ensures var r := RewardFunction(target, before, after).reward;
            r == GoalBonus || r > GoalBonus + NoiseTolerance
  {
  }

  /** The base reward never exceeds the size of the move itself. */
  lemma BaseRewardBoundedByMove(target: real, before: real, after: real)
    ensures Abs(BaseReward(target, before, after)) <= Abs(after - before)
  {
  }

  /**
   * Swapping the start and final yaw negates the progress, so when neither yaw
   * is at the goal the two moves earn opposite rewards.
   */
  lemma SwapNegatesReward(target: real, before: real, after: real)
    ensures Progress(target, after, before) == -Progress(target, before, after)
    ensures BaseReward(target, after, before) == -BaseReward(target, before, after)
    ensures !RewardFunction(target, before, after).done && !RewardFunction(target, after, before).done
            ==> RewardFunction(target, after, before).reward == -RewardFunction(target, before, after).reward
  {
  }

  /** Shifting the goal and both yaws by the same amount changes nothing. */
  lemma RewardShiftInvariant(target: real, before: real, after: real, shift: real)
    ensures RewardFunction(target + shift, before + shift, after + shift) == RewardFunction(target, before, after)
  {
  }

  /**
   * No wrap-around: a valve at 359 degrees is not at a goal of 0 degrees,
   * although the two differ by one degree on the circle; the same valve does
   * reach a goal written as 360 degrees.
   */
  lemma NoWrapAround(before: real)
    ensures !RewardFunction(0.0, before, 359.0).done
    ensures RewardFunction(360.0, before, 359.0).done
  {
  }
}
