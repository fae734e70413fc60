/** Backend/ML/reward_system.py: reward points for staying under 80% of the plan. */
module RewardSystem {

  /** `calculate_rewards(total_used, plan_units)`: 10 points when the plan is positive and
      the usage is at most 80% of it, otherwise 0. */
  function CalculateRewards(totalUsed: real, planUnits: real): (points: int)
    ensures points == 0 || points == 10
    ensures points == 10 <==> planUnits > 0.0 && totalUsed <= 0.8 * planUnits
  {
    if planUnits <= 0.0 then 0
    else if totalUsed <= 0.80 * planUnits then 10
    else 0
  }

  /** Using more never earns more points. */
  lemma RewardsNonIncreasing(a: real, b: real, planUnits: real)
    requires a <= b
    ensures CalculateRewards(b, planUnits) <= CalculateRewards(a, planUnits)
  {
  }
}
