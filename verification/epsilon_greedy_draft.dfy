/**
  The older ε-greedy selector (src/epsilon_greedy.rs), which works directly on the older
  k-armed bandit. The uniform number and the uniform index it draws are inputs.
 */
module EpsilonGreedyDraft {
  import opened Selection
  import opened Arms
  import opened Outcomes
  import opened BanditDraft

  datatype EpsilonGreedySelector = EpsilonGreedySelector(epsilon: real) {

    /**
      Explores below ε, which panics on a bandit without arms; otherwise the greedy scan.
      No count or estimate changes.
     */
    method SelectAction(bandit: KArmedBandit, randomNumber: real, randomIndex: nat) returns (r: Result<nat>)
      requires bandit.Valid()
      requires randomNumber < epsilon && bandit.k > 0 ==> randomIndex < bandit.k
      ensures randomNumber < epsilon && bandit.k == 0 ==> r == Err(EmptyRange)
      ensures randomNumber < epsilon && bandit.k > 0 ==> r == Ok(randomIndex)
      ensures randomNumber >= epsilon ==> r == Ok(ArgMaxFromZero(Estimates(bandit.ArmStates())))
      ensures r.Ok? && bandit.k > 0 ==> r.value < bandit.k
    {
      if randomNumber < epsilon {
        if bandit.NumBandits() == 0 {
          return Err(EmptyRange);
        }
        return Ok(randomIndex);
      }
      ghost var scores := Estimates(bandit.ArmStates());
      var max: real := 0.0;
      var maxIndex: nat := 0;
      for i := 0 to bandit.NumBandits()
        invariant (max, maxIndex) == RunningMax(scores[..i])
      {
        RunningMaxStep(scores, i);
        var currentValueEstimate := bandit.GetActionValueEstimateByIndex(i);
        if currentValueEstimate >= max {
          max := currentValueEstimate;
          maxIndex := i;
        }
      }
      assert scores[..bandit.k] == scores;
      r := Ok(maxIndex);
    }

    /** Moves arm `action`'s estimate to Q + (R - Q)/n, n its pull count; no other arm changes. */
    method UpdateActionValueEstimate(bandit: KArmedBandit, action: nat, reward: real)
      requires bandit.Valid() && action < bandit.k && bandit.ArmStates()[action].numPulls >= 1
      modifies bandit.bandits[action]
      ensures bandit.Valid()
      ensures bandit.ArmStates() == old(bandit.ArmStates())[action :=
        old(bandit.ArmStates())[action].(estimate := IncrementalMean(old(bandit.ArmStates())[action].estimate, reward,
                                                                     old(bandit.ArmStates())[action].numPulls as real))]
    {
      var currentPulls := bandit.GetNumberOfPullsByIndex(action);
      var currentActionValueEstimate := bandit.GetActionValueEstimateByIndex(action);
      var newActionValueEstimate :=
        currentActionValueEstimate + (1.0 / currentPulls as real) * (reward - currentActionValueEstimate);
      assert newActionValueEstimate == IncrementalMean(currentActionValueEstimate, reward, currentPulls as real);
      bandit.UpdateActionValueEstimateByIndex(action, newActionValueEstimate);
    }
  }
}
