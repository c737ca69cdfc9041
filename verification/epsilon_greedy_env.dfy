/**
  The ε-greedy selector over an environment (src/selectors/epsilon_greedy.rs), here over
  the k-armed bandit environment. The uniform number and the uniform index the selector
  draws are inputs.
 */
module EpsilonGreedyEnv {
  import opened Selection
  import opened Arms
  import opened Outcomes
  import opened BanditEnv

  datatype EpsilonGreedySelector = EpsilonGreedySelector(epsilon: real) {

    /**
      Explores with the drawn index when the drawn number is below ε, which panics when
      there are no actions to draw from; otherwise scans the estimates for the greedy
      action. Reads the environment and changes nothing.
     */
    method SelectAction(env: KArmedBandit, randomNumber: real, randomIndex: nat) returns (r: Result<nat>)
      requires env.Valid()
      requires randomNumber < epsilon && env.k > 0 ==> randomIndex < env.k
      ensures randomNumber < epsilon && env.k == 0 ==> r == Err(EmptyRange)
      ensures randomNumber < epsilon && env.k > 0 ==> r == Ok(randomIndex)
      ensures randomNumber >= epsilon ==> r == Ok(ArgMaxFromZero(Estimates(env.ArmStates())))
      ensures r.Ok? && env.k > 0 ==> r.value < env.k
    {
      var state := env.GetState();
      var numberOfPossibleActions := env.GetNumberOfPossibleActions();
      if randomNumber < epsilon {
        if numberOfPossibleActions == 0 {
          return Err(EmptyRange);
        }
        return Ok(randomIndex);
      }
      ghost var scores := Estimates(env.ArmStates());
      var max: real := 0.0;
      var maxIndex: nat := 0;
      for i := 0 to numberOfPossibleActions
        invariant (max, maxIndex) == RunningMax(scores[..i])
      {
        RunningMaxStep(scores, i);
        var currentQEstimate := env.GetQEstimate(state, i);
        if currentQEstimate >= max {
          max := currentQEstimate;
          maxIndex := i;
        }
      }
      assert scores[..numberOfPossibleActions] == scores;
      r := Ok(maxIndex);
    }

    /**
      Moves the estimate of arm `action` to Q + (R - Q)/n, n being its pull count; no other
      arm changes. The source divides by the count as a float; here a pulled arm is required.
     */
    method UpdateQEstimate(env: KArmedBandit, state: nat, action: nat, reward: real)
      requires env.Valid() && action < env.k && env.ArmStates()[action].numPulls >= 1
      modifies env.bandits[action]
      ensures env.Valid()
      ensures env.ArmStates() == old(env.ArmStates())[action :=
        old(env.ArmStates())[action].(estimate := IncrementalMean(old(env.ArmStates())[action].estimate, reward,
                                                                  old(env.ArmStates())[action].numPulls as real))]
    {
      var currentPulls := env.GetActionCountByState(state, action);
      var currentQEstimate := env.GetQEstimate(state, action);
      var newQEstimate := currentQEstimate + (1.0 / currentPulls as real) * (reward - currentQEstimate);
      assert newQEstimate == IncrementalMean(currentQEstimate, reward, currentPulls as real);
      env.UpdateQEstimate(state, action, newQEstimate);
    }

    /** There are no state values to update: it panics, as the UCB selector's does (src/selectors/epsilon_greedy.rs:54-62). */
    method UpdateValueEstimate(env: KArmedBandit, state: nat, reward: real) returns (r: Result<()>)
      ensures r == Err(NotImplemented)
    {
      r := Err(NotImplemented);
    }
  }
}
