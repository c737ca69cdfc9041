/**
  The UCB selector over an environment (src/ucb.rs), here over the k-armed bandit
  environment. The score of an action is its estimate plus an exploration bonus computed
  from the confidence level, the total number of actions taken and the action's count.
 */
module UcbEnv {
  import opened Selection
  import opened Arms
  import opened Outcomes
  import opened BanditEnv

  /** The score of every arm, in index order. */
  function UcbScores(bonus: Bonus, confidenceLevel: real, totalActions: nat, arms: seq<ArmState>): (scores: seq<real>)
    ensures |scores| == |arms|
    ensures forall i :: 0 <= i < |arms| ==>
              scores[i] == UcbScore(bonus, confidenceLevel, totalActions, arms[i].estimate, arms[i].numPulls as real)
  {
    seq(|arms|, i requires 0 <= i < |arms| =>
      UcbScore(bonus, confidenceLevel, totalActions, arms[i].estimate, arms[i].numPulls as real))
  }

  /**
    An arm's score depends on nothing but its own estimate and count (and the shared
    confidence level and total): two arms with the same estimate and count score alike.
   */
  lemma ScoreDependsOnTheArmOnly(bonus: Bonus, c: real, total: nat, arms: seq<ArmState>, i: nat, j: nat)
    requires i < |arms| && j < |arms|
    requires arms[i].estimate == arms[j].estimate && arms[i].numPulls == arms[j].numPulls
    ensures UcbScores(bonus, c, total, arms)[i] == UcbScores(bonus, c, total, arms)[j]
  {
  }

  datatype UcbSelector = UcbSelector(confidenceLevel: real, bonus: Bonus) {

    /** The greedy scan over the UCB scores; reads the environment and changes nothing. */
    method SelectAction(env: KArmedBandit) returns (action: nat)
      requires env.Valid()
      ensures action == ArgMaxFromZero(UcbScores(bonus, confidenceLevel, env.numPulls, env.ArmStates()))
      ensures env.k > 0 ==> action < env.k
    {
      var max: real := 0.0;
      var maxIndex: nat := 0;
      var numActions := env.GetNumberOfPossibleActions();
      var numPulls := env.GetTotalNumberOfActionsTaken();
      var state := env.GetState();
      ghost var scores := UcbScores(bonus, confidenceLevel, numPulls, env.ArmStates());
      for i := 0 to numActions
        invariant (max, maxIndex) == RunningMax(scores[..i])
      {
        RunningMaxStep(scores, i);
        var currentValueEstimate := env.GetQEstimate(state, i);
        var numberOfActionsForState := env.GetActionCountByState(state, i);
        var confidence := bonus(confidenceLevel, numPulls, numberOfActionsForState as real);
        var ucb := currentValueEstimate + confidence;
        assert ucb == scores[i];
        if ucb >= max {
          max := ucb;
          maxIndex := i;
        }
      }
      assert scores[..numActions] == scores;
      action := maxIndex;
    }

    /** As the ε-greedy update: Q + (R - Q)/n on arm `action`, n its count; nothing else changes. */
    method UpdateQEstimate(env: KArmedBandit, state: nat, action: nat, reward: real)
      requires env.Valid() && action < env.k && env.ArmStates()[action].numPulls >= 1
      modifies env.bandits[action]
      ensures env.Valid()
      ensures env.ArmStates() == old(env.ArmStates())[action :=
        old(env.ArmStates())[action].(estimate := IncrementalMean(old(env.ArmStates())[action].estimate, reward,
                                                                  old(env.ArmStates())[action].numPulls as real))]
    {
      var currentPulls := env.GetActionCountByState(state, action);
      var currentActionValueEstimate := env.GetQEstimate(state, action);
      var newActionValueEstimate :=
        currentActionValueEstimate + (1.0 / currentPulls as real) * (reward - currentActionValueEstimate);
      assert newActionValueEstimate == IncrementalMean(currentActionValueEstimate, reward, currentPulls as real);
      env.UpdateQEstimate(state, action, newActionValueEstimate);
    }

    /** There are no state values to update: it panics, as the ε-greedy selector's does (src/ucb.rs:54-62). */
    method UpdateValueEstimate(env: KArmedBandit, state: nat, reward: real) returns (r: Result<()>)
      ensures r == Err(NotImplemented)
    {
      r := Err(NotImplemented);
    }
  }
}
