/**
  The bandit actor (src/actor.rs): the older k-armed bandit driven by the only selector
  written for it, the older ε-greedy selector. Selecting only reads the bandit; taking an
  action pulls that arm; learning moves that arm's estimate towards the reward.
 */
module BanditActor {
  import opened Arms
  import opened Selection
  import opened Outcomes
  import opened BanditDraft
  import opened EpsilonGreedyDraft

  /**
    The arms after the actor takes arm `action`, which pays `sample`, and then learns
    `reward` for it: only that arm changes, it has one more pull, and on its first pull its
    estimate becomes the reward.
   */
  function PullThenLearn(arms: seq<ArmState>, action: nat, sample: real, reward: real): (after: seq<ArmState>)
    requires action < |arms|
    ensures |after| == |arms|
    ensures forall j :: 0 <= j < |arms| && j != action ==> after[j] == arms[j]
    ensures after[action].numPulls == arms[action].numPulls + 1
    ensures after[action].totalReward == arms[action].totalReward + sample
    ensures arms[action].numPulls == 0 ==> after[action].estimate == reward
    ensures var q := arms[action].estimate;
      (q <= reward ==> q <= after[action].estimate <= reward) && (reward <= q ==> reward <= after[action].estimate <= q)
  {
    var pulled := arms[action := Pulled(arms[action], sample)];
    pulled[action := pulled[action].(estimate := IncrementalMean(pulled[action].estimate, reward,
                                                                 pulled[action].numPulls as real))]
  }

  /** KBanditActor: a bandit and the selector that chooses its arms. */
  class KBanditActor {
    const kArmedBandit: KArmedBandit
    const actionChooser: EpsilonGreedySelector

    ghost predicate Valid()
      reads this, kArmedBandit, kArmedBandit.bandits
    {
      kArmedBandit.Valid()
    }

    /** KBanditActor::new */
    constructor (kArmedBandit: KArmedBandit, actionChooser: EpsilonGreedySelector)
      ensures this.kArmedBandit == kArmedBandit && this.actionChooser == actionChooser
    {
      this.kArmedBandit := kArmedBandit;
      this.actionChooser := actionChooser;
    }

    /**
      Actor::select_action: the selector's choice — the drawn index when exploring (a panic
      without arms), the greedy arm otherwise; no count or estimate changes.
     */
    method SelectAction(randomNumber: real, randomIndex: nat) returns (r: Result<nat>)
      requires Valid()
      requires randomNumber < actionChooser.epsilon && kArmedBandit.k > 0 ==> randomIndex < kArmedBandit.k
      ensures randomNumber < actionChooser.epsilon && kArmedBandit.k == 0 ==> r == Err(EmptyRange)
      ensures randomNumber < actionChooser.epsilon && kArmedBandit.k > 0 ==> r == Ok(randomIndex)
      ensures randomNumber >= actionChooser.epsilon ==> r == Ok(ArgMaxFromZero(Estimates(kArmedBandit.ArmStates())))
      ensures r.Ok? && kArmedBandit.k > 0 ==> r.value < kArmedBandit.k
    {
      r := actionChooser.SelectAction(kArmedBandit, randomNumber, randomIndex);
    }

    /** Actor::take_action: pulls exactly arm `action` and returns what it paid. */
    method TakeAction(action: nat, sample: real) returns (reward: real)
      requires Valid() && action < kArmedBandit.k
      modifies kArmedBandit, kArmedBandit.bandits[action]
      ensures Valid() && kArmedBandit.bandits == old(kArmedBandit.bandits)
      ensures reward == sample && kArmedBandit.numPulls == old(kArmedBandit.numPulls) + 1
      ensures kArmedBandit.ArmStates() == old(kArmedBandit.ArmStates())[action :=
        Pulled(old(kArmedBandit.ArmStates())[action], sample)]
    {
      reward := kArmedBandit.PullByIndex(action, sample);
    }

    /**
      Actor::update_action_value_estimate: the selector's update on the same bandit, arm and
      reward. The source divides by the arm's pull count; here the arm must have been pulled.
     */
    method UpdateActionValueEstimate(action: nat, reward: real)
      requires Valid() && action < kArmedBandit.k && kArmedBandit.ArmStates()[action].numPulls >= 1
      modifies kArmedBandit.bandits[action]
      ensures Valid()
      ensures kArmedBandit.ArmStates() == old(kArmedBandit.ArmStates())[action :=
        old(kArmedBandit.ArmStates())[action].(estimate := IncrementalMean(old(kArmedBandit.ArmStates())[action].estimate,
                                                                           reward,
                                                                           old(kArmedBandit.ArmStates())[action].numPulls as real))]
    {
      actionChooser.UpdateActionValueEstimate(kArmedBandit, action, reward);
    }

    /**
      One round as the drivers run it: take arm `action`, then learn the reward it paid.
      The bandit ends as PullThenLearn says.
     */
    method Round(action: nat, sample: real) returns (reward: real)
      requires Valid() && action < kArmedBandit.k
      modifies kArmedBandit, kArmedBandit.bandits[action]
      ensures Valid() && reward == sample
      ensures kArmedBandit.ArmStates() == PullThenLearn(old(kArmedBandit.ArmStates()), action, sample, sample)
    {
      reward := TakeAction(action, sample);
      UpdateActionValueEstimate(action, reward);
    }
  }
}
