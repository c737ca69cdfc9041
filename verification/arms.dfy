/**
  One arm of a k-armed bandit (the `Bandit` struct, identical in src/environments/bandit.rs
  and src/bandit.rs): a fixed true value and variance, and the bookkeeping the arm keeps —
  how often it was pulled, the reward it paid in total, and the estimate a selector wrote.
  The Gaussian draws are inputs: the arm's true value when it is built and the reward
  sample when it is pulled.
 */
module Arms {

  /** The bookkeeping of one arm, as a value. */
  datatype ArmState = ArmState(value: real, variance: real, numPulls: nat, totalReward: real, estimate: real)

  /** The arm after a pull that paid `reward`. */
  function Pulled(arm: ArmState, reward: real): ArmState {
    arm.(numPulls := arm.numPulls + 1, totalReward := arm.totalReward + reward)
  }

  /** The arm after `reset`: no pulls, no reward, a zero estimate; its value and variance stay. */
  function Cleared(arm: ArmState): ArmState {
    arm.(numPulls := 0, totalReward := 0.0, estimate := 0.0)
  }

  /** The arms' estimates in index order: what the greedy scans compare. */
  function Estimates(arms: seq<ArmState>): seq<real> {
    seq(|arms|, i requires 0 <= i < |arms| => arms[i].estimate)
  }

  /** The arms' pull counts in index order. */
  function PullCounts(arms: seq<ArmState>): seq<nat> {
    seq(|arms|, i requires 0 <= i < |arms| => arms[i].numPulls)
  }

  /** The pulls of all arms together. */
  function TotalPulls(arms: seq<ArmState>): nat {
    if arms == [] then 0 else TotalPulls(arms[..|arms| - 1]) + arms[|arms| - 1].numPulls
  }

  /** Replacing one arm changes the total by the difference of that arm's pulls. */
  lemma {:induction false} TotalPullsReplace(arms: seq<ArmState>, i: nat, arm: ArmState)
    requires i < |arms|
    ensures TotalPulls(arms[i := arm]) == TotalPulls(arms) - arms[i].numPulls + arm.numPulls
    decreases |arms|
  {
    var last := |arms| - 1;
    var updated := arms[i := arm];
    if i == last {
      assert updated[..last] == arms[..last];
    } else {
      assert updated[..last] == arms[..last][i := arm];
      TotalPullsReplace(arms[..last], i, arm);
    }
  }

  /** Pulling one arm adds exactly one pull to the total. */
  lemma PullAddsOne(arms: seq<ArmState>, i: nat, reward: real)
    requires i < |arms|
    ensures TotalPulls(arms[i := Pulled(arms[i], reward)]) == TotalPulls(arms) + 1
  {
    TotalPullsReplace(arms, i, Pulled(arms[i], reward));
  }

  /** Writing an estimate leaves the total untouched. */
  lemma EstimateKeepsTotal(arms: seq<ArmState>, i: nat, estimate: real)
    requires i < |arms|
    ensures TotalPulls(arms[i := arms[i].(estimate := estimate)]) == TotalPulls(arms)
  {
    TotalPullsReplace(arms, i, arms[i].(estimate := estimate));
  }

  /** Arms that were never pulled have a total of zero. */
  lemma {:induction false} UnpulledTotalIsZero(arms: seq<ArmState>)
    requires forall i :: 0 <= i < |arms| ==> arms[i].numPulls == 0
    ensures TotalPulls(arms) == 0
    decreases |arms|
  {
    if arms != [] {
      UnpulledTotalIsZero(arms[..|arms| - 1]);
    }
  }

  /** Bandit: one arm, updated in place by `pull` and by the estimate setter. */
  class Bandit {
    const value: real
    const variance: real
    const name: string
    var numPulls: nat
    var totalReward: real
    var actionValueEstimate: real

    function State(): ArmState
      reads this
    {
      ArmState(value, variance, numPulls, totalReward, actionValueEstimate)
    }

    /** Bandit::new: the drawn true value, variance 1, and no pulls, reward or estimate yet. */
    constructor (name: string, value: real)
      ensures State() == ArmState(value, 1.0, 0, 0.0, 0.0) && this.name == name
    {
      this.name := name;
      this.value := value;
      variance := 1.0;
      numPulls := 0;
      totalReward := 0.0;
      actionValueEstimate := 0.0;
    }

    /** Bandit::pull: counts the pull and returns the sample drawn for it, which it adds to the total. */
    method Pull(sample: real) returns (reward: real)
      modifies this
      ensures reward == sample
      ensures State() == Pulled(old(State()), sample)
    {
      numPulls := numPulls + 1;
      totalReward := totalReward + sample;
      reward := sample;
    }

    /** Bandit::get_number_of_pulls: the count that every pull raises by one. */
    function GetNumberOfPulls(): (n: nat)
      reads this
      ensures n == State().numPulls
    {
      numPulls
    }

    /** Bandit::get_total_reward: the sum of the samples the pulls paid. */
    function GetTotalReward(): (r: real)
      reads this
      ensures r == State().totalReward
    {
      totalReward
    }

    /** Bandit::update_action_value_estimate: only the estimate changes. */
    method UpdateActionValueEstimate(newEstimate: real)
      modifies this
      ensures State() == old(State()).(estimate := newEstimate)
    {
      actionValueEstimate := newEstimate;
    }

    /** Bandit::get_action_value_estimate: the estimate last set, 0.0 before any. */
    function GetActionValueEstimate(): (r: real)
      reads this
      ensures r == State().estimate
    {
      actionValueEstimate
    }
  }
}
