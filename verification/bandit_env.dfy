/**
  The k-armed bandit environment (src/environments/bandit.rs): k arms in a vector and a
  global pull counter, with the Environment operations on top. The key invariant is that
  the global counter is the sum of the arms' pulls.
 */
module BanditEnv {
  import opened Arms
  import opened Outcomes
  import Store

  class KArmedBandit {
    var bandits: seq<Bandit>
    const k: nat
    var numPulls: nat

    /** The arms' bookkeeping, in index order; the same view as the older bandit's in bandit_draft.dfy, since both drafts keep a vector of arms. */
    function ArmStates(): (arms: seq<ArmState>)
      reads this, bandits
      ensures |arms| == |bandits|
    {
      seq(|bandits|, i reads this, bandits requires 0 <= i < |bandits| => bandits[i].State())
    }

    /** k distinct arms, and the global counter is the sum of the arms' pulls. */
    ghost predicate Valid()
      reads this, bandits
    {
      && |bandits| == k
      && (forall i, j :: 0 <= i < j < |bandits| ==> bandits[i] != bandits[j])
      && numPulls == TotalPulls(ArmStates())
    }

    /** KArmedBandit::new: arm i is named after i and gets the i-th drawn true value. */
    constructor (k: nat, values: nat -> real)
      ensures Valid() && this.k == k && numPulls == 0
      ensures forall i :: 0 <= i < k ==> ArmStates()[i] == ArmState(values(i), 1.0, 0, 0.0, 0.0)
      ensures forall i :: 0 <= i < k ==> bandits[i].name == Store.NatToString(i)
      ensures forall i :: 0 <= i < k ==> fresh(bandits[i])
    {
      var arms: seq<Bandit> := [];
      for i := 0 to k
        invariant |arms| == i
        invariant forall j :: 0 <= j < i ==> fresh(arms[j])
        invariant forall j, l :: 0 <= j < l < i ==> arms[j] != arms[l]
        invariant forall j :: 0 <= j < i ==>
          arms[j].State() == ArmState(values(j), 1.0, 0, 0.0, 0.0) && arms[j].name == Store.NatToString(j)
      {
        var arm := new Bandit(Store.NatToString(i), values(i));
        arms := arms + [arm];
      }
      bandits := arms;
      this.k := k;
      numPulls := 0;
      new;
      UnpulledTotalIsZero(ArmStates());
    }

    /** KArmedBandit::pull_by_index: one more pull overall and on arm `index`; no other arm changes. */
    method PullByIndex(index: nat, sample: real) returns (reward: real)
      requires Valid() && index < k
      modifies this, bandits[index]
      ensures Valid() && bandits == old(bandits)
      ensures reward == sample && numPulls == old(numPulls) + 1
      ensures ArmStates() == old(ArmStates())[index := Pulled(old(ArmStates())[index], sample)]
    {
      numPulls := numPulls + 1;
      reward := bandits[index].Pull(sample);
      assert ArmStates() == old(ArmStates())[index := Pulled(old(ArmStates())[index], sample)];
      PullAddsOne(old(ArmStates()), index, sample);
    }

    /** The pull count of arm `index`. */
    function GetNumberOfPullsByIndex(index: nat): (n: nat)
      requires Valid() && index < k
      reads this, bandits
      ensures n == ArmStates()[index].numPulls
    {
      bandits[index].GetNumberOfPulls()
    }

    /** The total reward arm `index` has paid. */
    function GetTotalRewardByIndex(index: nat): (r: real)
      requires Valid() && index < k
      reads this, bandits
      ensures r == ArmStates()[index].totalReward
    {
      bandits[index].GetTotalReward()
    }

    /** KArmedBandit::update_q_estimate_by_index: only arm `index`'s estimate changes. */
    method UpdateQEstimateByIndex(index: nat, newEstimate: real)
      requires Valid() && index < k
      modifies bandits[index]
      ensures Valid()
      ensures ArmStates() == old(ArmStates())[index := old(ArmStates())[index].(estimate := newEstimate)]
      ensures GetQEstimateByIndex(index) == newEstimate
    {
      bandits[index].UpdateActionValueEstimate(newEstimate);
      assert ArmStates() == old(ArmStates())[index := old(ArmStates())[index].(estimate := newEstimate)];
      EstimateKeepsTotal(old(ArmStates()), index, newEstimate);
    }

    /** The estimate of arm `index`. */
    function GetQEstimateByIndex(index: nat): (r: real)
      requires Valid() && index < k
      reads this, bandits
      ensures r == ArmStates()[index].estimate
    {
      bandits[index].GetActionValueEstimate()
    }

    /** The global pull count: the sum of the arms' pull counts. */
    function GetTotalNumberOfPulls(): (n: nat)
      reads this, bandits
      ensures Valid() ==> n == TotalPulls(ArmStates())
    {
      numPulls
    }

    /** The number of arms. */
    function NumBandits(): (n: nat)
      reads this, bandits
      ensures Valid() ==> n == |ArmStates()|
    {
      k
    }

    /** Environment::reset: zero the counter and clear every arm in place; values and variances stay. */
    method Reset()
      requires Valid()
      modifies this, bandits
      ensures Valid() && bandits == old(bandits) && numPulls == 0
      ensures |ArmStates()| == |old(ArmStates())|
      ensures forall i :: 0 <= i < |bandits| ==> ArmStates()[i] == Cleared(old(ArmStates())[i])
    {
      numPulls := 0;
      for i := 0 to |bandits|
        invariant bandits == old(bandits) && numPulls == 0
        invariant forall j :: 0 <= j < i ==> bandits[j].State() == Cleared(old(bandits[j].State()))
        invariant forall j :: i <= j < |bandits| ==> bandits[j].State() == old(bandits[j].State())
      {
        bandits[i].numPulls := 0;
        bandits[i].totalReward := 0.0;
        bandits[i].actionValueEstimate := 0.0;
      }
      UnpulledTotalIsZero(ArmStates());
    }

    /** Environment::step: pulls arm `action`. */
    method Step(action: nat, sample: real) returns (reward: real)
      requires Valid() && action < k
      modifies this, bandits[action]
      ensures Valid() && bandits == old(bandits)
      ensures reward == sample && numPulls == old(numPulls) + 1
      ensures ArmStates() == old(ArmStates())[action := Pulled(old(ArmStates())[action], sample)]
    {
      reward := PullByIndex(action, sample);
    }

    /** There is a single state, within the reported number of states. */
    function GetState(): (s: nat)
      ensures s < GetNumberOfPossibleStates()
    {
      0
    }

    /** Environment::get_actions: the arm indices in order. */
    method GetActions() returns (actions: seq<nat>)
      ensures |actions| == k && forall i :: 0 <= i < k ==> actions[i] == i
    {
      actions := [];
      for i := 0 to k
        invariant |actions| == i && forall j :: 0 <= j < i ==> actions[j] == j
      {
        actions := actions + [i];
      }
    }

    /** The environment never ends. */
    predicate IsTerminal() {
      false
    }

    /** Environment::update_q_estimate: the state is ignored. */
    method UpdateQEstimate(state: nat, action: nat, newEstimate: real)
      requires Valid() && action < k
      modifies bandits[action]
      ensures Valid()
      ensures ArmStates() == old(ArmStates())[action := old(ArmStates())[action].(estimate := newEstimate)]
      ensures GetQEstimate(state, action) == newEstimate
    {
      UpdateQEstimateByIndex(action, newEstimate);
    }

    /** Environment::update_value_estimate panics: there are no state values. */
    method UpdateValueEstimate(state: nat, newEstimate: real) returns (r: Result<()>)
      ensures r == Err(NotImplemented)
    {
      r := Err(NotImplemented);
    }

    /** Environment::get_q_estimate: the estimate of arm `action`, whatever the state. */
    function GetQEstimate(state: nat, action: nat): (r: real)
      requires Valid() && action < k
      reads this, bandits
      ensures r == ArmStates()[action].estimate
    {
      GetQEstimateByIndex(action)
    }

    /** Environment::get_value_estimate panics. */
    function GetValueEstimate(state: nat): (r: Result<real>)
      ensures r.Err? && r.error == NotImplemented
    {
      Err(NotImplemented)
    }

    function GetNumberOfPossibleActions(): nat {
      k
    }

    function GetNumberOfPossibleStates(): nat {
      1
    }

    /** Environment::get_action_count_by_state: the pull count of arm `action`, whatever the state. */
    function GetActionCountByState(state: nat, action: nat): (n: nat)
      requires Valid() && action < k
      reads this, bandits
      ensures n == ArmStates()[action].numPulls
    {
      GetNumberOfPullsByIndex(action)
    }

    /** Environment::get_total_number_of_actions_taken: the global pull count. */
    function GetTotalNumberOfActionsTaken(): (n: nat)
      reads this, bandits
      ensures Valid() ==> n == TotalPulls(ArmStates())
    {
      numPulls
    }

    /** Environment::get_q_estimates: every arm's estimate, in index order. */
    method GetQEstimates(state: nat) returns (estimates: seq<real>)
      requires Valid()
      ensures estimates == Estimates(ArmStates())
    {
      estimates := [];
      for i := 0 to k
        invariant |estimates| == i && forall j :: 0 <= j < i ==> estimates[j] == ArmStates()[j].estimate
      {
        estimates := estimates + [GetQEstimate(state, i)];
      }
    }

    /** Environment::action_counts_by_state: every arm's pull count, in index order. */
    method ActionCountsByState(state: nat) returns (counts: seq<nat>)
      requires Valid()
      ensures counts == PullCounts(ArmStates())
    {
      counts := [];
      for i := 0 to k
        invariant |counts| == i && forall j :: 0 <= j < i ==> counts[j] == ArmStates()[j].numPulls
      {
        counts := counts + [GetNumberOfPullsByIndex(i)];
      }
    }
  }
}
