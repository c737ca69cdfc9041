/**
  The older k-armed bandit (src/bandit.rs): the same arms and global pull counter as the
  environment version, without the Environment operations.
 */
module BanditDraft {
  import opened Arms
  import Store

  class KArmedBandit {
    var bandits: seq<Bandit>
    const k: nat
    var numPulls: nat

    /** The arms' bookkeeping, in index order; the same view as the environment bandit's in bandit_env.dfy, since both drafts keep a vector of arms. */
    function ArmStates(): (arms: seq<ArmState>)
      reads this, bandits
      ensures |arms| == |bandits|
    {
      seq(|bandits|, i reads this, bandits requires 0 <= i < |bandits| => bandits[i].State())
    }

    /** k distinct arms, and the global counter is the sum of the arms' pulls. */
    ghost predicate Valid()
      reads this, bandits
    {
      && |bandits| == k
      && (forall i, j :: 0 <= i < j < |bandits| ==> bandits[i] != bandits[j])
      && numPulls == TotalPulls(ArmStates())
    }

    /** KArmedBandit::new: arm i is named after i and gets the i-th drawn true value. */
    constructor (k: nat, values: nat -> real)
      ensures Valid() && this.k == k && numPulls == 0
      ensures forall i :: 0 <= i < k ==> ArmStates()[i] == ArmState(values(i), 1.0, 0, 0.0, 0.0)
      ensures forall i :: 0 <= i < k ==> bandits[i].name == Store.NatToString(i)
      ensures forall i :: 0 <= i < k ==> fresh(bandits[i])
    {
      var arms: seq<Bandit> := [];
      for i := 0 to k
        invariant |arms| == i
        invariant forall j :: 0 <= j < i ==> fresh(arms[j])
        invariant forall j, l :: 0 <= j < l < i ==> arms[j] != arms[l]
        invariant forall j :: 0 <= j < i ==>
          arms[j].State() == ArmState(values(j), 1.0, 0, 0.0, 0.0) && arms[j].name == Store.NatToString(j)
      {
        var arm := new Bandit(Store.NatToString(i), values(i));
        arms := arms + [arm];
      }
      bandits := arms;
      this.k := k;
      numPulls := 0;
      new;
      UnpulledTotalIsZero(ArmStates());
    }

    /** KArmedBandit::pull_by_index: one more pull overall and on arm `index`; no other arm changes. */
    method PullByIndex(index: nat, sample: real) returns (reward: real)
      requires Valid() && index < k
      modifies this, bandits[index]
      ensures Valid() && bandits == old(bandits)
      ensures reward == sample && numPulls == old(numPulls) + 1
      ensures ArmStates() == old(ArmStates())[index := Pulled(old(ArmStates())[index], sample)]
    {
      numPulls := numPulls + 1;
      reward := bandits[index].Pull(sample);
      assert ArmStates() == old(ArmStates())[index := Pulled(old(ArmStates())[index], sample)];
      PullAddsOne(old(ArmStates()), index, sample);
    }

    /** The pull count of arm `index`. */
    function GetNumberOfPullsByIndex(index: nat): (n: nat)
      requires Valid() && index < k
      reads this, bandits
      ensures n == ArmStates()[index].numPulls
    {
      bandits[index].GetNumberOfPulls()
    }

    /** The total reward arm `index` has paid. */
    function GetTotalRewardByIndex(index: nat): (r: real)
      requires Valid() && index < k
      reads this, bandits
      ensures r == ArmStates()[index].totalReward
    {
      bandits[index].GetTotalReward()
    }

    /** KArmedBandit::update_action_value_estimate_by_index: only arm `index`'s estimate changes. */
    method UpdateActionValueEstimateByIndex(index: nat, newEstimate: real)
      requires Valid() && index < k
      modifies bandits[index]
      ensures Valid()
      ensures ArmStates() == old(ArmStates())[index := old(ArmStates())[index].(estimate := newEstimate)]
      ensures GetActionValueEstimateByIndex(index) == newEstimate
    {
      bandits[index].UpdateActionValueEstimate(newEstimate);
      assert ArmStates() == old(ArmStates())[index := old(ArmStates())[index].(estimate := newEstimate)];
      EstimateKeepsTotal(old(ArmStates()), index, newEstimate);
    }

    /** The estimate of arm `index`. */
    function GetActionValueEstimateByIndex(index: nat): (r: real)
      requires Valid() && index < k
      reads this, bandits
      ensures r == ArmStates()[index].estimate
    {
      bandits[index].GetActionValueEstimate()
    }

    /** The global pull count: the sum of the arms' pull counts. */
    function GetTotalNumberOfPulls(): (n: nat)
      reads this, bandits
      ensures Valid() ==> n == TotalPulls(ArmStates())
    {
      numPulls
    }

    /** The number of arms. */
    function NumBandits(): (n: nat)
      reads this, bandits
      ensures Valid() ==> n == |ArmStates()|
    {
      k
    }
  }
}
