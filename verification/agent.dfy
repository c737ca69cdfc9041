/**
  The generic agent (src/agent.rs) over the k-armed bandit environment, with either of the
  two selectors written for an environment: ε-greedy or UCB. The agent owns the two and
  delegates every operation: selection and learning to the selector, acting and the
  per-state vectors to the environment.
 */
module EnvAgent {
  import opened Arms
  import opened Selection
  import opened Outcomes
  import opened BanditEnv
  import opened EpsilonGreedyEnv
  import opened UcbEnv

  /** The selector an agent is built with. */
  datatype EnvSelector =
    | EpsilonGreedy(epsilonGreedy: EpsilonGreedySelector)
    | Ucb(ucb: UcbSelector)

  /** Agent: an environment and a selector. */
  class Agent {
    const environment: KArmedBandit
    const selector: EnvSelector

    ghost predicate Valid()
      reads this, environment, environment.bandits
    {
      environment.Valid()
    }

    /** Agent::new */
    constructor (environment: KArmedBandit, selector: EnvSelector)
      ensures this.environment == environment && this.selector == selector
    {
      this.environment := environment;
      this.selector := selector;
    }

    /**
      Agent::select_action: the selector's choice for the environment. ε-greedy explores
      with the drawn index when the drawn number is below ε (and panics without arms) and is
      greedy on the estimates otherwise; UCB is greedy on the scores. Either way nothing changes.
     */
    method SelectAction(randomNumber: real, randomIndex: nat) returns (r: Result<nat>)
      requires Valid()
      requires selector.EpsilonGreedy? && randomNumber < selector.epsilonGreedy.epsilon && environment.k > 0 ==>
                 randomIndex < environment.k
      ensures selector.EpsilonGreedy? ==>
        if randomNumber < selector.epsilonGreedy.epsilon then
          r == (if environment.k == 0 then Err(EmptyRange) else Ok(randomIndex))
        else r == Ok(ArgMaxFromZero(Estimates(environment.ArmStates())))
      ensures selector.Ucb? ==>
        r == Ok(ArgMaxFromZero(UcbScores(selector.ucb.bonus, selector.ucb.confidenceLevel, environment.numPulls,
                                         environment.ArmStates())))
      ensures r.Ok? && environment.k > 0 ==> r.value < environment.k
    {
      match selector
      case EpsilonGreedy(epsilonGreedy) =>
        r := epsilonGreedy.SelectAction(environment, randomNumber, randomIndex);
      case Ucb(ucb) =>
        var action := ucb.SelectAction(environment);
        r := Ok(action);
    }

    /** Agent::take_action: the environment's step and nothing else: one pull of arm `action`. */
    method TakeAction(action: nat, sample: real) returns (reward: real)
      requires Valid() && action < environment.k
      modifies environment, environment.bandits[action]
      ensures Valid() && environment.bandits == old(environment.bandits)
      ensures reward == sample && environment.numPulls == old(environment.numPulls) + 1
      ensures environment.ArmStates() == old(environment.ArmStates())[action :=
        Pulled(old(environment.ArmStates())[action], sample)]
    {
      reward := environment.Step(action, sample);
    }

    /**
      Agent::update_q_estimate: the selector's update with the same state, action and
      reward; both selectors move arm `action` to Q + (R - Q)/n, n its pull count.
     */
    method UpdateQEstimate(state: nat, action: nat, reward: real)
      requires Valid() && action < environment.k && environment.ArmStates()[action].numPulls >= 1
      modifies environment.bandits[action]
      ensures Valid()
      ensures environment.ArmStates() == old(environment.ArmStates())[action :=
        old(environment.ArmStates())[action].(estimate := IncrementalMean(old(environment.ArmStates())[action].estimate,
                                                                          reward,
                                                                          old(environment.ArmStates())[action].numPulls as real))]
    {
      match selector
      case EpsilonGreedy(epsilonGreedy) =>
        epsilonGreedy.UpdateQEstimate(environment, state, action, reward);
      case Ucb(ucb) =>
        ucb.UpdateQEstimate(environment, state, action, reward);
    }

    /** Agent::update_state_value_estimate: with either selector, it panics. */
    method UpdateStateValueEstimate(state: nat, reward: real) returns (r: Result<()>)
      ensures r == Err(NotImplemented)
    {
      match selector
      case EpsilonGreedy(epsilonGreedy) =>
        r := epsilonGreedy.UpdateValueEstimate(environment, state, reward);
      case Ucb(ucb) =>
        r := ucb.UpdateValueEstimate(environment, state, reward);
    }

    /** Agent::get_q_estimates: the environment's estimates, in arm order. */
    method GetQEstimates(state: nat) returns (estimates: seq<real>)
      requires Valid()
      ensures |estimates| == environment.k
      ensures forall i :: 0 <= i < |estimates| ==> estimates[i] == environment.GetQEstimate(state, i)
    {
      estimates := environment.GetQEstimates(state);
    }

    /** Agent::get_action_counts_by_state: the environment's pull counts, in arm order. */
    method GetActionCountsByState(state: nat) returns (counts: seq<nat>)
      requires Valid()
      ensures |counts| == environment.k
      ensures forall i :: 0 <= i < |counts| ==> counts[i] == environment.GetActionCountByState(state, i)
    {
      counts := environment.ActionCountsByState(state);
    }
  }
}
