/**
  The Q agent (src/agents/q.rs) on the Blackjack environment: a selector and three value
  stores — q estimates, state values and (state, action) counts. It counts each action
  before stepping, and writes the selector's new estimates back into the stores. Unlike
  the Monte Carlo agent it keeps no state counts, runs no episodes and never changes its
  count of actions taken.
 */
module QAgent {
  import opened Store
  import opened Outcomes
  import opened StoreSelection
  import opened BlackjackEnv

  /** The agent: an environment, a selector, three stores and the count of actions taken. */
  class AgentQ {
    const environment: Blackjack
    const selector: StoreSelector
    const qStore: MemoryStore
    const stateValueStore: MemoryStore
    const storeActionCount: MemoryStore
    var totalActionsTaken: nat

    /**
      The environment is consistent, the three stores are three different objects, and no
      action has been counted in `totalActionsTaken`: no method ever adds to it.
     */
    ghost predicate Valid()
      reads this, environment, environment.player, environment.dealer
    {
      && environment.Valid()
      && qStore != stateValueStore && qStore != storeActionCount && stateValueStore != storeActionCount
      && totalActionsTaken == 0
    }

    /** AgentQ::new */
    constructor (environment: Blackjack, selector: StoreSelector, qStore: MemoryStore, stateValueStore: MemoryStore,
                 storeActionCount: MemoryStore)
      requires environment.Valid()
      requires qStore != stateValueStore && qStore != storeActionCount && stateValueStore != storeActionCount
      ensures Valid() && GetTotalActionsTaken() == 0
      ensures this.environment == environment && this.selector == selector
      ensures this.qStore == qStore && this.stateValueStore == stateValueStore && this.storeActionCount == storeActionCount
    {
      this.environment := environment;
      this.selector := selector;
      this.qStore := qStore;
      this.stateValueStore := stateValueStore;
      this.storeActionCount := storeActionCount;
      totalActionsTaken := 0;
    }

    /** AgentQ::select_action and Agent::select_action: the selector's choice; the stores are only read. */
    method SelectAction() returns (action: nat)
      ensures action == selector.select(EnvView(2, environment.stepCount, environment.GetState()),
                                        qStore.store, storeActionCount.store)
    {
      var view := EnvView(environment.GetNumberOfPossibleActions(), environment.GetTotalNumberOfActionsTaken(),
                          environment.GetState());
      action := selector.select(view, qStore.store, storeActionCount.store);
    }

    /**
      AgentQ::take_action and Agent::take_action: one more count for the pair of the
      current state and the action, no other count changes, then the environment's step.
     */
    method TakeAction(action: nat) returns (r: Result<real>)
      requires Valid()
      modifies environment, environment.player, environment.dealer, storeActionCount
      ensures Valid() && environment.player == old(environment.player) && environment.dealer == old(environment.dealer)
      ensures GetCount(old(environment.GetState()), action) == old(GetCount(environment.GetState(), action)) + 1.0
      ensures forall s: nat, a: nat :: (s, a) != (old(environment.GetState()), action) ==> GetCount(s, a) == old(GetCount(s, a))
      ensures storeActionCount.store == old(storeActionCount.store)[GenerateId(old(environment.GetState()), action) :=
        old(GetCount(environment.GetState(), action)) + 1.0]
      ensures match Transition(old(environment.Snapshot()), environment.deck, action)
        case Ok(outcome) => r == Ok(outcome.0) && environment.Snapshot() == outcome.1
        case Err(e) => r == Err(e)
    {
      var currentState := environment.GetState();
      var id := GenerateId(currentState, action);
      var currentCount := storeActionCount.GetFloat(id);
      storeActionCount.StoreFloat(id, currentCount + 1.0);
      forall s: nat, a: nat | (s, a) != (currentState, action)
        ensures GetCount(s, a) == old(GetCount(s, a))
      {
        GenerateIdInjective(s, a, currentState, action);
      }
      r := environment.Step(action);
    }

    /**
      AgentQ::update_q_estimate: the selector's new estimate is what the q estimate of the
      pair reads afterwards; no other pair's estimate changes.
     */
    method UpdateQEstimate(state: nat, action: nat, reward: real)
      requires Valid() && Defined(selector) && GetCount(state, action) >= 1.0
      modifies qStore
      ensures GetQEstimate(state, action) == selector.newQ(old(qStore.store), storeActionCount.store, state, action, reward)
      ensures forall s: nat, a: nat :: (s, a) != (state, action) ==> GetQEstimate(s, a) == old(GetQEstimate(s, a))
      ensures qStore.store == old(qStore.store)[GenerateId(state, action) :=
        selector.newQ(old(qStore.store), storeActionCount.store, state, action, reward)]
    {
      var newEstimate := selector.newQ(qStore.store, storeActionCount.store, state, action, reward);
      var id := GenerateId(state, action);
      qStore.StoreFloat(id, newEstimate);
      forall s: nat, a: nat | (s, a) != (state, action)
        ensures GetQEstimate(s, a) == old(GetQEstimate(s, a))
      {
        GenerateIdInjective(s, a, state, action);
      }
    }

    /**
      AgentQ::update_state_value_estimate: the selector's new value, computed from the
      (state, action) count store, is stored under the state's own key; the selector's
      panic is the agent's.
     */
    method UpdateStateValueEstimate(state: nat, reward: real) returns (r: Result<()>)
      requires Valid()
      modifies stateValueStore
      ensures match selector.newV(old(stateValueStore.store), storeActionCount.store, state, reward)
        case Ok(value) =>
          && r == Ok(()) && GetValueEstimate(state) == value
          && stateValueStore.store == old(stateValueStore.store)[StateId(state) := value]
        case Err(e) => r == Err(e) && stateValueStore.store == old(stateValueStore.store)
    {
      var newEstimate := selector.newV(stateValueStore.store, storeActionCount.store, state, reward);
      if newEstimate.Err? {
        return Err(newEstimate.error);
      }
      var id := StateId(state);
      stateValueStore.StoreFloat(id, newEstimate.value);
      r := Ok(());
    }

    /** AgentQ::get_q_estimate: the estimate last written for the pair, 0.0 before any. */
    function GetQEstimate(state: nat, action: nat): (r: real)
      reads this, qStore
      ensures GenerateId(state, action) in qStore.store ==> r == qStore.store[GenerateId(state, action)]
      ensures GenerateId(state, action) !in qStore.store ==> r == 0.0
    {
      qStore.GetFloat(GenerateId(state, action))
    }

    /** The count of a (state, action) pair. */
    function GetCount(state: nat, action: nat): real
      reads this, storeActionCount
    {
      storeActionCount.GetFloat(GenerateId(state, action))
    }

    /** AgentQ::get_value_estimate: the value last written for the state, 0.0 before any. */
    function GetValueEstimate(state: nat): (r: real)
      reads this, stateValueStore
      ensures StateId(state) in stateValueStore.store ==> r == stateValueStore.store[StateId(state)]
      ensures StateId(state) !in stateValueStore.store ==> r == 0.0
    {
      stateValueStore.GetFloat(StateId(state))
    }

    /** AgentQ::get_total_actions_taken: always 0, since nothing adds to it. */
    function GetTotalActionsTaken(): (n: nat)
      requires Valid()
      reads this, environment, environment.player, environment.dealer
      ensures n == 0
    {
      totalActionsTaken
    }

    /** Agent::update_estimate: the q update; whether the step ended the game is ignored. */
    method UpdateEstimate(state: nat, action: nat, reward: real, isTerminal: bool)
      requires Valid() && Defined(selector) && GetCount(state, action) >= 1.0
      modifies qStore
      ensures GetQEstimate(state, action) == selector.newQ(old(qStore.store), storeActionCount.store, state, action, reward)
      ensures forall s: nat, a: nat :: (s, a) != (state, action) ==> GetQEstimate(s, a) == old(GetQEstimate(s, a))
      ensures qStore.store == old(qStore.store)[GenerateId(state, action) :=
        selector.newQ(old(qStore.store), storeActionCount.store, state, action, reward)]
    {
      UpdateQEstimate(state, action, reward);
    }
  }

}
