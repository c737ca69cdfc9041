/**
  The selector interface the store-based agents use (the `Selector` of src/agents/selector.rs):
  a selector picks an action from the q store and the action-count store, and computes
  new q and state-value estimates from a store and a count store. Its three operations
  are pure here, so a selector is the record of the three functions.
 */
module StoreSelection {
  import opened Store
  import opened Outcomes

  /** What a selector reads from the environment: the number of actions, the actions taken so far, the current state. */
  datatype EnvView = EnvView(numActions: nat, totalActions: nat, state: nat)

  /**
    `select(view, qStore, countStore)`; `newQ(qStore, countStore, state, action, reward)`, defined
    once the pair has been counted; `newV(valueStore, countStore, state, reward)`, which may panic.
   */
  datatype StoreSelector = StoreSelector(
    select: (EnvView, map<string, real>, map<string, real>) -> nat,
    newQ: (map<string, real>, map<string, real>, nat, nat, real) --> real,
    newV: (map<string, real>, map<string, real>, nat, real) -> Result<real>)

  /** The new q estimate is defined for every (state, action) pair counted at least once. */
  ghost predicate Defined(selector: StoreSelector) {
    forall q, counts, state, action, reward ::
      Lookup(counts, GenerateId(state, action)) >= 1.0 ==> selector.newQ.requires(q, counts, state, action, reward)
  }
}
