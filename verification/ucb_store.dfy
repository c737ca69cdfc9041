/**
  The UCB selector over stores (src/selectors/ucb.rs): the estimate and the count of
  action i in the current state are read from the q store and the action-count store at
  the key of (state, i). The new q estimate is computed from the stores and returned,
  not written; the state-value estimate is not implemented.
 */
module UcbStore {
  import opened Store
  import opened Selection
  import opened Outcomes
  import opened StoreSelection
  import BlackjackEnv

  /** The score of every action in the viewed state, read from the two stores. */
  function StoreScores(bonus: Bonus, confidenceLevel: real, view: EnvView,
                       qStore: map<string, real>, countStore: map<string, real>): (scores: seq<real>)
    ensures |scores| == view.numActions
    ensures forall i :: 0 <= i < view.numActions ==>
              scores[i] == UcbScore(bonus, confidenceLevel, view.totalActions,
                                    Lookup(qStore, GenerateId(view.state, i)), Lookup(countStore, GenerateId(view.state, i)))
  {
    seq(view.numActions, i requires 0 <= i < view.numActions =>
      UcbScore(bonus, confidenceLevel, view.totalActions,
               Lookup(qStore, GenerateId(view.state, i)), Lookup(countStore, GenerateId(view.state, i))))
  }

  /** A score depends on the stores only through the keys of its own (state, action) pair. */
  lemma {:induction false} ScoreReadsItsOwnKeys(bonus: Bonus, c: real, view: EnvView,
                                                q1: map<string, real>, n1: map<string, real>,
                                                q2: map<string, real>, n2: map<string, real>, i: nat)
    requires i < view.numActions
    requires Lookup(q1, GenerateId(view.state, i)) == Lookup(q2, GenerateId(view.state, i))
    requires Lookup(n1, GenerateId(view.state, i)) == Lookup(n2, GenerateId(view.state, i))
    ensures StoreScores(bonus, c, view, q1, n1)[i] == StoreScores(bonus, c, view, q2, n2)[i]
  {
  }

  /** An update of another state's q entry does not change any score of this state. */
  lemma OtherStateKeepsScores(bonus: Bonus, c: real, view: EnvView, q: map<string, real>,
                              counts: map<string, real>, state: nat, action: nat, value: real)
    requires state != view.state
    ensures StoreScores(bonus, c, view, q[GenerateId(state, action) := value], counts) == StoreScores(bonus, c, view, q, counts)
  {
    forall i | 0 <= i < view.numActions
      ensures StoreScores(bonus, c, view, q[GenerateId(state, action) := value], counts)[i] == StoreScores(bonus, c, view, q, counts)[i]
    {
      GenerateIdInjective(state, action, view.state, i);
    }
  }

  datatype UcbSelector = UcbSelector(confidenceLevel: real, bonus: Bonus) {

    /** The action `select_action` picks: the greedy scan over the store scores. */
    function Select(view: EnvView, qStore: map<string, real>, countStore: map<string, real>): (action: nat)
      ensures view.numActions > 0 ==> action < view.numActions
    {
      ArgMaxFromZero(StoreScores(bonus, confidenceLevel, view, qStore, countStore))
    }

    /** UCBSelector::select_action: the scan, reading the environment and the two stores and changing nothing. */
    method SelectAction(environment: BlackjackEnv.Blackjack, store: MemoryStore, storeActionCount: MemoryStore)
      returns (action: nat)
      ensures action == Select(EnvView(environment.GetNumberOfPossibleActions(), environment.GetTotalNumberOfActionsTaken(),
                                       environment.GetState()), store.store, storeActionCount.store)
    {
      var max: real := 0.0;
      var maxIndex: nat := 0;
      var numActions := environment.GetNumberOfPossibleActions();
      var numPulls := environment.GetTotalNumberOfActionsTaken();
      var state := environment.GetState();
      ghost var scores := StoreScores(bonus, confidenceLevel, EnvView(numActions, numPulls, state), store.store, storeActionCount.store);
      for i := 0 to numActions
        invariant (max, maxIndex) == RunningMax(scores[..i])
      {
        RunningMaxStep(scores, i);
        var id := GenerateId(state, i);
        var currentValueEstimate := store.GetFloat(id);
        var actionCountId := GenerateId(state, i);
        var stateActionCount := storeActionCount.GetFloat(actionCountId);
        var confidence := bonus(confidenceLevel, numPulls, stateActionCount);
        var ucb := currentValueEstimate + confidence;
        assert ucb == scores[i];
        if ucb >= max {
          max := ucb;
          maxIndex := i;
        }
      }
      assert scores[..numActions] == scores;
      action := maxIndex;
    }

    /**
      UCBSelector::get_new_q_estimate: Q + (R - Q)/n with Q and n read at the pair's key.
      On the pair's first count it is the reward; it never overshoots the reward.
     */
    function GetNewQEstimate(store: map<string, real>, storeActionCount: map<string, real>,
                             state: nat, action: nat, reward: real): (estimate: real)
      requires Lookup(storeActionCount, GenerateId(state, action)) >= 1.0
      ensures Lookup(storeActionCount, GenerateId(state, action)) == 1.0 ==> estimate == reward
      ensures var q := Lookup(store, GenerateId(state, action));
        (q <= reward ==> q <= estimate <= reward) && (reward <= q ==> reward <= estimate <= q)
    {
      var currentPulls := Lookup(storeActionCount, GenerateId(state, action));
      var currentActionValueEstimate := Lookup(store, GenerateId(state, action));
      IncrementalMean(currentActionValueEstimate, reward, currentPulls)
    }

    /** UCBSelector::get_new_value_estimate panics. */
    function GetNewValueEstimate(store: map<string, real>, storeActionCount: map<string, real>,
                                 state: nat, reward: real): (r: Result<real>)
      ensures r.Err? && r.error == NotImplemented
    {
      Err(NotImplemented)
    }

    /** This selector as the record the agents hold. */
    function AsStoreSelector(): (selector: StoreSelector)
      ensures Defined(selector)
    {
      StoreSelector(
        (view: EnvView, q: map<string, real>, counts: map<string, real>) => Select(view, q, counts),
        (q: map<string, real>, counts: map<string, real>, state: nat, action: nat, reward: real) requires Lookup(counts, GenerateId(state, action)) >= 1.0 =>
          GetNewQEstimate(q, counts, state, action, reward),
        (v: map<string, real>, counts: map<string, real>, state: nat, reward: real) => GetNewValueEstimate(v, counts, state, reward))
    }
  }
}
