/**
  The Monte Carlo agent (src/agents/mcts.rs) on the Blackjack environment. It keeps four
  value stores — q estimates, state values, (state, action) counts and state counts —
  and runs episodes: a forward pass that acts until the game is over, recording
  (state, action, reward), then a backward pass that feeds each entry the undiscounted
  return from that entry on to the selector's update rules.
 */
module Mcts {
  import opened Store
  import opened Outcomes
  import opened Selection
  import opened StoreSelection
  import opened Hands
  import opened BlackjackEnv

  /** One buffer entry: the state before the action, the action and the reward it got. */
  datatype Entry = Entry(state: nat, action: nat, reward: real)

  function Rewards(entries: seq<Entry>): (rewards: seq<real>)
    ensures |rewards| == |entries|
  {
    seq(|entries|, i requires 0 <= i < |entries| => entries[i].reward)
  }

  /** The undiscounted return from time t: the sum of the rewards from t to the end. */
  function ReturnFrom(entries: seq<Entry>, t: nat): real
    requires t <= |entries|
  {
    Sum(Rewards(entries)[t..])
  }

  /** A sum splits off its first term. */
  lemma {:induction false} SumFront(s: seq<real>)
    requires |s| >= 1
    ensures Sum(s) == s[0] + Sum(s[1..])
    decreases |s|
  {
    var n := |s|;
    if n == 1 {
      assert s[..0] == [] && s[1..] == [];
    } else {
      SumFront(s[..n - 1]);
      assert s[..n - 1][1..] == s[1..][..n - 2];
      assert s[1..][n - 2] == s[n - 1];
    }
  }

  /** The return from t is the reward at t plus the return from t + 1: what the backward loop accumulates. */
  lemma ReturnStep(entries: seq<Entry>, t: nat)
    requires t < |entries|
    ensures ReturnFrom(entries, t) == entries[t].reward + ReturnFrom(entries, t + 1)
  {
    var rewards := Rewards(entries);
    SumFront(rewards[t..]);
    assert rewards[t..][1..] == rewards[t + 1..];
  }

  /** The return from the start is the episode's total reward, and the return past the end is 0. */
  lemma ReturnBounds(entries: seq<Entry>)
    ensures ReturnFrom(entries, 0) == Sum(Rewards(entries))
    ensures ReturnFrom(entries, |entries|) == 0.0
  {
    assert Rewards(entries)[0..] == Rewards(entries);
    assert Rewards(entries)[|entries|..] == [];
  }

  /** What the selector sees of a Blackjack table. */
  function ViewOf(t: Table): EnvView {
    EnvView(2, t.stepCount, StateOf(t))
  }

  /** A counter store after one more count under `key`. */
  function Incremented(m: map<string, real>, key: string): map<string, real> {
    m[key := Lookup(m, key) + 1.0]
  }

  /** Every value of a count store is at least 0. */
  ghost predicate NonNegative(m: map<string, real>) {
    forall key :: key in m ==> m[key] >= 0.0
  }

  /** Every entry's (state, action) pair is counted at least once. */
  ghost predicate AllCounted(entries: seq<Entry>, counts: map<string, real>) {
    forall j :: 0 <= j < |entries| ==> Lookup(counts, GenerateId(entries[j].state, entries[j].action)) >= 1.0
  }

  /** Counting one more pair keeps the counts at 0 or more and every recorded pair counted. */
  lemma CountOneMore(recorded: seq<Entry>, entry: Entry, counts: map<string, real>)
    requires NonNegative(counts) && AllCounted(recorded, counts)
    ensures var counted := Incremented(counts, GenerateId(entry.state, entry.action));
      NonNegative(counted) && AllCounted(recorded + [entry], counted)
  {
    var key := GenerateId(entry.state, entry.action);
    var counted := Incremented(counts, key);
    var entries := recorded + [entry];
    assert Lookup(counts, key) >= 0.0;
    forall j | 0 <= j < |entries|
      ensures Lookup(counted, GenerateId(entries[j].state, entries[j].action)) >= 1.0
    {
      if j < |recorded| {
        assert entries[j] == recorded[j];
      }
    }
  }

  /** One step of the forward pass: the recorded entry, the next table and the two count stores. */
  datatype StepOutcome = StepOutcome(entry: Entry, next: Table, counts: map<string, real>, stateCounts: map<string, real>)

  /**
    One step of the forward pass from table t: the selector picks the action, the pair and
    the state are counted under the state before the step, and the environment steps.
   */
  function ForwardStep(selector: StoreSelector, deck: nat -> Card, t: Table, q: map<string, real>,
                       counts: map<string, real>, stateCounts: map<string, real>): (r: Result<StepOutcome>)
    requires WellFormed(t)
    ensures r.Ok? ==> WellFormed(r.value.next) && (Terminal(r.value.next) || Progress(r.value.next) < Progress(t))
    ensures r.Ok? ==> r.value.counts == Incremented(counts, GenerateId(r.value.entry.state, r.value.entry.action))
    ensures r.Ok? ==> r.value.entry.state == StateOf(t)
  {
    var state := StateOf(t);
    var action := selector.select(ViewOf(t), q, counts);
    var outcome := Transition(t, deck, action);
    if outcome.Err? then Err(outcome.error)
    else
      TransitionWellFormed(t, deck, action);
      var step := StepOutcome(Entry(state, action, outcome.value.0), outcome.value.1,
                              Incremented(counts, GenerateId(state, action)), Incremented(stateCounts, StateId(state)));
      if Terminal(step.next) then Ok(step)
      else
        StepMakesProgress(t, deck, action);
        Ok(step)
  }

  /** The outcome of the forward pass: the buffer, the final table and the two count stores. */
  datatype Forward = Forward(entries: seq<Entry>, last: Table, counts: map<string, real>, stateCounts: map<string, real>)

  /**
    The forward pass of run_episode from table t, after the entries recorded so far: take
    steps, appending one entry per step, and stop right after the first step that ends
    the game. The q store does not change during the pass.
   */
  function ForwardPass(selector: StoreSelector, deck: nat -> Card, t: Table, q: map<string, real>,
                       counts: map<string, real>, stateCounts: map<string, real>, recorded: seq<Entry>): (r: Result<Forward>)
    requires WellFormed(t)
    ensures r.Ok? ==> |r.value.entries| > |recorded| && Terminal(r.value.last) && WellFormed(r.value.last)
    decreases Progress(t)
  {
    match ForwardStep(selector, deck, t, q, counts, stateCounts)
    case Err(e) => Err(e)
    case Ok(step) =>
      var entries := recorded + [step.entry];
      if Terminal(step.next) then Ok(Forward(entries, step.next, step.counts, step.stateCounts))
      else ForwardPass(selector, deck, step.next, q, step.counts, step.stateCounts, entries)
  }

  /** The forward pass keeps what was recorded before it in front of the entries it adds. */
  lemma {:induction false} ForwardPassKeepsRecorded(selector: StoreSelector, deck: nat -> Card, t: Table, q: map<string, real>,
                                                    counts: map<string, real>, stateCounts: map<string, real>, recorded: seq<Entry>)
    requires WellFormed(t)
    requires ForwardPass(selector, deck, t, q, counts, stateCounts, recorded).Ok?
    ensures recorded <= ForwardPass(selector, deck, t, q, counts, stateCounts, recorded).value.entries
    decreases Progress(t)
  {
    var step := ForwardStep(selector, deck, t, q, counts, stateCounts).value;
    var entries := recorded + [step.entry];
    assert recorded <= entries;
    if !Terminal(step.next) {
      ForwardPassKeepsRecorded(selector, deck, step.next, q, step.counts, step.stateCounts, entries);
    }
  }

  /** Counts that start at 0 or more stay so through the forward pass, and then every recorded pair is counted. */
  lemma {:induction false} ForwardPassCounts(selector: StoreSelector, deck: nat -> Card, t: Table, q: map<string, real>,
                                             counts: map<string, real>, stateCounts: map<string, real>, recorded: seq<Entry>)
    requires WellFormed(t) && NonNegative(counts) && AllCounted(recorded, counts)
    requires ForwardPass(selector, deck, t, q, counts, stateCounts, recorded).Ok?
    ensures var forward := ForwardPass(selector, deck, t, q, counts, stateCounts, recorded).value;
      NonNegative(forward.counts) && AllCounted(forward.entries, forward.counts)
    decreases Progress(t)
  {
    var step := ForwardStep(selector, deck, t, q, counts, stateCounts).value;
    CountOneMore(recorded, step.entry, counts);
    if !Terminal(step.next) {
      ForwardPassCounts(selector, deck, step.next, q, step.counts, step.stateCounts, recorded + [step.entry]);
    }
  }

  /** The forward half of the agent ended as the forward pass says: the same panic, or the same buffer, table and counts. */
  ghost predicate Finished(whole: Result<Forward>, outcome: Result<seq<Entry>>, last: Table,
                           counts: map<string, real>, stateCounts: map<string, real>) {
    match whole
    case Err(e) => outcome == Err(e)
    case Ok(forward) =>
      && outcome == Ok(forward.entries) && last == forward.last
      && counts == forward.counts && stateCounts == forward.stateCounts
  }

  /**
    The backward pass over entries i-1 down to 0, as meant: entry t gets the return from t;
    its q entry becomes the selector's new q estimate and its state value the selector's
    new value estimate, or the pass panics with it.
   */
  function BackwardPass(selector: StoreSelector, entries: seq<Entry>, i: nat, q: map<string, real>, v: map<string, real>,
                        counts: map<string, real>, stateCounts: map<string, real>): Result<(map<string, real>, map<string, real>)>
    requires i <= |entries| && Defined(selector) && AllCounted(entries, counts)
    decreases i
  {
    if i == 0 then Ok((q, v))
    else
      var e := entries[i - 1];
      var g := ReturnFrom(entries, i - 1);
      var q' := q[GenerateId(e.state, e.action) := selector.newQ(q, counts, e.state, e.action, g)];
      match selector.newV(v, stateCounts, e.state, g)
      case Err(err) => Err(err)
      case Ok(value) => BackwardPass(selector, entries, i - 1, q', v[StateId(e.state) := value], counts, stateCounts)
  }

  /**
    The backward loop as written: a running total g gains each entry's reward before that
    entry is updated with it; the result carries the final total.
   */
  function BackwardFrom(selector: StoreSelector, entries: seq<Entry>, i: nat, g: real, q: map<string, real>, v: map<string, real>,
                        counts: map<string, real>, stateCounts: map<string, real>): Result<(real, map<string, real>, map<string, real>)>
    requires i <= |entries| && Defined(selector) && AllCounted(entries, counts)
    decreases i
  {
    if i == 0 then Ok((g, q, v))
    else
      var e := entries[i - 1];
      var total := g + e.reward;
      var q' := q[GenerateId(e.state, e.action) := selector.newQ(q, counts, e.state, e.action, total)];
      match selector.newV(v, stateCounts, e.state, total)
      case Err(err) => Err(err)
      case Ok(value) => BackwardFrom(selector, entries, i - 1, total, q', v[StateId(e.state) := value], counts, stateCounts)
  }

  /** One round of the backward loop performs one update of the backward pass, with the return from that entry. */
  lemma BackwardUnfold(selector: StoreSelector, entries: seq<Entry>, i: nat,
                       q: map<string, real>, v: map<string, real>,
                       counts: map<string, real>, stateCounts: map<string, real>)
    requires 0 < i <= |entries| && Defined(selector) && AllCounted(entries, counts)
    ensures var e := entries[i - 1];
      var g := ReturnFrom(entries, i - 1);
      var q' := q[GenerateId(e.state, e.action) := selector.newQ(q, counts, e.state, e.action, g)];
      match selector.newV(v, stateCounts, e.state, g)
      case Err(err) =>
        && BackwardPass(selector, entries, i, q, v, counts, stateCounts) == Err(err)
        && BackwardFrom(selector, entries, i, ReturnFrom(entries, i), q, v, counts, stateCounts) == Err(err)
      case Ok(value) =>
        && BackwardPass(selector, entries, i, q, v, counts, stateCounts) ==
           BackwardPass(selector, entries, i - 1, q', v[StateId(e.state) := value], counts, stateCounts)
        && BackwardFrom(selector, entries, i, ReturnFrom(entries, i), q, v, counts, stateCounts) ==
           BackwardFrom(selector, entries, i - 1, g, q', v[StateId(e.state) := value], counts, stateCounts)
  {
    var e := entries[i - 1];
    assert Lookup(counts, GenerateId(e.state, e.action)) >= 1.0;
    ReturnStep(entries, i - 1);
    assert ReturnFrom(entries, i) + e.reward == ReturnFrom(entries, i - 1);
  }

  /**
    The running total is the undiscounted return: started from the return past entry i,
    the loop performs the updates the backward pass means and ends with the return from
    the start.
   */
  lemma {:induction false} BackwardFromIsBackwardPass(selector: StoreSelector, entries: seq<Entry>, i: nat,
                                                      q: map<string, real>, v: map<string, real>,
                                                      counts: map<string, real>, stateCounts: map<string, real>)
    requires i <= |entries| && Defined(selector) && AllCounted(entries, counts)
    ensures BackwardFrom(selector, entries, i, ReturnFrom(entries, i), q, v, counts, stateCounts) ==
      match BackwardPass(selector, entries, i, q, v, counts, stateCounts)
      case Err(e) => Err(e)
      case Ok(stores) => Ok((ReturnFrom(entries, 0), stores.0, stores.1))
    decreases i
  {
    if i > 0 {
      BackwardUnfold(selector, entries, i, q, v, counts, stateCounts);
      var e := entries[i - 1];
      var g := ReturnFrom(entries, i - 1);
      var q' := q[GenerateId(e.state, e.action) := selector.newQ(q, counts, e.state, e.action, g)];
      match selector.newV(v, stateCounts, e.state, g)
      case Err(err) =>
      case Ok(value) =>
        BackwardFromIsBackwardPass(selector, entries, i - 1, q', v[StateId(e.state) := value], counts, stateCounts);
    }
  }

  /** The backward pass writes q entries only under the keys of the buffer's pairs. */
  lemma {:induction false} BackwardWritesOnlyVisitedKeys(selector: StoreSelector, entries: seq<Entry>, i: nat,
                                                         q: map<string, real>, v: map<string, real>,
                                                         counts: map<string, real>, stateCounts: map<string, real>, key: string)
    requires i <= |entries| && Defined(selector) && AllCounted(entries, counts)
    requires forall j :: 0 <= j < i ==> key != GenerateId(entries[j].state, entries[j].action)
    requires BackwardPass(selector, entries, i, q, v, counts, stateCounts).Ok?
    ensures Lookup(BackwardPass(selector, entries, i, q, v, counts, stateCounts).value.0, key) == Lookup(q, key)
    decreases i
  {
    if i > 0 {
      var e := entries[i - 1];
      var g := ReturnFrom(entries, i - 1);
      var q' := q[GenerateId(e.state, e.action) := selector.newQ(q, counts, e.state, e.action, g)];
      var value := selector.newV(v, stateCounts, e.state, g).value;
      BackwardWritesOnlyVisitedKeys(selector, entries, i - 1, q', v[StateId(e.state) := value], counts, stateCounts, key);
    }
  }

  /** When the value update never panics, neither does the backward pass. */
  lemma {:induction false} BackwardSucceeds(selector: StoreSelector, entries: seq<Entry>, i: nat,
                                            q: map<string, real>, v: map<string, real>,
                                            counts: map<string, real>, stateCounts: map<string, real>)
    requires i <= |entries| && Defined(selector) && AllCounted(entries, counts)
    requires forall v', sc, s, g :: selector.newV(v', sc, s, g).Ok?
    ensures BackwardPass(selector, entries, i, q, v, counts, stateCounts).Ok?
    decreases i
  {
    if i > 0 {
      var e := entries[i - 1];
      var g := ReturnFrom(entries, i - 1);
      var q' := q[GenerateId(e.state, e.action) := selector.newQ(q, counts, e.state, e.action, g)];
      var value := selector.newV(v, stateCounts, e.state, g).value;
      BackwardSucceeds(selector, entries, i - 1, q', v[StateId(e.state) := value], counts, stateCounts);
    }
  }

  /** When the value update always panics, the backward pass panics on its first entry. */
  lemma BackwardPanicsAtOnce(selector: StoreSelector, entries: seq<Entry>, q: map<string, real>, v: map<string, real>,
                             counts: map<string, real>, stateCounts: map<string, real>)
    requires |entries| >= 1 && Defined(selector) && AllCounted(entries, counts)
    requires forall v', sc, s, g :: selector.newV(v', sc, s, g) == Err(NotImplemented)
    ensures BackwardPass(selector, entries, |entries|, q, v, counts, stateCounts) == Err(NotImplemented)
  {
    var e := entries[|entries| - 1];
    assert selector.newV(v, stateCounts, e.state, ReturnFrom(entries, |entries| - 1)) == Err(NotImplemented);
  }

  /** The agent: an environment, a selector, four stores and the count of actions taken. */
  class AgentMcts {
    const environment: Blackjack
    const selector: StoreSelector
    const qStore: MemoryStore
    const stateValueStore: MemoryStore
    const storeActionCount: MemoryStore
    const storeStateCount: MemoryStore
    var totalActionsTaken: nat

    /** The environment is consistent and the four stores are four different objects. */
    ghost predicate Valid()
      reads this, environment, environment.player, environment.dealer
    {
      && environment.Valid()
      && qStore != stateValueStore && qStore != storeActionCount && qStore != storeStateCount
      && stateValueStore != storeActionCount && stateValueStore != storeStateCount
      && storeActionCount != storeStateCount
    }

    /** The selector's q update is defined on every counted pair, and no count is negative. */
    ghost predicate Learning()
      reads this, storeActionCount
    {
      Defined(selector) && NonNegative(storeActionCount.store)
    }

    /** AgentMcts::new: no actions taken yet. */
    constructor (environment: Blackjack, selector: StoreSelector, qStore: MemoryStore, stateValueStore: MemoryStore,
                 storeActionCount: MemoryStore, storeStateCount: MemoryStore)
      requires environment.Valid() && Defined(selector) && NonNegative(storeActionCount.store)
      requires qStore != stateValueStore && qStore != storeActionCount && qStore != storeStateCount
      requires stateValueStore != storeActionCount && stateValueStore != storeStateCount
      requires storeActionCount != storeStateCount
      ensures Valid() && Learning() && totalActionsTaken == 0
      ensures this.environment == environment && this.selector == selector
      ensures this.qStore == qStore && this.stateValueStore == stateValueStore
      ensures this.storeActionCount == storeActionCount && this.storeStateCount == storeStateCount
    {
      this.environment := environment;
      this.selector := selector;
      this.qStore := qStore;
      this.stateValueStore := stateValueStore;
      this.storeActionCount := storeActionCount;
      this.storeStateCount := storeStateCount;
      totalActionsTaken := 0;
    }

    /** AgentMcts::select_action: the selector's choice for the environment and the two stores. */
    method SelectAction() returns (action: nat)
      ensures action == selector.select(ViewOf(environment.Snapshot()), qStore.store, storeActionCount.store)
    {
      var view := EnvView(environment.GetNumberOfPossibleActions(), environment.GetTotalNumberOfActionsTaken(),
                          environment.GetState());
      action := selector.select(view, qStore.store, storeActionCount.store);
    }

    /** AgentMcts::get_number_of_possible_states: the environment's number of states. */
    function GetNumberOfPossibleStates(): (n: nat)
      ensures n == environment.GetNumberOfPossibleStates()
    {
      NumberOfStates
    }

    /**
      AgentMcts::take_action: counts the (state, action) pair and the state, both under the
      state before the step, then steps the environment and returns its reward.
     */
    method TakeAction(action: nat) returns (r: Result<real>)
      requires Valid()
      modifies environment, environment.player, environment.dealer, storeActionCount, storeStateCount
      ensures Valid() && environment.player == old(environment.player) && environment.dealer == old(environment.dealer)
      ensures storeActionCount.store == Incremented(old(storeActionCount.store), GenerateId(old(environment.GetState()), action))
      ensures storeStateCount.store == Incremented(old(storeStateCount.store), StateId(old(environment.GetState())))
      ensures match Transition(old(environment.Snapshot()), environment.deck, action)
        case Ok(outcome) => r == Ok(outcome.0) && environment.Snapshot() == outcome.1
        case Err(e) => r == Err(e)
    {
      var currentState := environment.GetState();
      var id := GenerateId(currentState, action);
      var currentCount := storeActionCount.GetFloat(id);
      storeActionCount.StoreFloat(id, currentCount + 1.0);
      var stateId := StateId(currentState);
      var currentStateCount := storeStateCount.GetFloat(stateId);
      storeStateCount.StoreFloat(stateId, currentStateCount + 1.0);
      r := environment.Step(action);
    }

    /** AgentMcts::update_q_estimate: writes the selector's new estimate under the pair's key only. */
    method UpdateQEstimate(state: nat, action: nat, reward: real)
      requires Valid() && Defined(selector) && Lookup(storeActionCount.store, GenerateId(state, action)) >= 1.0
      modifies qStore
      ensures qStore.store == old(qStore.store)[GenerateId(state, action) :=
        selector.newQ(old(qStore.store), storeActionCount.store, state, action, reward)]
    {
      var newEstimate := selector.newQ(qStore.store, storeActionCount.store, state, action, reward);
      var id := GenerateId(state, action);
      qStore.StoreFloat(id, newEstimate);
    }

    /** AgentMcts::update_state_value_estimate: writes the selector's new value under the state's key, or panics. */
    method UpdateStateValueEstimate(state: nat, reward: real) returns (r: Result<()>)
      requires Valid()
      modifies stateValueStore
      ensures match selector.newV(old(stateValueStore.store), storeStateCount.store, state, reward)
        case Ok(value) => r == Ok(()) && stateValueStore.store == old(stateValueStore.store)[StateId(state) := value]
        case Err(e) => r == Err(e) && stateValueStore.store == old(stateValueStore.store)
    {
      var newEstimate := selector.newV(stateValueStore.store, storeStateCount.store, state, reward);
      if newEstimate.Err? {
        return Err(newEstimate.error);
      }
      var id := StateId(state);
      stateValueStore.StoreFloat(id, newEstimate.value);
      r := Ok(());
    }

    /** AgentMcts::get_state_value_estimate: the value last written for the state, 0.0 before any. */
    function GetStateValueEstimate(state: nat): (r: real)
      reads this, stateValueStore
      ensures StateId(state) in stateValueStore.store ==> r == stateValueStore.store[StateId(state)]
      ensures StateId(state) !in stateValueStore.store ==> r == 0.0
    {
      stateValueStore.GetFloat(StateId(state))
    }

    /** AgentMcts::get_state_visit_count: how often take_action counted the state, 0.0 before any. */
    function GetStateVisitCount(state: nat): (r: real)
      reads this, storeStateCount
      ensures StateId(state) in storeStateCount.store ==> r == storeStateCount.store[StateId(state)]
      ensures StateId(state) !in storeStateCount.store ==> r == 0.0
    {
      storeStateCount.GetFloat(StateId(state))
    }

    /** One round of run_episode's forward loop: read the state, select, take the action. */
    method Act() returns (outcome: Result<Entry>)
      requires Valid()
      modifies environment, environment.player, environment.dealer, storeActionCount, storeStateCount
      ensures Valid() && environment.player == old(environment.player) && environment.dealer == old(environment.dealer)
      ensures match ForwardStep(selector, environment.deck, old(environment.Snapshot()), qStore.store,
                                old(storeActionCount.store), old(storeStateCount.store))
        case Err(e) => outcome == Err(e)
        case Ok(step) =>
          && outcome == Ok(step.entry) && environment.Snapshot() == step.next
          && storeActionCount.store == step.counts && storeStateCount.store == step.stateCounts
    {
      var state := environment.GetState();
      var action := SelectAction();
      var reward := TakeAction(action);
      if reward.Err? {
        return Err(reward.error);
      }
      outcome := Ok(Entry(state, action, reward.value));
    }

    /**
      The forward half of run_episode: act until the game is over, recording each
      (state, action, reward); a panic of the environment ends the episode.
     */
    method PlayForward() returns (outcome: Result<seq<Entry>>)
      requires Valid()
      modifies this, environment, environment.player, environment.dealer, storeActionCount, storeStateCount
      ensures Valid() && environment.player == old(environment.player) && environment.dealer == old(environment.dealer)
      ensures Finished(ForwardPass(selector, environment.deck, old(environment.Snapshot()), qStore.store,
                                   old(storeActionCount.store), old(storeStateCount.store), []),
                       outcome, environment.Snapshot(), storeActionCount.store, storeStateCount.store)
      ensures outcome.Ok? ==> totalActionsTaken == old(totalActionsTaken) + |outcome.value|
    {
      ghost var whole := ForwardPass(selector, environment.deck, environment.Snapshot(), qStore.store,
                                     storeActionCount.store, storeStateCount.store, []);
      var stateActionValues: seq<Entry> := [];
      while true
        invariant Valid()
        invariant environment.player == old(environment.player) && environment.dealer == old(environment.dealer)
        invariant totalActionsTaken == old(totalActionsTaken) + |stateActionValues|
        invariant WellFormed(environment.Snapshot())
        invariant ForwardPass(selector, environment.deck, environment.Snapshot(), qStore.store,
                              storeActionCount.store, storeStateCount.store, stateActionValues) == whole
        decreases Progress(environment.Snapshot())
      {
        var acted := Act();
        if acted.Err? {
          return Err(acted.error);
        }
        stateActionValues := stateActionValues + [acted.value];
        totalActionsTaken := totalActionsTaken + 1;
        if environment.IsTerminal() {
          return Ok(stateActionValues);
        }
      }
    }

    /**
      The backward half of run_episode: from the last entry to the first, add the entry's
      reward to the running total and update the pair's q estimate and the state's value
      with it; returns the total.
     */
    method PlayBackward(stateActionValues: seq<Entry>) returns (r: Result<real>)
      requires Valid() && Defined(selector) && AllCounted(stateActionValues, storeActionCount.store)
      modifies qStore, stateValueStore
      ensures match BackwardPass(selector, stateActionValues, |stateActionValues|, old(qStore.store),
                                 old(stateValueStore.store), storeActionCount.store, storeStateCount.store)
        case Err(e) => r == Err(e)
        case Ok(stores) =>
          r == Ok(Sum(Rewards(stateActionValues))) && qStore.store == stores.0 && stateValueStore.store == stores.1
    {
      ghost var whole := BackwardFrom(selector, stateActionValues, |stateActionValues|, 0.0, qStore.store,
                                      stateValueStore.store, storeActionCount.store, storeStateCount.store);
      ReturnBounds(stateActionValues);
      BackwardFromIsBackwardPass(selector, stateActionValues, |stateActionValues|, qStore.store, stateValueStore.store,
                                 storeActionCount.store, storeStateCount.store);
      var totalReward := 0.0;
      var i := |stateActionValues|;
      while i > 0
        invariant 0 <= i <= |stateActionValues|
        invariant BackwardFrom(selector, stateActionValues, i, totalReward, qStore.store, stateValueStore.store,
                               storeActionCount.store, storeStateCount.store) == whole
        decreases i
      {
        var entry := stateActionValues[i - 1];
        totalReward := totalReward + entry.reward;
        UpdateQEstimate(entry.state, entry.action, totalReward);
        var updated := UpdateStateValueEstimate(entry.state, totalReward);
        if updated.Err? {
          return Err(updated.error);
        }
        i := i - 1;
      }
      r := Ok(totalReward);
    }

    /**
      The end of run_episode: the backward pass over the buffer, then a reset of the
      environment; returns the total reward.
     */
    method Learn(stateActionValues: seq<Entry>) returns (r: Result<real>)
      requires Valid() && Defined(selector) && AllCounted(stateActionValues, storeActionCount.store)
      modifies environment, environment.player, environment.dealer, qStore, stateValueStore
      ensures Valid()
      ensures match BackwardPass(selector, stateActionValues, |stateActionValues|, old(qStore.store),
                                 old(stateValueStore.store), storeActionCount.store, storeStateCount.store)
        case Err(e) => r == Err(e)
        case Ok(stores) =>
          && r == Ok(Sum(Rewards(stateActionValues))) && qStore.store == stores.0 && stateValueStore.store == stores.1
          && environment.Snapshot() == Dealt(old(environment.Snapshot()), environment.deck)
    {
      r := PlayBackward(stateActionValues);
      if r.Err? {
        return;
      }
      environment.Reset();
    }

    /**
      AgentMcts::run_episode: the forward pass, then the backward pass, then a reset of the
      environment; returns the episode's total reward.
     */
    method RunEpisode() returns (r: Result<real>)
      requires Valid() && Learning()
      modifies this, environment, environment.player, environment.dealer
      modifies qStore, stateValueStore, storeActionCount, storeStateCount
      ensures Valid() && (r.Ok? ==> Learning())
      ensures match ForwardPass(selector, environment.deck, old(environment.Snapshot()), old(qStore.store),
                                old(storeActionCount.store), old(storeStateCount.store), [])
        case Err(e) => r == Err(e)
        case Ok(forward) =>
          && storeActionCount.store == forward.counts && storeStateCount.store == forward.stateCounts
          && totalActionsTaken == old(totalActionsTaken) + |forward.entries|
          && AllCounted(forward.entries, forward.counts)
          && match BackwardPass(selector, forward.entries, |forward.entries|, old(qStore.store),
                                old(stateValueStore.store), forward.counts, forward.stateCounts)
             case Err(e) => r == Err(e)
             case Ok(stores) =>
               && r == Ok(Sum(Rewards(forward.entries)))
               && qStore.store == stores.0 && stateValueStore.store == stores.1
               && environment.Snapshot() == Dealt(forward.last, environment.deck)
    {
      var forward := PlayForward();
      if forward.Err? {
        return Err(forward.error);
      }
      ForwardPassCounts(selector, environment.deck, old(environment.Snapshot()), qStore.store,
                        old(storeActionCount.store), old(storeStateCount.store), []);
      r := Learn(forward.value);
    }
  }
}
