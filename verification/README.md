# rl_examples in Dafny

A model of the tabular action-value learning library in jettblu/rl_examples, with the
model's properties proved. It covers these parts of the library:

- **Value store** (`store.dfy`). A string-keyed store in which a missing key reads as 0.0, and the `"{state}-{action}"` key rule.
- **Blackjack hands** (`hands.dfy`). The dealer and the player, with the ace-as-11 rule and the dealer's draw-to-17 strategy.
- **Blackjack environment** (`blackjack_env.dfy`). The newer game: four cards are dealt on `reset`, there is a terminal test and a state encoding.
- **Older Blackjack** (`blackjack_draft.dfy`). The older standalone game.
- **Bandit arms** (`arms.dfy`). A single arm and its bookkeeping.
- **k-armed bandit environment** (`bandit_env.dfy`). The bandit with its environment operations.
- **Older k-armed bandit** (`bandit_draft.dfy`).
- **Selector building blocks** (`selection.dfy`). What the selectors share: the greedy scan that starts from 0.0 and breaks ties on `>=`, and the incremental sample-mean update Q + (R − Q)/n.
- **ε-greedy and UCB selectors** over an environment (`epsilon_greedy_env.dfy`, `ucb_env.dfy`). The older ε-greedy selector is in `epsilon_greedy_draft.dfy`.
- **Store-based UCB selector** (`ucb_store.dfy`). It is also seen as the selector interface the store-based agents hold (`store_selection.dfy`).
- **Agents**:
  - the Monte Carlo agent with its episode (`mcts.dfy`, `mcts_ucb.dfy`);
  - the Q agent (`q.dfy`);
  - the generic agent over the bandit environment (`agent.dfy`);
  - the bandit actor (`actor.dfy`).

**Randomness is an input throughout.**
- A Blackjack game reads its cards from a deck `nat -> Card` (values 1..10) through a cursor.
- The Gaussian draws of the bandits, the selectors' uniform number and uniform index are parameters.
- The UCB exploration bonus sqrt(c · ln N / n) is an uninterpreted function of (c, N, n).

**Other modelling choices.**
- Floating-point values are `real`.
- A panic (an invalid Blackjack action, an operation that is not implemented) is the `Err` of a `Result`.
- An ε-greedy draw of a uniform index from an empty range of actions (`gen_range(0..0)`) is `Err(EmptyRange)`.
- An out-of-range vector index is a precondition (see below).

**Data that the source changes in place is modelled with classes.**
- The classes are the hands, the games, the arms, the bandits, the stores and the agents.
- Each class has `modifies` frames. Its methods are tied to value-level functions, for example `Transition` on a Blackjack `Table`, `ArmStates()` of a bandit, and `ForwardPass`/`BackwardPass` of an episode.
- The properties are proved about those functions.

**The episode of the Monte Carlo agent** is stated twice.
- As the code does it: a loop with a running total.
- As it is meant: entry t is updated with the undiscounted return from t, the sum of the rewards from t to the end.
- A lemma shows the two agree. The episode returns the sum of all rewards.

## Model

| member | source | states |
|---|---|---|
| Store.NatToString | src/store.rs:5 | the decimal text of a number is a non-empty digit string, of two or more digits from 10 on |
| Store.DigitsValueOfNatToString | src/store.rs:5 | reading the decimal text of n back as digits gives n |
| Store.NatToStringInjective | src/store.rs:5 | distinct numbers have distinct decimal texts, and only they |
| Store.GenerateId | src/store.rs:4-6 | the key "{state}-{action}"; GenerateIdInjective proves two keys equal exactly for equal pairs, StateIdIsSeparate that it never equals a state-only key |
| Store.StateId | src/agents/mcts.rs:55 | the state-only key, the decimal text of the state; StateIdIsSeparate proves it injective and apart from the pair keys |
| Store.GenerateIdInjective | src/store.rs:4-6 | two keys "{state}-{action}" are equal exactly when the (state, action) pairs are equal |
| Store.StateIdIsSeparate | src/agents/mcts.rs:55-57 | a state-only key never equals a (state, action) key, and state keys are equal exactly for equal states |
| Store.LookupSemantics | src/store.rs:17-25 | a key never written reads 0.0 (also in a new store); a read after a write returns the value written; a second write replaces the first; other keys are unaffected |
| Store.Lookup | src/store.rs:20-25 | the read of a store where a missing key is 0.0; LookupSemantics states what it returns before and after writes |
| Store.MemoryStore.constructor | src/store.rs:26-30 | a new store is empty and every key reads 0.0 |
| Store.MemoryStore.StoreFloat | src/store.rs:17-19 | inserts or replaces one key; the key then reads the value and every other key reads as before |
| Store.MemoryStore.GetFloat | src/store.rs:20-25 | the stored value for a present key, 0.0 for a missing one |
| Hands.CountedValue | src/environments/blackjack.rs:156-158 | a card counts 11 exactly when it is an ace and the sum before it is at most 10, else its face value; always 1..11 |
| Hands.AddCard | src/environments/blackjack.rs:159-160 | drawing appends exactly one card behind the old hand and raises the sum by the card's counted value |
| Hands.TwoCardsNeverBust | src/environments/blackjack.rs:52-55 | any two cards dealt into an empty hand sum to 4..21 (a second ace counts 1) |
| Hands.Bust | src/environments/blackjack.rs:31-33 | a sum above 21; HitReward and BlackjackEnv.Reward state the rewards it decides |
| Hands.DealerDraws | src/environments/blackjack.rs:77-79 | the dealer's strategy ends with a sum of at least 17, keeps the old hand as a prefix, draws one deck card per added card, draws nothing from 17 on, and never passes 26 from a sum of at most 26 |
| Hands.DealerDrawsOnce | src/environments/blackjack.rs:77-79 | below 17, drawing one card and continuing gives the same outcome as the whole strategy: one loop iteration |
| Hands.Dealer.constructor | src/environments/blackjack.rs:133-138 | a new dealer has an empty hand and sum 0 |
| Hands.Dealer.DrawCard | src/environments/blackjack.rs:152-161 | the hand grows by the counted card and the sum by its value; the sum stays the hand's sum |
| Hands.Dealer.GetSum | src/environments/blackjack.rs:163-165 | the dealer's sum, which is the sum of the counted hand |
| Hands.Dealer.DidBust | src/environments/blackjack.rs:31-33 | true exactly when the counted hand sums above 21 |
| Hands.Player.constructor | src/environments/blackjack.rs:142-147 | a new player has an empty hand, sum 0 and no usable ace |
| Hands.Player.DrawCard | src/environments/blackjack.rs:169-179 | as the dealer's draw, and the usable-ace flag becomes true exactly when this card is counted 11; nothing clears it |
| Hands.Player.GetSum | src/environments/blackjack.rs:181-183 | the player's sum, which is the sum of the counted hand |
| Hands.Player.DidBust | src/environments/blackjack.rs:31-33 | true exactly when the counted hand sums above 21 |
| BlackjackEnv.Reward | src/environments/blackjack.rs:82-95 | the reward is -1, 0 or 1; it is nonzero only at a terminal table; at the end, a bust player gets -1 first, then a bust dealer gives +1, else the sign of player minus dealer |
| BlackjackEnv.Terminal | src/environments/blackjack.rs:111-117 | the game is over when either side is bust or the dealer has played; RewardOnlyAtTheEnd, DealerTurnEndsTheGame and DealtGameIsOpen state when it holds |
| BlackjackEnv.Transition | src/environments/blackjack.rs:61-96 | the table after a step, or the panic; TransitionWellFormed, HitChangesOnlyThePlayer, StickOnlyEndsTheTurn, DealerTurnEndsTheGame and StepMakesProgress state what it does |
| BlackjackEnv.ElevenAfterDraw | src/environments/blackjack.rs:173-176 | after a draw the hand holds an 11 exactly when it held one or this card is counted 11, which keeps the flag in step with the hand |
| BlackjackEnv.TransitionWellFormed | src/environments/blackjack.rs:61-96 | every outcome of step keeps both sums and the usable-ace flag consistent with the hands |
| BlackjackEnv.HitChangesOnlyThePlayer | src/environments/blackjack.rs:64-67 | on the player's turn, action 0 never panics, adds one counted card to the player's hand, raises the player's sum, updates the flag by the ace rule, and changes nothing else but the deck cursor |
| BlackjackEnv.StickOnlyEndsTheTurn | src/environments/blackjack.rs:64-73 | on the player's turn, action 1 only clears the player's turn; any action above 1 panics |
| BlackjackEnv.DealerTurnEndsTheGame | src/environments/blackjack.rs:74-80 | on the dealer's turn the action is ignored, the dealer ends with 17..26, the game is over and only the dealer's hand and sum change |
| BlackjackEnv.RewardOnlyAtTheEnd | src/environments/blackjack.rs:81-95 | every reward step returns is -1, 0 or 1, and nonzero only when the new table is terminal |
| BlackjackEnv.StepMakesProgress | src/environments/blackjack.rs:61-80 | a step that does not end the game strictly lowers a natural measure, so every episode ends |
| BlackjackEnv.DealtGameIsOpen | src/environments/blackjack.rs:48-59 | after reset both sides hold exactly two cards, it is the player's turn, step_count is unchanged, nobody is bust and the game is not over |
| BlackjackEnv.StateCodeRoundTrip | src/environments/blackjack.rs:98-105 | for player sums 12..21 and dealer sums 2..10 the code is below get_number_of_possible_states (180) and decodes back to the triple |
| BlackjackEnv.DecodeStateRoundTrip | src/environments/blackjack.rs:123-125 | every code below 180 is the code of exactly the in-range triple it decodes to |
| BlackjackEnv.StateCodeInjective | src/environments/blackjack.rs:98-105 | on those ranges two triples have the same code exactly when they are equal |
| BlackjackEnv.StateCodeBeyondTheRange | src/environments/blackjack.rs:98-105 | outside those ranges codes collide ((12,11) and (13,2)), exceed 180, or wrap around as usize |
| BlackjackEnv.StateCode | src/environments/blackjack.rs:98-105 | the state code of a (player sum, dealer sum, usable ace) triple; StateCodeRoundTrip, StateCodeInjective and StateCodeBeyondTheRange state where it is a faithful code |
| BlackjackEnv.Blackjack.constructor | src/environments/blackjack.rs:37-44 | a new game has empty hands, the player's turn and step_count 0 |
| BlackjackEnv.Blackjack.RandomCard | src/environments/blackjack.rs:186-194 | random_card returns the next card of the deck and advances the cursor by one |
| BlackjackEnv.Blackjack.DealOpeningHands | src/environments/blackjack.rs:49-55 | fresh hands with player, dealer, player, dealer cards dealt in that order, four cards used |
| BlackjackEnv.Blackjack.Reset | src/environments/blackjack.rs:48-59 | the game becomes the freshly dealt table: new hands of two cards, the player's turn, step_count kept |
| BlackjackEnv.Blackjack.DealerPlays | src/environments/blackjack.rs:77-79 | the dealer loop ends with the hand and cursor of the dealer's strategy |
| BlackjackEnv.Blackjack.Step | src/environments/blackjack.rs:61-96 | step returns the reward and leaves the table of the transition function, or panics on an invalid action |
| BlackjackEnv.Blackjack.GetState | src/environments/blackjack.rs:98-105 | the state code of the current table; StateCodeRoundTrip states it decodes back on the dealt ranges |
| BlackjackEnv.Blackjack.GetActions | src/environments/blackjack.rs:107-109 | exactly the actions below get_number_of_possible_actions, hit (0) and stick (1) |
| BlackjackEnv.Blackjack.IsTerminal | src/environments/blackjack.rs:111-117 | the terminal test of the current table; RewardOnlyAtTheEnd and DealtGameIsOpen state when it holds |
| BlackjackEnv.Blackjack.GetNumberOfPossibleActions | src/environments/blackjack.rs:119-121 | two actions; GetActions lists exactly the actions below it |
| BlackjackEnv.Blackjack.GetNumberOfPossibleStates | src/environments/blackjack.rs:123-125 | 180 states; DecodeStateRoundTrip states that every code below it is the code of one in-range triple |
| BlackjackEnv.Blackjack.GetTotalNumberOfActionsTaken | src/environments/blackjack.rs:127-129 | step_count, which Step and Reset leave unchanged |
| BlackjackDraft.Reward | src/blackjack.rs:62-77 | the reward is -1, 0 or 1; while it is the player's turn it is -1 exactly for a bust player and never +1; otherwise a bust dealer gives +1, else the comparison of sums |
| BlackjackDraft.Transition | src/blackjack.rs:48-78 | the table after a step of this draft, or the panic; PlayerTurnSteps, HitReward and DealerTurnCompares state what it does |
| BlackjackDraft.Emptied | src/blackjack.rs:42-46 | the table reset leaves; EmptiedIsFresh states it |
| BlackjackDraft.EmptiedIsFresh | src/blackjack.rs:42-46 | reset leaves empty hands, sums 0, no usable ace and the player's turn; no card is dealt |
| BlackjackDraft.PlayerTurnSteps | src/blackjack.rs:49-56 | on the player's turn: a hit adds one counted card and changes only the player; a stick only ends the turn; any other action panics |
| BlackjackDraft.HitReward | src/blackjack.rs:62-65 | while the player keeps the turn, the reward is -1 exactly when the player is bust and 0 otherwise |
| BlackjackDraft.DealerTurnCompares | src/blackjack.rs:57-61 | on the dealer's turn the action is ignored and the dealer draws to 17 or more before the comparison |
| BlackjackDraft.BustPlayerWhoSticksWins | src/blackjack.rs:66-76 | the comparison does not check the player for a bust: a bust player who sticks against a lower, unbust dealer gets +1 |
| BlackjackDraft.StickAfterResetWins | src/blackjack.rs:42-76 | after reset, a hit on a 10 and a stick win +1 before the dealer has drawn any card |
| BlackjackDraft.Blackjack.constructor | src/blackjack.rs:34-40 | a new game has empty hands and the player's turn |
| BlackjackDraft.Blackjack.RandomCard | src/blackjack.rs:135-143 | the next card of the deck; the cursor advances by one |
| BlackjackDraft.Blackjack.Reset | src/blackjack.rs:42-46 | the game becomes the emptied table with fresh hands |
| BlackjackDraft.Blackjack.DealerPlays | src/blackjack.rs:58-60 | the dealer loop ends with the hand and cursor of the dealer's strategy |
| BlackjackDraft.Blackjack.Advance | src/blackjack.rs:49-61 | the table change of step: a hit, a stick or the dealer's play leaves the table of this draft's transition function; an invalid action changes nothing and is reported |
| BlackjackDraft.Blackjack.Step | src/blackjack.rs:48-78 | step returns the reward and leaves the table of this draft's transition function, or panics |
| Arms.TotalPullsReplace | src/environments/bandit.rs:103-106 | replacing one arm changes the total pulls by that arm's difference |
| Arms.PullAddsOne | src/environments/bandit.rs:103-106 | pulling one arm adds exactly one to the total pulls |
| Arms.EstimateKeepsTotal | src/environments/bandit.rs:149-151 | writing an estimate leaves the total pulls unchanged |
| Arms.UnpulledTotalIsZero | src/environments/bandit.rs:183-190 | arms with no pulls total zero pulls |
| Arms.Bandit.constructor | src/environments/bandit.rs:21-35 | a new arm has the drawn value, variance 1, no pulls, no reward and a zero estimate |
| Arms.Bandit.Pull | src/environments/bandit.rs:37-47 | a pull adds one pull and the returned reward to the arm's total, and returns the sample |
| Arms.Bandit.UpdateActionValueEstimate | src/environments/bandit.rs:57-59 | only the estimate changes, to the new value |
| Arms.Bandit.GetNumberOfPulls | src/environments/bandit.rs:49-51 | the arm's pull count |
| Arms.Bandit.GetTotalReward | src/environments/bandit.rs:53-55 | the arm's total reward |
| Arms.Bandit.GetActionValueEstimate | src/environments/bandit.rs:61-63 | the arm's estimate |
| BanditEnv.KArmedBandit.constructor | src/environments/bandit.rs:80-90 | exactly k fresh arms named 0..k-1 with the drawn values, no pulls, and a zero global count; the invariant holds |
| BanditEnv.KArmedBandit.PullByIndex | src/environments/bandit.rs:103-106 | the global count grows by one, only arm i changes (one pull more), and global pulls stay the sum of the arms' pulls |
| BanditEnv.KArmedBandit.UpdateQEstimateByIndex | src/environments/bandit.rs:149-151 | only arm i's estimate changes; reading it back gives the new value |
| BanditEnv.KArmedBandit.GetNumberOfPullsByIndex | src/environments/bandit.rs:118-120 | the pull count of arm i |
| BanditEnv.KArmedBandit.GetTotalRewardByIndex | src/environments/bandit.rs:133-135 | the total reward of arm i |
| BanditEnv.KArmedBandit.GetQEstimateByIndex | src/environments/bandit.rs:163-165 | the estimate of arm i |
| BanditEnv.KArmedBandit.GetTotalNumberOfPulls | src/environments/bandit.rs:167-169 | the global count, which is the sum of the arms' pulls |
| BanditEnv.KArmedBandit.NumBandits | src/environments/bandit.rs:177-179 | k, the number of arms |
| BanditEnv.KArmedBandit.Reset | src/environments/bandit.rs:183-190 | the global count is 0 and every arm is cleared (pulls, reward, estimate) with its value and variance kept; the invariant holds |
| BanditEnv.KArmedBandit.Step | src/environments/bandit.rs:192-194 | a step is one pull of arm `action` |
| BanditEnv.KArmedBandit.GetState | src/environments/bandit.rs:197-199 | the one state 0, below get_number_of_possible_states |
| BanditEnv.KArmedBandit.IsTerminal | src/environments/bandit.rs:209-211 | never terminal |
| BanditEnv.KArmedBandit.GetActions | src/environments/bandit.rs:201-207 | the actions are 0..k-1 in order |
| BanditEnv.KArmedBandit.UpdateQEstimate | src/environments/bandit.rs:213-215 | the state is ignored; only the arm's estimate changes |
| BanditEnv.KArmedBandit.UpdateValueEstimate | src/environments/bandit.rs:217-220 | always panics |
| BanditEnv.KArmedBandit.GetValueEstimate | src/environments/bandit.rs:226-229 | always panics |
| BanditEnv.KArmedBandit.GetQEstimate | src/environments/bandit.rs:222-224 | the state is ignored; the estimate of arm `action` |
| BanditEnv.KArmedBandit.GetNumberOfPossibleActions | src/environments/bandit.rs:231-233 | k; GetActions lists exactly 0..k-1 |
| BanditEnv.KArmedBandit.GetNumberOfPossibleStates | src/environments/bandit.rs:235-237 | one state; GetState is below it |
| BanditEnv.KArmedBandit.GetActionCountByState | src/environments/bandit.rs:239-241 | the state is ignored; the pull count of arm `action` |
| BanditEnv.KArmedBandit.GetTotalNumberOfActionsTaken | src/environments/bandit.rs:243-245 | the global count, which is the sum of the arms' pulls |
| BanditEnv.KArmedBandit.GetQEstimates | src/environments/bandit.rs:246-252 | the k estimates in arm order |
| BanditEnv.KArmedBandit.ActionCountsByState | src/environments/bandit.rs:253-259 | the k pull counts in arm order |
| BanditDraft.KArmedBandit.constructor | src/bandit.rs:78-88 | exactly k fresh arms with no pulls, no reward, zero estimates, and a zero global count |
| BanditDraft.KArmedBandit.PullByIndex | src/bandit.rs:101-104 | the global count grows by one and only arm i changes; global pulls stay the sum of the arms' pulls |
| BanditDraft.KArmedBandit.UpdateActionValueEstimateByIndex | src/bandit.rs:147-149 | only arm i's estimate changes; reading it back gives the new value |
| BanditDraft.KArmedBandit.GetNumberOfPullsByIndex | src/bandit.rs:116-118 | the pull count of arm i |
| BanditDraft.KArmedBandit.GetTotalRewardByIndex | src/bandit.rs:131-133 | the total reward of arm i |
| BanditDraft.KArmedBandit.GetActionValueEstimateByIndex | src/bandit.rs:161-163 | the estimate of arm i |
| BanditDraft.KArmedBandit.GetTotalNumberOfPulls | src/bandit.rs:165-167 | the global count, which is the sum of the arms' pulls |
| BanditDraft.KArmedBandit.NumBandits | src/bandit.rs:175-177 | k, the number of arms |
| Selection.RunningMax | src/selectors/epsilon_greedy.rs:27-36 | the scan's max is at least 0 and bounds every score; with a score of at least 0 its index holds the max and every later score is smaller; with all scores negative it is (0.0, 0) |
| Selection.ArgMaxFromZero | src/selectors/epsilon_greedy.rs:27-36 | the greedy choice is in range, is a maximum, beats every later index (ties go to the highest index), and is 0 when all scores are negative |
| Selection.RunningMaxStep | src/selectors/epsilon_greedy.rs:29-35 | one loop iteration extends the scan by one score |
| Selection.IncrementalMean | src/selectors/epsilon_greedy.rs:47-50 | Q + (R - Q)/n with n >= 1 equals R for n = 1 and lies between Q and R |
| Selection.RunningMeanIsAverage | src/selectors/epsilon_greedy.rs:49-50 | updates with counts 1..n from 0.0 give the average of the n rewards |
| Selection.ScaledRunningMean | src/selectors/epsilon_greedy.rs:49-50 | n times the running estimate is the sum of the n rewards |
| Selection.ConstantRewardsMean | src/selectors/epsilon_greedy.rs:49-50 | updates with one and the same reward leave the estimate at that reward |
| EpsilonGreedyEnv.EpsilonGreedySelector.SelectAction | src/selectors/epsilon_greedy.rs:18-38 | below ε the drawn index, or Err(EmptyRange) when there are no actions to draw from; otherwise the greedy choice on the estimates; in range whenever there are actions; nothing changes |
| EpsilonGreedyEnv.EpsilonGreedySelector.UpdateQEstimate | src/selectors/epsilon_greedy.rs:40-52 | only the arm's estimate changes, to the incremental mean with the arm's pull count |
| EpsilonGreedyEnv.EpsilonGreedySelector.UpdateValueEstimate | src/selectors/epsilon_greedy.rs:54-62 | always panics |
| EpsilonGreedyDraft.EpsilonGreedySelector.SelectAction | src/epsilon_greedy.rs:18-36 | below ε the drawn index, or Err(EmptyRange) when k = 0; otherwise the greedy choice on the arms' estimates; in range when k > 0; no count or estimate changes |
| EpsilonGreedyDraft.EpsilonGreedySelector.UpdateActionValueEstimate | src/epsilon_greedy.rs:38-51 | only arm `action`'s estimate changes, to the incremental mean with its pull count |
| UcbEnv.UcbScores | src/ucb.rs:23-30 | one score per arm, in arm order: the arm's estimate plus the exploration bonus of its count |
| UcbEnv.ScoreDependsOnTheArmOnly | src/ucb.rs:23-30 | two arms with the same estimate and count get the same score |
| UcbEnv.UcbSelector.SelectAction | src/ucb.rs:16-37 | the greedy choice on the UCB scores, in range when k > 0; nothing changes |
| UcbEnv.UcbSelector.UpdateQEstimate | src/ucb.rs:39-52 | only the arm's estimate changes, to the incremental mean with the arm's count |
| UcbEnv.UcbSelector.UpdateValueEstimate | src/ucb.rs:54-62 | always panics |
| UcbStore.StoreScores | src/selectors/ucb.rs:27-38 | one score per action, in order: the stored q estimate of (state, action) plus the bonus of its stored count |
| UcbStore.ScoreReadsItsOwnKeys | src/selectors/ucb.rs:28-38 | a score depends on the stores only through the two entries at its own (state, action) key |
| UcbStore.OtherStateKeepsScores | src/selectors/ucb.rs:28-32 | writing another state's q entry changes no score of this state |
| UcbStore.UcbSelector.Select | src/selectors/ucb.rs:22-44 | the choice is in range whenever there are actions |
| UcbStore.UcbSelector.SelectAction | src/selectors/ucb.rs:16-45 | the loop computes the greedy choice on the store scores; nothing changes |
| UcbStore.UcbSelector.GetNewQEstimate | src/selectors/ucb.rs:47-64 | the new estimate equals the reward on a pair's first count and lies between the stored estimate and the reward; nothing is written |
| UcbStore.UcbSelector.GetNewValueEstimate | src/selectors/ucb.rs:66-75 | always panics |
| UcbStore.UcbSelector.AsStoreSelector | src/selectors/ucb.rs:15-76 | as the agents' selector, its q update is defined on every counted pair |
| Mcts.ReturnStep | src/agents/mcts.rs:117-121 | the return from t is the reward at t plus the return from t + 1 |
| Mcts.ReturnBounds | src/agents/mcts.rs:118-128 | the return from the start is the episode's total reward, and the return past the end is 0 |
| Mcts.CountOneMore | src/agents/mcts.rs:50-53 | one more count keeps all counts non-negative and every recorded pair counted at least once |
| Mcts.ForwardStep | src/agents/mcts.rs:107-110 | a step records the state before the action, counts exactly that pair once more, and either ends the game or brings it closer to its end |
| Mcts.ForwardPass | src/agents/mcts.rs:104-115 | the forward pass records at least one entry and stops at the first terminal table |
| Mcts.ForwardPassKeepsRecorded | src/agents/mcts.rs:110 | entries are only appended: what was recorded stays in front |
| Mcts.ForwardPassCounts | src/agents/mcts.rs:104-115 | after the forward pass counts are still non-negative and every recorded pair is counted at least once |
| Mcts.BackwardPass | src/agents/mcts.rs:116-124 | the backward pass as meant, each entry updated with its undiscounted return; BackwardWritesOnlyVisitedKeys, BackwardSucceeds and BackwardPanicsAtOnce state what it does |
| Mcts.BackwardFrom | src/agents/mcts.rs:116-124 | the reverse loop as written, with its running total; BackwardFromIsBackwardPass states it is the backward pass |
| Mcts.BackwardFromIsBackwardPass | src/agents/mcts.rs:118-124 | the loop's running total feeds entry t exactly the undiscounted return from t, and ends with the return from the start |
| Mcts.BackwardWritesOnlyVisitedKeys | src/agents/mcts.rs:119-124 | the backward pass writes q entries only under keys of recorded pairs |
| Mcts.BackwardSucceeds | src/agents/mcts.rs:119-124 | when the value update never panics, neither does the backward pass |
| Mcts.BackwardPanicsAtOnce | src/agents/mcts.rs:119-124 | when the value update always panics, the backward pass panics on its first entry |
| Mcts.AgentMcts.constructor | src/agents/mcts.rs:21-38 | a new agent has taken no actions and holds four distinct stores |
| Mcts.AgentMcts.SelectAction | src/agents/mcts.rs:40-42 | the selector's choice for the current table and the q and count stores |
| Mcts.AgentMcts.GetNumberOfPossibleStates | src/agents/mcts.rs:44-46 | the environment's number of states |
| Mcts.AgentMcts.TakeAction | src/agents/mcts.rs:48-60 | counts the pair and the state, keyed by the state before the step, then returns the step's reward or panic |
| Mcts.AgentMcts.UpdateQEstimate | src/agents/mcts.rs:62-73 | writes exactly the selector's value under the pair's key, nothing else |
| Mcts.AgentMcts.UpdateStateValueEstimate | src/agents/mcts.rs:75-85 | writes the selector's value under the state key, or panics and writes nothing |
| Mcts.AgentMcts.GetStateValueEstimate | src/agents/mcts.rs:87-90 | the stored value of the state key, or 0.0 when it was never written |
| Mcts.AgentMcts.GetStateVisitCount | src/agents/mcts.rs:92-95 | the stored visit count of the state key, or 0.0 when it was never written |
| Mcts.AgentMcts.Act | src/agents/mcts.rs:107-110 | one round of the forward loop is one step of the forward pass |
| Mcts.AgentMcts.PlayForward | src/agents/mcts.rs:104-115 | the loop ends as the forward pass says, with the total actions grown by the number of entries |
| Mcts.AgentMcts.PlayBackward | src/agents/mcts.rs:116-124 | the reverse loop performs the backward pass and returns the sum of all rewards |
| Mcts.AgentMcts.Learn | src/agents/mcts.rs:116-128 | the backward pass, then one reset after all the updates |
| Mcts.AgentMcts.RunEpisode | src/agents/mcts.rs:103-129 | an episode is the forward pass, then the backward pass with undiscounted returns, then a reset; it returns the sum of the episode's rewards and grows the action total by the episode length |
| MctsUcb.UcbEpisodePanics | src/agents/mcts.rs:119-124 | with the store-based UCB selector every episode panics at its first backward update |
| QAgent.AgentQ.constructor | src/agents/q.rs:15-30 | a new agent has taken no actions |
| QAgent.AgentQ.SelectAction | src/agents/q.rs:32-34 | the selector's choice from the q and count stores, which are only read |
| QAgent.AgentQ.TakeAction | src/agents/q.rs:36-44 | adds exactly 1 to the count of (current state, action), changes no other count, then steps |
| QAgent.AgentQ.UpdateQEstimate | src/agents/q.rs:46-57 | the pair's q estimate then reads the selector's value; no other pair's estimate changes |
| QAgent.AgentQ.UpdateStateValueEstimate | src/agents/q.rs:59-69 | the state's value then reads the selector's value, computed from the action counts, or the selector panics |
| QAgent.AgentQ.GetQEstimate | src/agents/q.rs:71-74 | the stored q estimate of the (state, action) key, or 0.0 when it was never written |
| QAgent.AgentQ.GetValueEstimate | src/agents/q.rs:76-79 | the stored value of the state key, or 0.0 when it was never written |
| QAgent.AgentQ.GetTotalActionsTaken | src/agents/q.rs:81-83 | always 0 |
| QAgent.AgentQ.UpdateEstimate | src/agents/q.rs:101-103 | the q update, whatever is_terminal says |
| EnvAgent.Agent.constructor | src/agent.rs:9-14 | the agent holds the given environment and selector |
| EnvAgent.Agent.SelectAction | src/agent.rs:16-18 | the selector's choice: ε-greedy's explore-or-greedy (Err(EmptyRange) when exploring with no arms), or UCB's greedy choice on the scores; in range |
| EnvAgent.Agent.TakeAction | src/agent.rs:20-22 | exactly one environment step: one pull of the arm |
| EnvAgent.Agent.UpdateQEstimate | src/agent.rs:24-26 | the selector's update with the same arguments: only that arm's estimate moves to the incremental mean |
| EnvAgent.Agent.UpdateStateValueEstimate | src/agent.rs:28-30 | panics with either selector |
| EnvAgent.Agent.GetQEstimates | src/agent.rs:32-34 | the environment's estimates, one per arm, in order |
| EnvAgent.Agent.GetActionCountsByState | src/agent.rs:35-37 | the environment's counts, one per arm, in order |
| BanditActor.PullThenLearn | src/actor.rs:22-28 | taking an arm and learning a reward changes only that arm; on its first pull its estimate becomes the reward |
| BanditActor.KBanditActor.constructor | src/actor.rs:9-14 | the actor holds the given bandit and selector |
| BanditActor.KBanditActor.SelectAction | src/actor.rs:18-20 | the selector's choice: below ε the drawn index, or Err(EmptyRange) when k = 0, otherwise the greedy choice; no count or estimate changes |
| BanditActor.KBanditActor.TakeAction | src/actor.rs:22-24 | pulls exactly arm `action` and returns its reward |
| BanditActor.KBanditActor.UpdateActionValueEstimate | src/actor.rs:26-28 | the selector's update on the same bandit, arm and reward |
| BanditActor.KBanditActor.Round | src/actor.rs:22-28 | a take followed by an update leaves the bandit as PullThenLearn says |

## Left out

- **Randomness.** Four random sources are inputs rather than draws:
  - `Normal::sample` for an arm's value and reward;
  - `random_card`'s uniform value: the Blackjack deck `nat -> Card` with its cursor;
  - the ε-greedy selector's uniform number and uniform index;
  - the distributions themselves.
- **The UCB bonus.** Its `ln`/`sqrt` is an uninterpreted function. The IEEE behaviour of a zero count (infinity or NaN in the comparison) is not modelled.
- **Floating-point rounding.** Every `f64` is a `real`.
- Selection.IncrementalMean, EpsilonGreedyEnv.EpsilonGreedySelector.UpdateQEstimate, EpsilonGreedyDraft.EpsilonGreedySelector.UpdateActionValueEstimate, UcbEnv.UcbSelector.UpdateQEstimate, UcbStore.UcbSelector.GetNewQEstimate: require a count of at least 1, because the source divides by the count and a zero count gives an IEEE infinity or NaN that is not modelled.
- BanditEnv.KArmedBandit.PullByIndex, BanditEnv.KArmedBandit.UpdateQEstimateByIndex, BanditEnv.KArmedBandit.Step, BanditEnv.KArmedBandit.UpdateQEstimate, BanditDraft.KArmedBandit.PullByIndex, BanditDraft.KArmedBandit.UpdateActionValueEstimateByIndex: require an index below k, because the source indexes its vector of arms and panics on an out-of-range index; that panic is not modelled as an `Err`. The getters by index and the selectors' updates that call them carry the same precondition.
- Mcts.AgentMcts.constructor: requires that the action counts it starts from are non-negative, so that every recorded pair has a positive count when its q estimate is updated.
- **Console output.** The `println!` calls are left out: in the Blackjack environment, and in `run_episode`'s backward loop. So is the `Debug` formatting of `Bandit`.
- **`AgentMcts::all_possible_states`.** It calls an environment method that the Blackjack environment does not have.
- **The plotting binaries** under `src/bin`.
- **The interface-only files** `src/environment.rs`, `src/agents/selector.rs`, `src/agents/agent.rs`. With no traits, each agent is modelled over the one environment its selectors are written for, and its selector is a record of functions or a datatype of the two selectors.
- **Cross-draft signatures that do not agree.** One key function `GenerateId(state, action)` and one state-only key `StateId(state)` (the decimal text) are used throughout. This covers the agents' `generate_id(state, Some(action))`, `generate_id(state, None)` and `format!("{}", state)`. The environment argument of the store selector's `get_new_q_estimate`/`get_new_value_estimate` is unused and dropped.
- **Blackjack `step_count`.** Neither `step` nor `reset` changes it, so `get_total_number_of_actions_taken` stays at 0; the model keeps it unchanged.
- **Blackjack environment `reset` card order.** It draws the four cards from the deck before building the hands. The cards reach player, dealer, player, dealer in the source's order, so the resulting hands are the same.
- **The state code.** It uses the dealer's whole sum, which is 11 or more on many dealt tables. The model follows the code and shows where codes collide or leave the reported range.
- **Unused data.** The `suit` of a card and the bandit's `bandit_type` and `name` carry no logic beyond being stored.
