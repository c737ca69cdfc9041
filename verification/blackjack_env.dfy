/**
  The Blackjack environment (src/environments/blackjack.rs). The random card source is
  injected: `deck` lists the cards `random_card` produces in order and `drawn` counts
  how many it has produced. A `Table` is the state of a game as a value; the class's
  methods are tied to the transition functions on tables, and the lemmas state what
  those functions guarantee.
 */
module BlackjackEnv {
  import opened Hands
  import opened Outcomes

  datatype Table = Table(
    playerHand: seq<int>, playerSum: int, usableAce: bool,
    dealerHand: seq<int>, dealerSum: int,
    isPlayerTurn: bool, stepCount: nat, drawn: nat)

  /** The running sums agree with the hands, and the usable-ace flag says whether an ace is counted as 11. */
  ghost predicate WellFormed(t: Table) {
    && t.playerSum == HandSum(t.playerHand)
    && (t.usableAce <==> 11 in t.playerHand)
    && t.dealerSum == HandSum(t.dealerHand)
  }

  /** Blackjack::is_terminal */
  predicate Terminal(t: Table) {
    Bust(t.playerSum) || Bust(t.dealerSum) || (!t.isPlayerTurn && t.dealerSum >= 17)
  }

  /** The reward `step` returns from the table it leaves: nonzero only at a terminal table. */
  function Reward(t: Table): (r: real)
    ensures r == -1.0 || r == 0.0 || r == 1.0
    ensures r != 0.0 ==> Terminal(t)
    ensures Terminal(t) && Bust(t.playerSum) ==> r == -1.0
    ensures Terminal(t) && !Bust(t.playerSum) && Bust(t.dealerSum) ==> r == 1.0
    ensures Terminal(t) && !Bust(t.playerSum) && !Bust(t.dealerSum) ==>
              (r == 1.0 <==> t.playerSum > t.dealerSum) && (r == -1.0 <==> t.playerSum < t.dealerSum)
  {
    if !Terminal(t) then 0.0
    else if Bust(t.playerSum) then -1.0
    else if Bust(t.dealerSum) then 1.0
    else if t.playerSum > t.dealerSum then 1.0
    else if t.playerSum < t.dealerSum then -1.0
    else 0.0
  }

  /** The player draws the next card of the deck (action 0, hit). */
  function PlayerHit(t: Table, deck: nat -> Card): Table {
    var card := deck(t.drawn);
    var value := CountedValue(card, t.playerSum);
    t.(playerHand := AddCard(t.playerHand, card), playerSum := t.playerSum + value,
       usableAce := t.usableAce || value == 11, drawn := t.drawn + 1)
  }

  /** The dealer's turn: draw while the dealer's sum is below 17. */
  function DealerTurn(t: Table, deck: nat -> Card): Table {
    var (hand, next) := DealerDraws(t.dealerHand, deck, t.drawn);
    t.(dealerHand := hand, dealerSum := HandSum(hand), drawn := next)
  }

  /** Blackjack::step as a function of the table: the reward and the next table, or the panic. */
  function Transition(t: Table, deck: nat -> Card, action: nat): Result<(real, Table)> {
    if t.isPlayerTurn then
      if action == 0 then var next := PlayerHit(t, deck); Ok((Reward(next), next))
      else if action == 1 then var next := t.(isPlayerTurn := false); Ok((Reward(next), next))
      else Err(InvalidAction)
    else
      var next := DealerTurn(t, deck); Ok((Reward(next), next))
  }

  /** A table at the start of a game: the given hands, sums and flag to match, the player's turn. */
  function Opening(player: seq<int>, dealer: seq<int>, stepCount: nat, drawn: nat): Table {
    Table(player, HandSum(player), 11 in player, dealer, HandSum(dealer), true, stepCount, drawn)
  }

  /** Blackjack::reset: fresh hands, two cards each, dealt player, dealer, player, dealer. */
  function Dealt(t: Table, deck: nat -> Card): Table {
    var n := t.drawn;
    Opening(AddCard(AddCard([], deck(n)), deck(n + 2)), AddCard(AddCard([], deck(n + 1)), deck(n + 3)),
            t.stepCount, n + 4)
  }

  /** Appending a counted card keeps "an 11 in the hand" in step with the flag update. */
  lemma ElevenAfterDraw(hand: seq<int>, card: Card)
    ensures 11 in AddCard(hand, card) <==> 11 in hand || CountedValue(card, HandSum(hand)) == 11
  {
    var h := AddCard(hand, card);
    assert h == hand + [CountedValue(card, HandSum(hand))];
  }

  /** Every outcome of `step` keeps the sums and the flag consistent with the hands. */
  lemma {:induction false} TransitionWellFormed(t: Table, deck: nat -> Card, action: nat)
    requires WellFormed(t)
    ensures Transition(t, deck, action).Ok? ==> WellFormed(Transition(t, deck, action).value.1)
  {
    if t.isPlayerTurn && action == 0 {
      ElevenAfterDraw(t.playerHand, deck(t.drawn));
    }
  }

  /** On the player's turn, hitting changes only the player's hand, sum and flag (and deals one card). */
  lemma HitChangesOnlyThePlayer(t: Table, deck: nat -> Card)
    requires WellFormed(t) && t.isPlayerTurn
    ensures Transition(t, deck, 0).Ok?
    ensures var next := Transition(t, deck, 0).value.1;
      && next.playerHand == AddCard(t.playerHand, deck(t.drawn))
      && next.playerSum == t.playerSum + CountedValue(deck(t.drawn), t.playerSum)
      && next.playerSum > t.playerSum
      && (next.usableAce <==> t.usableAce || (deck(t.drawn) == 1 && t.playerSum <= 10))
      && next.(playerHand := t.playerHand, playerSum := t.playerSum, usableAce := t.usableAce, drawn := t.drawn) == t
      && next.drawn == t.drawn + 1
  {
  }

  /** On the player's turn, sticking only ends the player's turn; any action but 0 and 1 panics. */
  lemma StickOnlyEndsTheTurn(t: Table, deck: nat -> Card, action: nat)
    requires t.isPlayerTurn
    ensures Transition(t, deck, 1).Ok? && Transition(t, deck, 1).value.1 == t.(isPlayerTurn := false)
    ensures action > 1 ==> Transition(t, deck, action) == Err(InvalidAction)
  {
  }

  /**
    On the dealer's turn the action is ignored, the dealer ends on 17 to 26 and the game
    is over; only the dealer's hand and sum change.
   */
  lemma {:induction false} DealerTurnEndsTheGame(t: Table, deck: nat -> Card, action: nat)
    requires WellFormed(t) && !t.isPlayerTurn && t.dealerSum <= 26
    ensures Transition(t, deck, action) == Transition(t, deck, 0)
    ensures Transition(t, deck, action).Ok?
    ensures var next := Transition(t, deck, action).value.1;
      && 17 <= next.dealerSum <= 26
      && Terminal(next)
      && next.(dealerHand := t.dealerHand, dealerSum := t.dealerSum, drawn := t.drawn) == t
  {
    var (hand, n) := DealerDraws(t.dealerHand, deck, t.drawn);
    assert HandSum(hand) <= 26;
  }

  /** `step` returns a nonzero reward only when the game is over, and the reward is -1, 0 or 1. */
  lemma RewardOnlyAtTheEnd(t: Table, deck: nat -> Card, action: nat)
    ensures Transition(t, deck, action).Ok? ==>
      var (r, next) := Transition(t, deck, action).value;
      (r == -1.0 || r == 0.0 || r == 1.0) && (r != 0.0 ==> Terminal(next))
  {
  }

  /**
    How far a game is from its end: the player can only hit while under 22, and once the
    player sticks the dealer's next step ends the game.
   */
  function Progress(t: Table): nat {
    if !t.isPlayerTurn then 0 else if t.playerSum > 21 then 1 else 23 - t.playerSum
  }

  /** Every step that does not end the game brings it closer to its end, so an episode is finite. */
  lemma {:induction false} StepMakesProgress(t: Table, deck: nat -> Card, action: nat)
    requires WellFormed(t)
    requires Transition(t, deck, action).Ok?
    requires !Terminal(Transition(t, deck, action).value.1)
    ensures Progress(Transition(t, deck, action).value.1) < Progress(t)
  {
    if t.isPlayerTurn && action == 0 {
      HitChangesOnlyThePlayer(t, deck);
    }
  }

  /** After `reset` each side holds two cards, it is the player's turn, and the game is not over. */
  lemma {:induction false} DealtGameIsOpen(t: Table, deck: nat -> Card)
    ensures var next := Dealt(t, deck);
      && WellFormed(next)
      && |next.playerHand| == 2 && |next.dealerHand| == 2
      && next.isPlayerTurn && next.stepCount == t.stepCount
      && next.playerSum <= 21 && next.dealerSum <= 21
      && !Terminal(next)
  {
    var n := t.drawn;
    TwoCardsNeverBust(deck(n), deck(n + 2));
    TwoCardsNeverBust(deck(n + 1), deck(n + 3));
  }

  /** The number of states reported by `get_number_of_possible_states`: 10 player sums, 9 dealer values, 2 flags. */
  const NumberOfStates: nat := 9 * 10 * 2

  /** An i32 converted with `as usize`: negative values wrap around modulo 2^64. */
  function ToUsize(x: int): nat {
    x % 0x1_0000_0000_0000_0000
  }

  /** Blackjack::get_state on the two sums and the flag. */
  function StateCode(playerSum: int, dealerSum: int, usableAce: bool): nat {
    ToUsize((playerSum - 12) * 9 * 2 + (dealerSum - 2) * 2 + (if usableAce then 1 else 0))
  }

  /** The triple a code below NumberOfStates stands for. */
  function DecodeState(code: nat): (int, int, bool) {
    (12 + code / 18, 2 + (code % 18) / 2, code % 2 == 1)
  }

  /** Arithmetic helper for DecodeStateRoundTrip: division by 18 with a known quotient and remainder. */
  lemma DivModEighteen(code: int, q: int, r: int)
    requires 0 <= r < 18 && code == q * 18 + r
    ensures code / 18 == q && code % 18 == r
  {
  }

  /** Arithmetic helper for DecodeStateRoundTrip: division by 2 with a known quotient and remainder. */
  lemma DivModTwo(code: int, q: int, r: int)
    requires 0 <= r < 2 && code == q * 2 + r
    ensures code / 2 == q && code % 2 == r
  {
  }

  /** The state code of a table. */
  function StateOf(t: Table): nat {
    StateCode(t.playerSum, t.dealerSum, t.usableAce)
  }

  /** For player sums 12..21 and dealer values 2..10 the code is below NumberOfStates and decodes back. */
  lemma {:induction false} StateCodeRoundTrip(playerSum: int, dealerSum: int, usableAce: bool)
    requires 12 <= playerSum <= 21 && 2 <= dealerSum <= 10
    ensures StateCode(playerSum, dealerSum, usableAce) < NumberOfStates
    ensures DecodeState(StateCode(playerSum, dealerSum, usableAce)) == (playerSum, dealerSum, usableAce)
  {
    var a := if usableAce then 1 else 0;
    var low := (dealerSum - 2) * 2 + a;
    var code := (playerSum - 12) * 18 + low;
    assert StateCode(playerSum, dealerSum, usableAce) == code;
    DivModEighteen(code, playerSum - 12, low);
    DivModTwo(low, dealerSum - 2, a);
    DivModTwo(code, (playerSum - 12) * 9 + dealerSum - 2, a);
  }

  /** Every code below NumberOfStates is the code of one triple in range. */
  lemma {:induction false} DecodeStateRoundTrip(code: nat)
    requires code < NumberOfStates
    ensures var (p, d, ace) := DecodeState(code);
      12 <= p <= 21 && 2 <= d <= 10 && StateCode(p, d, ace) == code
  {
    var (p, d, ace) := DecodeState(code);
    var r := code % 18;
    DivModTwo(r, r / 2, r % 2);
    DivModEighteen(code, code / 18, r);
    DivModTwo(code, (code / 18) * 9 + r / 2, r % 2);
  }

  /** On those ranges distinct triples have distinct codes. */
  lemma StateCodeInjective(p1: int, d1: int, a1: bool, p2: int, d2: int, a2: bool)
    requires 12 <= p1 <= 21 && 2 <= d1 <= 10 && 12 <= p2 <= 21 && 2 <= d2 <= 10
    ensures StateCode(p1, d1, a1) == StateCode(p2, d2, a2) <==> (p1, d1, a1) == (p2, d2, a2)
  {
    StateCodeRoundTrip(p1, d1, a1);
    StateCodeRoundTrip(p2, d2, a2);
  }

  /**
    The encoding takes the dealer's whole sum, which reaches 11 and more after the two
    cards of `reset`; beyond 10 codes collide and leave the reported range.
   */
  lemma StateCodeBeyondTheRange()
    ensures StateCode(12, 11, false) == StateCode(13, 2, false)
    ensures StateCode(21, 21, true) == 201 > NumberOfStates
    ensures StateCode(4, 4, false) == 0x1_0000_0000_0000_0000 - 140
  {
  }

  /** Blackjack: the dealer, the player, whose turn it is and the step counter. */
  class Blackjack {
    var dealer: Dealer
    var player: Player
    var isPlayerTurn: bool
    var stepCount: nat
    const deck: nat -> Card
    var drawn: nat

    ghost predicate Valid()
      reads this, player, dealer
    {
      player.Valid() && dealer.Valid()
    }

    function Snapshot(): Table
      reads this, player, dealer
    {
      Table(player.hand, player.sum, player.usableAce, dealer.hand, dealer.sum, isPlayerTurn, stepCount, drawn)
    }

    /** Blackjack::new: empty hands, the player's turn, no steps. */
    constructor (deck: nat -> Card)
      ensures Valid() && this.deck == deck
      ensures Snapshot() == Table([], 0, false, [], 0, true, 0, 0)
    {
      this.deck := deck;
      dealer := new Dealer();
      player := new Player();
      isPlayerTurn := true;
      stepCount := 0;
      drawn := 0;
    }

    /** random_card: the next card of the deck. */
    method RandomCard() returns (card: Card)
      modifies this`drawn
      ensures card == deck(old(drawn)) && drawn == old(drawn) + 1
    {
      card := deck(drawn);
      drawn := drawn + 1;
    }

    /** The four cards of `reset`, dealt player, dealer, player, dealer into fresh hands. */
    method DealOpeningHands() returns (p: Player, d: Dealer)
      modifies this`drawn
      ensures fresh(p) && fresh(d) && p.Valid() && d.Valid()
      ensures p.hand == AddCard(AddCard([], deck(old(drawn))), deck(old(drawn) + 2))
      ensures d.hand == AddCard(AddCard([], deck(old(drawn) + 1)), deck(old(drawn) + 3))
      ensures drawn == old(drawn) + 4
    {
      var first := RandomCard();
      var second := RandomCard();
      var third := RandomCard();
      var fourth := RandomCard();
      p := new Player();
      p.DrawCard(first);
      p.DrawCard(third);
      d := new Dealer();
      d.DrawCard(second);
      d.DrawCard(fourth);
    }

    /** Blackjack::reset */
    method Reset()
      requires Valid()
      modifies this
      ensures Valid() && fresh(player) && fresh(dealer)
      ensures Snapshot() == Dealt(old(Snapshot()), deck)
    {
      player, dealer := DealOpeningHands();
      isPlayerTurn := true;
      assert Snapshot() == Opening(player.hand, dealer.hand, stepCount, drawn);
    }

    /** The dealer's turn of `step`: draw while the dealer's sum is below 17. */
    method DealerPlays()
      requires dealer.Valid()
      modifies this`drawn, dealer
      ensures dealer.Valid() && (dealer.hand, drawn) == DealerDraws(old(dealer.hand), deck, old(drawn))
    {
      while dealer.GetSum() < 17
        invariant dealer.Valid()
        invariant DealerDraws(dealer.hand, deck, drawn) == DealerDraws(old(dealer.hand), deck, old(drawn))
        decreases 17 - dealer.sum
      {
        ghost var hand, next := dealer.hand, drawn;
        DealerDrawsOnce(hand, deck, next);
        var card := RandomCard();
        dealer.DrawCard(card);
        assert dealer.hand == AddCard(hand, deck(next)) && drawn == next + 1;
      }
      assert DealerDraws(dealer.hand, deck, drawn) == (dealer.hand, drawn);
    }

    /** Blackjack::step */
    method Step(action: nat) returns (r: Result<real>)
      requires Valid()
      modifies this, player, dealer
      ensures Valid() && player == old(player) && dealer == old(dealer)
      ensures match Transition(old(Snapshot()), deck, action)
        case Ok(outcome) => r == Ok(outcome.0) && Snapshot() == outcome.1
        case Err(e) => r == Err(e)
    {
      if isPlayerTurn {
        if action == 0 {
          var card := RandomCard();
          player.DrawCard(card);
        } else if action == 1 {
          isPlayerTurn := false;
        } else {
          return Err(InvalidAction);
        }
      } else {
        DealerPlays();
      }
      if IsTerminal() {
        if player.DidBust() {
          r := Ok(-1.0);
        } else if dealer.DidBust() {
          r := Ok(1.0);
        } else if player.GetSum() > dealer.GetSum() {
          r := Ok(1.0);
        } else if player.GetSum() < dealer.GetSum() {
          r := Ok(-1.0);
        } else {
          r := Ok(0.0);
        }
      } else {
        r := Ok(0.0);
      }
    }

    /** Blackjack::get_state: the code of the player's sum, the dealer's sum and the flag. */
    function GetState(): nat
      reads this, player, dealer
    {
      StateOf(Snapshot())
    }

    /** Blackjack::get_actions: hit (0) and stick (1), exactly the actions below the number of actions. */
    function GetActions(): (actions: seq<nat>)
      ensures |actions| == GetNumberOfPossibleActions()
      ensures forall a: nat :: a in actions <==> a < GetNumberOfPossibleActions()
    {
      var actions: seq<nat> := [0, 1];
      assert forall a: nat :: a in actions <==> a == actions[0] || a == actions[1];
      actions
    }

    predicate IsTerminal()
      reads this, player, dealer
    {
      Terminal(Snapshot())
    }

    function GetNumberOfPossibleActions(): nat {
      2
    }

    function GetNumberOfPossibleStates(): nat {
      NumberOfStates
    }

    function GetTotalNumberOfActionsTaken(): nat
      reads this
    {
      stepCount
    }
  }
}
