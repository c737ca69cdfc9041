/**
  The older standalone Blackjack game (src/blackjack.rs). It shares the dealer and the
  player with the newer environment, but `reset` deals no cards, there is no step counter
  and no state encoding, and the reward is decided by whose turn it is after the step.
 */
module BlackjackDraft {
  import opened Hands
  import opened Outcomes

  datatype Table = Table(
    playerHand: seq<int>, playerSum: int, usableAce: bool,
    dealerHand: seq<int>, dealerSum: int,
    isPlayerTurn: bool, drawn: nat)

  ghost predicate WellFormed(t: Table) {
    && t.playerSum == HandSum(t.playerHand)
    && (t.usableAce <==> 11 in t.playerHand)
    && t.dealerSum == HandSum(t.dealerHand)
  }

  /**
    The reward `step` returns from the table it leaves: while it is still the player's
    turn, -1 for a bust player and 0 otherwise; after that, a comparison of the two sums
    in which a bust dealer loses.
   */
  function Reward(t: Table): (r: real)
    ensures r == -1.0 || r == 0.0 || r == 1.0
    ensures t.isPlayerTurn ==> (r == -1.0 <==> Bust(t.playerSum)) && r != 1.0
    ensures !t.isPlayerTurn && Bust(t.dealerSum) ==> r == 1.0
    ensures !t.isPlayerTurn && !Bust(t.dealerSum) ==>
              (r == 1.0 <==> t.playerSum > t.dealerSum) && (r == -1.0 <==> t.playerSum < t.dealerSum)
  {
    if t.isPlayerTurn then
      if Bust(t.playerSum) then -1.0 else 0.0
    else if Bust(t.dealerSum) then 1.0
    else if t.dealerSum > t.playerSum then -1.0
    else if t.dealerSum < t.playerSum then 1.0
    else 0.0
  }

  function PlayerHit(t: Table, deck: nat -> Card): Table {
    var card := deck(t.drawn);
    var value := CountedValue(card, t.playerSum);
    t.(playerHand := AddCard(t.playerHand, card), playerSum := t.playerSum + value,
       usableAce := t.usableAce || value == 11, drawn := t.drawn + 1)
  }

  function DealerTurn(t: Table, deck: nat -> Card): Table {
    var (hand, next) := DealerDraws(t.dealerHand, deck, t.drawn);
    t.(dealerHand := hand, dealerSum := HandSum(hand), drawn := next)
  }

  /** Blackjack::step of this draft as a function of the table. */
  function Transition(t: Table, deck: nat -> Card, action: nat): Result<(real, Table)> {
    if t.isPlayerTurn then
      if action == 0 then var next := PlayerHit(t, deck); Ok((Reward(next), next))
      else if action == 1 then var next := t.(isPlayerTurn := false); Ok((Reward(next), next))
      else Err(InvalidAction)
    else
      var next := DealerTurn(t, deck); Ok((Reward(next), next))
  }

  /** Blackjack::reset of this draft: empty hands and the player's turn; no card is dealt. */
  function Emptied(t: Table): Table {
    Table([], 0, false, [], 0, true, t.drawn)
  }

  /** The hands `reset` leaves are empty and consistent, and it is the player's turn. */
  lemma EmptiedIsFresh(t: Table)
    ensures var next := Emptied(t);
      WellFormed(next) && next.isPlayerTurn && |next.playerHand| == 0 && |next.dealerHand| == 0
      && next.playerSum == 0 && next.dealerSum == 0 && !next.usableAce
  {
  }

  /** On the player's turn: a hit is a counted draw, a stick only ends the turn, any other action panics. */
  lemma {:induction false} PlayerTurnSteps(t: Table, deck: nat -> Card, action: nat)
    requires WellFormed(t) && t.isPlayerTurn
    ensures action == 0 ==> (
      Transition(t, deck, action).Ok? &&
      var next := Transition(t, deck, action).value.1;
      && WellFormed(next)
      && next.playerHand == AddCard(t.playerHand, deck(t.drawn))
      && (next.usableAce <==> t.usableAce || (deck(t.drawn) == 1 && t.playerSum <= 10))
      && next.(playerHand := t.playerHand, playerSum := t.playerSum, usableAce := t.usableAce, drawn := t.drawn) == t)
    ensures action == 1 ==> Transition(t, deck, action) == Ok((Reward(t.(isPlayerTurn := false)), t.(isPlayerTurn := false)))
    ensures action > 1 ==> Transition(t, deck, action) == Err(InvalidAction)
  {
    if action == 0 {
      var h := AddCard(t.playerHand, deck(t.drawn));
      assert h == t.playerHand + [CountedValue(deck(t.drawn), HandSum(t.playerHand))];
    }
  }

  /** While the player keeps hitting, the reward is -1 exactly when the player is bust, and never +1. */
  lemma HitReward(t: Table, deck: nat -> Card)
    requires t.isPlayerTurn
    ensures var (r, next) := Transition(t, deck, 0).value;
      (r == -1.0 <==> Bust(next.playerSum)) && (r == 0.0 <==> !Bust(next.playerSum))
  {
  }

  /** On the dealer's turn the action is ignored and the dealer draws to 17 or more before the comparison. */
  lemma {:induction false} DealerTurnCompares(t: Table, deck: nat -> Card, action: nat)
    requires WellFormed(t) && !t.isPlayerTurn
    ensures Transition(t, deck, action) == Transition(t, deck, 0)
    ensures var (r, next) := Transition(t, deck, action).value;
      && WellFormed(next) && next.dealerSum >= 17 && !next.isPlayerTurn
      && next.(dealerHand := t.dealerHand, dealerSum := t.dealerSum, drawn := t.drawn) == t
      && r == Reward(next)
  {
    var (hand, n) := DealerDraws(t.dealerHand, deck, t.drawn);
    assert HandSum(hand) >= 17;
  }

  /**
    The step that sticks compares at once, before the dealer has drawn: a player who went
    bust and then sticks against a dealer under 22 and below the player's sum wins.
   */
  lemma BustPlayerWhoSticksWins(t: Table, deck: nat -> Card)
    requires t.isPlayerTurn && Bust(t.playerSum) && t.dealerSum < t.playerSum && !Bust(t.dealerSum)
    ensures Transition(t, deck, 1).value.0 == 1.0
  {
  }

  /** After this draft's `reset`, a hit on a 10 and a stick win +1 without the dealer drawing a card. */
  lemma StickAfterResetWins(t: Table, deck: nat -> Card)
    requires deck(t.drawn) == 10
    ensures var (_, afterHit) := Transition(Emptied(t), deck, 0).value;
      Transition(afterHit, deck, 1).value.0 == 1.0 && afterHit.dealerHand == []
  {
    var afterHit := Transition(Emptied(t), deck, 0).value.1;
    assert afterHit.playerSum == 10;
  }

  /** The older Blackjack: the dealer, the player and whose turn it is. */
  class Blackjack {
    var dealer: Dealer
    var player: Player
    var isPlayerTurn: bool
    const deck: nat -> Card
    var drawn: nat

    ghost predicate Valid()
      reads this, player, dealer
    {
      player.Valid() && dealer.Valid()
    }

    function Snapshot(): Table
      reads this, player, dealer
    {
      Table(player.hand, player.sum, player.usableAce, dealer.hand, dealer.sum, isPlayerTurn, drawn)
    }

    /** Blackjack::new: empty hands and the player's turn. */
    constructor (deck: nat -> Card)
      ensures Valid() && this.deck == deck
      ensures Snapshot() == Table([], 0, false, [], 0, true, 0)
    {
      this.deck := deck;
      dealer := new Dealer();
      player := new Player();
      isPlayerTurn := true;
      drawn := 0;
    }

    method RandomCard() returns (card: Card)
      modifies this`drawn
      ensures card == deck(old(drawn)) && drawn == old(drawn) + 1
    {
      card := deck(drawn);
      drawn := drawn + 1;
    }

    /** Blackjack::reset */
    method Reset()
      requires Valid()
      modifies this
      ensures Valid() && fresh(player) && fresh(dealer)
      ensures Snapshot() == Emptied(old(Snapshot()))
    {
      dealer := new Dealer();
      player := new Player();
      isPlayerTurn := true;
    }

    /** The dealer's turn of `step`: draw while the dealer's sum is below 17. */
    method DealerPlays()
      requires dealer.Valid()
      modifies this`drawn, dealer
      ensures dealer.Valid() && (dealer.hand, drawn) == DealerDraws(old(dealer.hand), deck, old(drawn))
    {
      while dealer.GetSum() < 17
        invariant dealer.Valid()
        invariant DealerDraws(dealer.hand, deck, drawn) == DealerDraws(old(dealer.hand), deck, old(drawn))
        decreases 17 - dealer.sum
      {
        ghost var hand, next := dealer.hand, drawn;
        DealerDrawsOnce(hand, deck, next);
        var card := RandomCard();
        dealer.DrawCard(card);
        assert dealer.hand == AddCard(hand, deck(next)) && drawn == next + 1;
      }
      assert DealerDraws(dealer.hand, deck, drawn) == (dealer.hand, drawn);
    }

    /** The table change of Blackjack::step of this draft: false for an invalid action, which changes nothing. */
    method Advance(action: nat) returns (valid: bool)
      requires Valid()
      modifies this`isPlayerTurn, this`drawn, player, dealer
      ensures Valid()
      ensures valid == Transition(old(Snapshot()), deck, action).Ok?
      ensures valid ==> Snapshot() == Transition(old(Snapshot()), deck, action).value.1
      ensures !valid ==> Snapshot() == old(Snapshot())
    {
      ghost var before := Snapshot();
      valid := true;
      if isPlayerTurn {
        if action == 0 {
          var card := RandomCard();
          player.DrawCard(card);
          assert Snapshot() == PlayerHit(before, deck);
        } else if action == 1 {
          isPlayerTurn := false;
        } else {
          valid := false;
        }
      } else {
        DealerPlays();
        assert Snapshot() == DealerTurn(before, deck);
      }
    }

    /** Blackjack::step */
    method Step(action: nat) returns (r: Result<real>)
      requires Valid()
      modifies this, player, dealer
      ensures Valid() && player == old(player) && dealer == old(dealer)
      ensures match Transition(old(Snapshot()), deck, action)
        case Ok(outcome) => r == Ok(outcome.0) && Snapshot() == outcome.1
        case Err(e) => r == Err(e)
    {
      var valid := Advance(action);
      if !valid {
        return Err(InvalidAction);
      }
      if isPlayerTurn {
        if player.DidBust() {
          r := Ok(-1.0);
        } else {
          r := Ok(0.0);
        }
      } else {
        if dealer.DidBust() {
          r := Ok(1.0);
        } else if dealer.GetSum() > player.GetSum() {
          r := Ok(-1.0);
        } else if dealer.GetSum() < player.GetSum() {
          r := Ok(1.0);
        } else {
          r := Ok(0.0);
        }
      }
      assert r == Ok(Reward(Snapshot()));
    }
  }
}
