/**
  The Blackjack hands shared by both Blackjack drafts (src/environments/blackjack.rs and
  src/blackjack.rs define identical Dealer and Player types): a hand is the sequence of
  the values its cards were counted at, with its running sum, and the player also keeps
  a usable-ace flag. The random card is an input: a value in 1..10.
 */
module Hands {

  /** A card value as `random_card` draws it: 1 (an ace) up to 10. */
  type Card = v: int | 1 <= v <= 10 witness 1

  /** The value a drawn card is counted at, given the sum of the hand before the draw. */
  function CountedValue(card: Card, sum: int): (v: int)
    ensures 1 <= v <= 11
    ensures v == 11 <==> card == 1 && sum <= 10
    ensures v != 11 ==> v == card
  {
    if card == 1 && sum <= 10 then 11 else card
  }

  function HandSum(hand: seq<int>): int {
    if hand == [] then 0 else HandSum(hand[..|hand| - 1]) + hand[|hand| - 1]
  }

  /** The hand after drawing `card`: the card is appended at its counted value. */
  function AddCard(hand: seq<int>, card: Card): (h: seq<int>)
    ensures |h| == |hand| + 1 && h[..|hand|] == hand
    ensures HandSum(h) == HandSum(hand) + CountedValue(card, HandSum(hand))
  {
    var h := hand + [CountedValue(card, HandSum(hand))];
    assert h[..|hand|] == hand;
    h
  }

  /** `did_bust`: the sum is over 21. */
  predicate Bust(sum: int) {
    sum > 21
  }

  /** A hand of two cards, drawn in order, never exceeds 21: an ace after a first ace counts 1. */
  lemma {:induction false} TwoCardsNeverBust(first: Card, second: Card)
    ensures var h := AddCard(AddCard([], first), second); |h| == 2 && 4 <= HandSum(h) <= 21
  {
    var h1 := AddCard([], first);
    assert HandSum([]) == 0;
    assert HandSum(h1) == CountedValue(first, 0);
  }

  /**
    The dealer's fixed strategy: keep drawing the next card of the deck while the sum is
    below 17. Returns the final hand and the position of the next undealt card.
   */
  function DealerDraws(hand: seq<int>, deck: nat -> Card, next: nat): (r: (seq<int>, nat))
    ensures HandSum(r.0) >= 17
    ensures HandSum(hand) >= 17 ==> r == (hand, next)
    ensures |r.0| >= |hand| && r.0[..|hand|] == hand
    ensures r.1 == next + (|r.0| - |hand|)
    ensures HandSum(hand) <= 26 ==> HandSum(r.0) <= 26
    decreases 17 - HandSum(hand)
  {
    if HandSum(hand) >= 17 then (hand, next)
    else
      var h := AddCard(hand, deck(next));
      var r := DealerDraws(h, deck, next + 1);
      assert r.0[..|hand|] == r.0[..|h|][..|hand|];
      r
  }

  /** One round of the dealer's loop: below 17, drawing the next card and continuing gives the same outcome. */
  lemma DealerDrawsOnce(hand: seq<int>, deck: nat -> Card, next: nat)
    requires HandSum(hand) < 17
    ensures DealerDraws(hand, deck, next) == DealerDraws(AddCard(hand, deck(next)), deck, next + 1)
  {
  }

  /** Dealer: the dealer's hand (src/environments/blackjack.rs, src/blackjack.rs). */
  class Dealer {
    var hand: seq<int>
    var sum: int

    ghost predicate Valid()
      reads this
    {
      sum == HandSum(hand)
    }

    /** Dealer::new: an empty hand. */
    constructor ()
      ensures Valid() && hand == [] && sum == 0
    {
      hand, sum := [], 0;
    }

    /** Dealer::draw_card: an ace counts 11 while the sum before the draw is at most 10. */
    method DrawCard(card: Card)
      requires Valid()
      modifies this
      ensures Valid()
      ensures hand == AddCard(old(hand), card)
      ensures sum == old(sum) + CountedValue(card, old(sum))
    {
      var value: int := card;
      if card == 1 && sum <= 10 {
        value := 11;
      }
      assert hand + [value] == AddCard(hand, card);
      sum := sum + value;
      hand := hand + [value];
    }

    /** get_sum: the total of the counted cards in the hand. */
    function GetSum(): (s: int)
      reads this
      ensures Valid() ==> s == HandSum(hand)
    {
      sum
    }

    /** did_bust: the counted cards in the hand total more than 21. */
    predicate DidBust()
      reads this
      ensures Valid() ==> (DidBust() <==> HandSum(hand) > 21)
    {
      Bust(sum)
    }
  }

  /** Player: the player's hand and its usable-ace flag. */
  class Player {
    var hand: seq<int>
    var usableAce: bool
    var sum: int

    /** The flag is set exactly when some ace of the hand was counted as 11. */
    ghost predicate Valid()
      reads this
    {
      sum == HandSum(hand) && (usableAce <==> 11 in hand)
    }

    /** Player::new: an empty hand without a usable ace. */
    constructor ()
      ensures Valid() && hand == [] && sum == 0 && !usableAce
    {
      hand, usableAce, sum := [], false, 0;
    }

    /**
      Player::draw_card: as the dealer's, and the flag becomes true when the ace is
      counted as 11; nothing clears it.
     */
    method DrawCard(card: Card)
      requires Valid()
      modifies this
      ensures Valid()
      ensures hand == AddCard(old(hand), card)
      ensures sum == old(sum) + CountedValue(card, old(sum))
      ensures usableAce == (old(usableAce) || CountedValue(card, old(sum)) == 11)
    {
      var value: int := card;
      if card == 1 && sum <= 10 {
        value := 11;
        usableAce := true;
      }
      assert hand + [value] == AddCard(hand, card);
      sum := sum + value;
      hand := hand + [value];
    }

    /** get_sum: the total of the counted cards in the hand. */
    function GetSum(): (s: int)
      reads this
      ensures Valid() ==> s == HandSum(hand)
    {
      sum
    }

    /** did_bust: the counted cards in the hand total more than 21. */
    predicate DidBust()
      reads this
      ensures Valid() ==> (DidBust() <==> HandSum(hand) > 21)
    {
      Bust(sum)
    }
  }
}
