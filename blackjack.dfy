/**
 * BlackJack: a 56-card deck of values 1 to 10 (four suits of 1..10 plus four extra 10s each),
 * shuffled, dealt two cards to the dealer and two to the player from the back of the deck, and
 * the evaluation of the player's hand against the dealer's.
 */
module BlackJackGame {

  /** One suit as `newGame` pushes it: 1 to 10, then four more 10s. */
  const Suit: seq<int> := [1, 2, 3, 4, 5, 6, 7, 8, 9, 10, 10, 10, 10, 10]

  /** The values of one suit, counted. */
  const Face: multiset<int> := multiset{1, 2, 3, 4, 5, 6, 7, 8, 9, 10, 10, 10, 10, 10}

  /** `n` copies of `s`, one after the other, as the outer loop of `newGame` pushes suits. */
  function Copies(s: seq<int>, n: nat): (r: seq<int>)
    ensures |r| == |s| * n
  {
    if n == 0 then [] else Copies(s, n - 1) + s
  }

  /** The cards `newGame` pushes, in push order: four suits. */
  const FullDeck: seq<int> := Copies(Suit, 4)

  lemma SuitFace()
    ensures multiset(Suit) == Face
  {
  }

  lemma FaceCount(v: int)
    ensures Face[v] == if 1 <= v <= 9 then 1 else if v == 10 then 5 else 0
  {
  }

  /** Four copies hold every value four times as often as one. */
  lemma FourCopiesCount(s: seq<int>, v: int)
    ensures multiset(Copies(s, 4))[v] == 4 * multiset(s)[v]
  {
    assert Copies(s, 1) == s;
    assert multiset(Copies(s, 2)) == multiset(s) + multiset(s);
    assert multiset(Copies(s, 3)) == multiset(Copies(s, 2)) + multiset(s);
    assert multiset(Copies(s, 4)) == multiset(Copies(s, 3)) + multiset(s);
  }

  /** The deck holds 56 cards: four of each value 1 to 9, twenty 10s and nothing else. */
  lemma DeckCount(v: int)
    ensures |FullDeck| == 56
    ensures multiset(FullDeck)[v] == if 1 <= v <= 9 then 4 else if v == 10 then 20 else 0
  {
    SuitFace();
    FourCopiesCount(Suit, v);
    FaceCount(v);
  }

  /** The sum of the cards, added from the front as the loop of `evaluate` does. */
  function Sum(cards: seq<int>): int
  {
    if cards == [] then 0 else Sum(cards[..|cards| - 1]) + cards[|cards| - 1]
  }

  /** Every card lies in [1, 10]. */
  ghost predicate CardValues(cards: seq<int>)
  {
    forall i :: 0 <= i < |cards| ==> 1 <= cards[i] <= 10
  }

  /** A hand's total lies between its size and ten times its size when every card lies in [1, 10]. */
  lemma {:induction false} SumBounds(cards: seq<int>)
    requires CardValues(cards)
    ensures |cards| <= Sum(cards) <= 10 * |cards|
    decreases |cards|
  {
    if cards != [] {
      SumBounds(cards[..|cards| - 1]);
    }
  }

  /**
   * The result of `evaluate` from the two totals: -1 (round lost) on a bust or on standing below the
   * dealer; 0 (play on) on a hit that reaches neither 21 nor a bust; 1 (round won) on a hit that
   * makes exactly 21 or on standing at or above the dealer without a bust.
   */
  function Outcome(playerTotal: int, dealerTotal: int, hit: bool): (r: int)
    ensures r in {-1, 0, 1}
    ensures r == -1 <==> playerTotal > 21 || (!hit && playerTotal < dealerTotal)
    ensures r == 0 <==> hit && playerTotal < 21
    ensures r == 1 <==> (hit && playerTotal == 21) || (!hit && dealerTotal <= playerTotal <= 21)
  {
    if (!hit && playerTotal < dealerTotal) || playerTotal > 21 then -1
    else if hit && playerTotal != 21 then 0
    else 1
  }

  class BlackJack {
    var cards: seq<int>
    const dealer: array<int>
    var playersCards: seq<int>
    var bid: int

    ghost predicate Valid()
      reads this
    {
      dealer.Length == 2
    }

    /** Every card the game holds: the deck, the dealer's two and the player's hand. */
    ghost function AllCards(): multiset<int>
      requires Valid()
      reads this, dealer
    {
      multiset(cards) + multiset{dealer[0], dealer[1]} + multiset(playersCards)
    }

    /**
     * `BlackJack::BlackJack`: no bid, and a new game: the 56 cards of `FullDeck` in some order
     * shared between a deck of 52, the dealer's two and the player's two (all of value 1 to 10, by
     * `FreshGameValues`).
     */
    constructor()
      ensures Valid() && fresh(dealer) && bid == 0
      ensures AllCards() == multiset(FullDeck)
      ensures |cards| == 52 && |playersCards| == 2
    {
      cards := [];
      dealer := new int[2];
      playersCards := [];
      new;
      NoCardsUnion(cards, multiset(FullDeck));
      NewGame();
      bid := 0;
    }

    /** Every card of a game dealt from `FullDeck` has a value from 1 to 10. */
    lemma FreshGameValues()
      requires Valid() && AllCards() == multiset(FullDeck)
      ensures CardValues(cards) && CardValues(playersCards) && 1 <= dealer[0] <= 10 && 1 <= dealer[1] <= 10
    {
      DealtFromFullDeck(cards, playersCards, dealer[0], dealer[1]);
    }

    /**
     * `newGame`: pushes the four suits onto the deck, shuffles the whole deck (any permutation of
     * it), then deals with `InitDecks`. Together the deck and the four dealt cards are the old
     * deck plus `FullDeck`.
     */
    method NewGame()
      requires Valid()
      modifies this`cards, this`playersCards, dealer
      ensures Valid()
      ensures |cards| == |old(cards)| + 52 && |playersCards| == 2
      ensures AllCards() == multiset(old(cards)) + multiset(FullDeck)
    {
      ghost var start := cards;
      for i := 0 to 4
        invariant cards == start + Copies(Suit, i)
      {
        for j := 1 to 11
          invariant cards == start + Copies(Suit, i) + Suit[..j - 1]
        {
          assert Suit[..j] == Suit[..j - 1] + [j];
          cards := cards + [j];
        }
        for j := 0 to 4
          invariant cards == start + Copies(Suit, i) + Suit[..10 + j]
        {
          assert Suit[..11 + j] == Suit[..10 + j] + [10];
          cards := cards + [10];
        }
        assert Suit[..14] == Suit;
      }
      var shuffled :| multiset(shuffled) == multiset(cards);
      cards := shuffled;
      assert |cards| == |multiset(cards)| == |start| + 56;
      InitDecks();
    }

    /**
     * `initDecks`: the dealer takes the last card and then the one before it, the player's hand
     * becomes the two before those, and the deck loses those four cards; no card is lost or made.
     */
    method InitDecks()
      requires Valid() && |cards| >= 4
      modifies this`cards, this`playersCards, dealer
      ensures Valid()
      ensures var n := |old(cards)|;
        dealer[0] == old(cards)[n - 1] && dealer[1] == old(cards)[n - 2] &&
        playersCards == [old(cards)[n - 3], old(cards)[n - 4]] && cards == old(cards)[..n - 4]
      ensures AllCards() == multiset(old(cards))
    {
      ghost var deck := cards;
      dealer[0] := cards[|cards| - 1];
      cards := cards[..|cards| - 1];
      dealer[1] := cards[|cards| - 1];
      cards := cards[..|cards| - 1];
      playersCards := [];
      playersCards := playersCards + [cards[|cards| - 1]];
      cards := cards[..|cards| - 1];
      playersCards := playersCards + [cards[|cards| - 1]];
      cards := cards[..|cards| - 1];
      var n := |deck|;
      assert deck == cards + [deck[n - 4], deck[n - 3], deck[n - 2], deck[n - 1]];
    }

    /**
     * `evaluate`: the player's total against the dealer's two cards, as `Outcome` decides it.
     */
    function Evaluate(hit: bool): (outcome: int)
      requires Valid()
      reads this, dealer
      ensures outcome in {-1, 0, 1}
      ensures outcome == -1 <==> Sum(playersCards) > 21 || (!hit && Sum(playersCards) < dealer[0] + dealer[1])
      ensures outcome == 0 <==> hit && Sum(playersCards) < 21
    {
      Outcome(Sum(playersCards), dealer[0] + dealer[1], hit)
    }

    /**
     * A freshly dealt hand of two cards cannot bust: standing on it loses exactly when it is below
     * the dealer's total.
     */
    lemma DealtHandNeverBusts()
      requires Valid() && |playersCards| == 2 && CardValues(playersCards)
      ensures Evaluate(false) == -1 <==> Sum(playersCards) < dealer[0] + dealer[1]
    {
      SumBounds(playersCards);
    }
  }

  lemma NoCardsUnion(start: seq<int>, m: multiset<int>)
    requires start == []
    ensures multiset(start) + m == m
  {
  }

  /** Cards drawn from a multiset of values 1 to 10 all have values 1 to 10. */
  lemma DealtValues(cards: seq<int>, hand: seq<int>, d0: int, d1: int, deck: multiset<int>)
    requires multiset(cards) + multiset{d0, d1} + multiset(hand) == deck
    requires forall v :: v in deck ==> 1 <= v <= 10
    ensures CardValues(cards) && CardValues(hand) && 1 <= d0 <= 10 && 1 <= d1 <= 10
  {
    forall i | 0 <= i < |cards|
      ensures 1 <= cards[i] <= 10
    {
      assert cards[i] in multiset(cards);
      assert cards[i] in deck;
    }
    forall i | 0 <= i < |hand|
      ensures 1 <= hand[i] <= 10
    {
      assert hand[i] in multiset(hand);
      assert hand[i] in deck;
    }
    assert d0 in multiset{d0, d1} && d1 in multiset{d0, d1};
    assert d0 in deck && d1 in deck;
  }

  /** Every card of the deck has a value from 1 to 10. */
  lemma FullDeckValues()
    ensures forall v :: v in multiset(FullDeck) ==> 1 <= v <= 10
  {
    forall v | v in multiset(FullDeck)
      ensures 1 <= v <= 10
    {
      DeckCount(v);
    }
  }

  /** The cards of a fresh game all have values 1 to 10. */
  lemma DealtFromFullDeck(cards: seq<int>, hand: seq<int>, d0: int, d1: int)
    requires multiset(cards) + multiset{d0, d1} + multiset(hand) == multiset(FullDeck)
    ensures CardValues(cards) && CardValues(hand) && 1 <= d0 <= 10 && 1 <= d1 <= 10
  {
    FullDeckValues();
    DealtValues(cards, hand, d0, d1, multiset(FullDeck));
  }
}
