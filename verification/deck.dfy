/** A full deck (blackjack/models/deck.py): every suit with every rank, suit by suit. */
module Decks {
  import opened Wrappers
  import opened Cards

  /** The card at position i of a deck built suit-major from SUITS and RANKS. */
  function DeckCard(i: nat): Card
    requires i < |SUITS| * |RANKS|
  {
    Card(SUITS[i / |RANKS|], RANKS[i % |RANKS|].0, RANKS[i % |RANKS|].1)
  }

  ghost predicate IsFullDeck(cards: seq<Card>) {
    |cards| == |SUITS| * |RANKS| && forall i :: 0 <= i < |cards| ==> cards[i] == DeckCard(i)
  }

  /** _build_deck: 52 cards, position 13 * s + r holding suit s and rank r. */
  method BuildDeck() returns (cards: seq<Card>)
    ensures |cards| == 52
    ensures forall i :: 0 <= i < |cards| ==> cards[i] == DeckCard(i)
  {
    cards := [];
    for s := 0 to |SUITS|
      invariant |cards| == |RANKS| * s
      invariant forall i :: 0 <= i < |cards| ==> cards[i] == DeckCard(i)
    {
      for k := 0 to |RANKS|
        invariant |cards| == |RANKS| * s + k
        invariant forall i :: 0 <= i < |cards| ==> cards[i] == DeckCard(i)
      {
        assert (|RANKS| * s + k) / |RANKS| == s && (|RANKS| * s + k) % |RANKS| == k;
        cards := cards + [Card(SUITS[s], RANKS[k].0, RANKS[k].1)];
      }
    }
  }

  /** The deck holds exactly the cards made of one suit and one entry of RANKS. */
  lemma DeckContents(cards: seq<Card>)
    requires IsFullDeck(cards)
    ensures forall c: Card :: c in cards <==> c.suit in SUITS && (c.name, c.value) in RANKS
  {
    forall c | c in cards
      ensures c.suit in SUITS && (c.name, c.value) in RANKS
    {
      var i :| 0 <= i < |cards| && cards[i] == c;
      assert c == DeckCard(i);
      assert RANKS[i % 13] == (c.name, c.value);
    }
    forall c: Card | c.suit in SUITS && (c.name, c.value) in RANKS
      ensures c in cards
    {
      var s :| 0 <= s < |SUITS| && SUITS[s] == c.suit;
      var k :| 0 <= k < |RANKS| && RANKS[k] == (c.name, c.value);
      PositionSplit(s, k);
      assert cards[13 * s + k] == DeckCard(13 * s + k) == c;
    }
  }

  lemma PositionSplit(s: nat, k: nat)
    requires k < 13
    ensures (13 * s + k) / 13 == s && (13 * s + k) % 13 == k
  {
  }

  /** No two positions of the deck hold the same (suit, rank) pair. */
  lemma NoPairTwice(cards: seq<Card>)
    requires IsFullDeck(cards)
    ensures forall i, j :: 0 <= i < j < |cards| ==>
              cards[i].suit != cards[j].suit || cards[i].name != cards[j].name
  {
    forall i, j | 0 <= i < j < |cards|
      ensures cards[i].suit != cards[j].suit || cards[i].name != cards[j].name
    {
      DistinctPositions(i, j);
    }
  }

  lemma DistinctPositions(i: nat, j: nat)
    requires i < j < |SUITS| * |RANKS|
    ensures DeckCard(i).suit != DeckCard(j).suit || DeckCard(i).name != DeckCard(j).name
  {
    NamesDistinct();
    var si, ki, sj, kj := i / 13, i % 13, j / 13, j % 13;
    assert i == 13 * si + ki && j == 13 * sj + kj;
    if si == sj {
      assert ki != kj;
    } else {
      assert SUITS[si] != SUITS[sj];
    }
  }

  /** Each card carries the value RANKS pairs with its name. */
  lemma ValuesMatchRanks(cards: seq<Card>)
    requires IsFullDeck(cards)
    ensures forall i :: 0 <= i < |cards| ==> Lookup(RANKS, cards[i].name) == Some(cards[i].value)
  {
    forall i | 0 <= i < |cards|
      ensures Lookup(RANKS, cards[i].name) == Some(cards[i].value)
    {
      RankFound(i % |RANKS|);
    }
  }
}
