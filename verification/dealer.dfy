/** The dealer (blackjack/models/dealer.py): one optional hand and queries about its up card. */
module Dealers {
  import opened Cards
  import opened Hands

  class Dealer {
    const name: string
    var hand: DealerHand?

    constructor (hand: DealerHand? := null)
      ensures name == "Dealer" && this.hand == hand
    {
      name := "Dealer";
      this.hand := hand;
    }

    /** up_card: the first card of the dealer's hand. */
    function UpCard(): (c: Card)
      reads this, hand
      requires hand != null && |hand.cards| > 0
      ensures c == hand.UpCard() && c == hand.cards[0]
    {
      hand.UpCard()
    }

    predicate IsShowingAce()
      reads this, hand
      requires hand != null && |hand.cards| > 0
      ensures IsShowingAce() <==> IsAce(hand.cards[0])
    {
      IsAce(UpCard())
    }

    predicate IsShowingFaceCard()
      reads this, hand
      requires hand != null && |hand.cards| > 0
      ensures IsShowingFaceCard() <==> hand.cards[0].value == Points(10)
    {
      IsFaceCard(UpCard())
    }

    /** discard_hand drops the hand and touches nothing else (the name is a constant). */
    method DiscardHand()
      modifies this`hand
      ensures hand == null
    {
      hand := null;
    }
  }
}
