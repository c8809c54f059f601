/**
 * Hands (blackjack/models/hand.py). The arithmetic of a hand is a set of pure
 * queries over its sequence of cards; the hands themselves are objects whose
 * cards, status, wager, insurance, outcome and earnings the controller and the
 * gambler update in place.
 */
module Hands {
  import opened Wrappers
  import opened Cards
  import opened PyText

  /** The status strings a hand goes through. */
  datatype Status = Pending | Playing | Stood | Doubled | Busted | Blackjack | Surrendered | Played

  /** The outcome strings settlement understands. */
  datatype Outcome = Win | Loss | Push | Surrender | EvenMoney | InsuranceWin

  /**
   * Python can add up a hand only when every card that is not named "Ace" holds a
   * single number (summing the Ace's list of values would raise a TypeError).
   */
  predicate Scorable(cards: seq<Card>) {
    forall i :: 0 <= i < |cards| ==> IsAce(cards[i]) || cards[i].value.Points?
  }

  /** No card other than an ace counts negatively (true of every card the engine makes). */
  ghost predicate NonNegativePips(cards: seq<Card>) {
    forall i :: 0 <= i < |cards| ==> IsAce(cards[i]) || (cards[i].value.Points? && cards[i].value.n >= 0)
  }

  /** get_num_aces_in_hand: aces are recognised by name. */
  function AceCount(cards: seq<Card>): (k: nat)
    ensures k <= |cards|
    ensures k == 0 <==> forall i :: 0 <= i < |cards| ==> !IsAce(cards[i])
    ensures k == |cards| <==> forall i :: 0 <= i < |cards| ==> IsAce(cards[i])
  {
    if cards == [] then 0
    else
      var rest := AceCount(cards[1..]);
      assert forall i :: 1 <= i < |cards| ==> cards[i] == cards[1..][i - 1];
      (if IsAce(cards[0]) then 1 else 0) + rest
  }

  /** Counting aces distributes over joining hands, so AceCount counts every ace exactly once. */
  lemma {:induction false} AceCountConcat(a: seq<Card>, b: seq<Card>)
    ensures AceCount(a + b) == AceCount(a) + AceCount(b)
  {
    if a == [] {
      assert a + b == b;
    } else {
      assert (a + b)[0] == a[0] && (a + b)[1..] == a[1..] + b;
      AceCountConcat(a[1..], b);
    }
  }

  /** The sum of the values of the cards not named "Ace". */
  function NonAceTotal(cards: seq<Card>): int
    requires Scorable(cards)
  {
    if cards == [] then 0
    else (if IsAce(cards[0]) then 0 else cards[0].value.n) + NonAceTotal(cards[1..])
  }

  /** The pair (low_total, high_total) of possible_totals; `high` is None for Python's None. */
  datatype Totals = Totals(low: int, high: Option<int>)

  /**
   * possible_totals: every ace counts 1 in the low total; the high total counts
   * one of them as 11 and exists only when there is an ace and it does not bust.
   */
  function PossibleTotals(cards: seq<Card>): (t: Totals)
    requires Scorable(cards)
    ensures t.low == NonAceTotal(cards) + AceCount(cards)
    ensures t.high.Some? <==> AceCount(cards) > 0 && t.low + 10 <= 21
    ensures t.high.Some? ==> t.high.value == t.low + 10
  {
    var aces := AceCount(cards);
    var nonAce := NonAceTotal(cards);
    if aces == 0 then Totals(nonAce, None)
    else
      var high := nonAce + 11 + aces - 1;
      var low := nonAce + aces;
      if high > 21 then Totals(low, None) else Totals(low, Some(high))
  }

  /** final_total: `high_total or low_total` (a high total of 0 is falsy in Python). */
  function FinalTotal(cards: seq<Card>): (r: int)
    requires Scorable(cards)
    ensures r == PossibleTotals(cards).low || (r == PossibleTotals(cards).low + 10 && r <= 21)
  {
    var t := PossibleTotals(cards);
    if t.high.Some? && t.high.value != 0 then t.high.value else t.low
  }

  predicate IsTwentyOne(cards: seq<Card>)
    requires Scorable(cards)
  {
    FinalTotal(cards) == 21
  }

  predicate IsBlackjack(cards: seq<Card>)
    requires Scorable(cards)
  {
    IsTwentyOne(cards) && |cards| == 2
  }

  predicate IsBusted(cards: seq<Card>)
    requires Scorable(cards)
  {
    FinalTotal(cards) > 21
  }

  /**
   * is_21, is_blackjack and is_busted read the final total: a blackjack is 21 on
   * exactly two cards, and a hand at 21 is not busted; a hand busts exactly when
   * its low total does, so no choice of ace values saves it and it is never soft.
   */
  lemma TotalTests(cards: seq<Card>)
    requires Scorable(cards)
    ensures IsBlackjack(cards) <==> FinalTotal(cards) == 21 && |cards| == 2
    ensures IsTwentyOne(cards) ==> !IsBusted(cards)
    ensures IsBusted(cards) <==> PossibleTotals(cards).low > 21
    ensures IsBusted(cards) ==> !IsSoft(cards) && FinalTotal(cards) == PossibleTotals(cards).low
  {
  }

  /** is_soft: `bool(high_total)`. */
  predicate IsSoft(cards: seq<Card>)
    requires Scorable(cards)
  {
    var t := PossibleTotals(cards);
    t.high.Some? && t.high.value != 0
  }

  /** format_possible_totals: "21", "low or high", or the low total alone. */
  function FormatPossibleTotals(cards: seq<Card>): (r: string)
    requires Scorable(cards)
    ensures !IsSoft(cards) || FinalTotal(cards) == 21 ==> r == IntToString(FinalTotal(cards))
    ensures IsSoft(cards) && FinalTotal(cards) != 21 ==>
              r == IntToString(PossibleTotals(cards).low) + " or " + IntToString(FinalTotal(cards))
  {
    var t := PossibleTotals(cards);
    if t.high == Some(21) then
      assert IntToString(21) == NatToString(2) + NatToString(1);
      IntToString(21)
    else if t.high.Some? && t.high.value != 0 then
      IntToString(t.low) + " or " + IntToString(t.high.value)
    else IntToString(t.low)
  }

  /** get_total_to_display: both totals while the hand is live, the final total afterwards. */
  function TotalToDisplay(cards: seq<Card>, status: Status): (r: string)
    requires Scorable(cards)
    ensures status != Pending && status != Playing ==> r == IntToString(FinalTotal(cards))
    ensures (status == Pending || status == Playing) && IsSoft(cards) && FinalTotal(cards) != 21 ==>
              r == IntToString(PossibleTotals(cards).low) + " or " + IntToString(FinalTotal(cards))
    ensures !((status == Pending || status == Playing) && IsSoft(cards) && FinalTotal(cards) != 21) ==>
              r == IntToString(FinalTotal(cards)) && ParseIntLiteral(r) == Some(FinalTotal(cards))
  {
    ParseIntToString(FinalTotal(cards));
    if status == Pending || status == Playing then FormatPossibleTotals(cards)
    else IntToString(FinalTotal(cards))
  }

  /** is_splittable: two cards of the same name. */
  predicate IsSplittable(cards: seq<Card>) {
    |cards| == 2 && cards[0].name == cards[1].name
  }

  /** is_doubleable: two cards. */
  predicate IsDoubleable(cards: seq<Card>) {
    |cards| == 2
  }

  /** Every splittable hand is doubleable; a pair is splittable exactly when its names match. */
  lemma SplittableIsDoubleable(cards: seq<Card>, c: Card, d: Card)
    ensures IsSplittable(cards) ==> IsDoubleable(cards)
    ensures |cards| != 2 ==> !IsSplittable(cards) && !IsDoubleable(cards)
    ensures IsDoubleable([c, d]) && (IsSplittable([c, d]) <==> c.name == d.name)
  {
  }

  /** The status a new hand takes: the one given, unless the cards are a blackjack. */
  function InitialStatus(cards: seq<Card>, status: Status): (s: Status)
    requires Scorable(cards)
    ensures s == Blackjack <==> IsBlackjack(cards) || status == Blackjack
    ensures !IsBlackjack(cards) ==> s == status
  {
    if IsBlackjack(cards) then Blackjack else status
  }

  class GamblerHand {
    var cards: seq<Card>
    var status: Status
    var wager: real
    var insurance: real
    var handNumber: int
    var outcome: Option<Outcome>
    var earnings: real
    var lostInsurance: bool

    constructor (cards: seq<Card> := [], status: Status := Pending, wager: real := 0.0,
                 insurance: real := 0.0, handNumber: int := 1)
      requires Scorable(cards)
      ensures this.cards == cards && this.status == InitialStatus(cards, status)
      ensures this.wager == wager && this.insurance == insurance && this.handNumber == handNumber
      ensures outcome == None && earnings == 0.0 && !lostInsurance
    {
      this.cards := cards;
      this.status := InitialStatus(cards, status);
      this.wager := wager;
      this.insurance := insurance;
      this.handNumber := handNumber;
      outcome := None;
      earnings := 0.0;
      lostInsurance := false;
    }
  }

  class DealerHand {
    var cards: seq<Card>
    var status: Status

    constructor (cards: seq<Card> := [], status: Status := Pending)
      requires Scorable(cards)
      ensures this.cards == cards && this.status == InitialStatus(cards, status)
    {
      this.cards := cards;
      this.status := InitialStatus(cards, status);
    }

    /** The dealer's visible card is the first one dealt. */
    function UpCard(): (c: Card)
      reads this
      requires |cards| > 0
      ensures c in cards && c == cards[0]
    {
      cards[0]
    }
  }

  // Properties of the hand arithmetic.

  lemma {:induction false} NonAceTotalNonNegative(cards: seq<Card>)
    requires Scorable(cards) && NonNegativePips(cards)
    ensures NonAceTotal(cards) >= 0
  {
    if cards != [] {
      assert Scorable(cards[1..]) && NonNegativePips(cards[1..]) by {
        forall i | 0 <= i < |cards[1..]| ensures cards[1..][i] == cards[i + 1] { }
      }
      NonAceTotalNonNegative(cards[1..]);
    }
  }

  /** The value fields of aces are never added up: only their number matters. */
  lemma {:induction false} AceValuesIgnored(a: seq<Card>, b: seq<Card>)
    requires Scorable(a) && Scorable(b) && |a| == |b|
    requires forall i :: 0 <= i < |a| ==> a[i].name == b[i].name
    requires forall i :: 0 <= i < |a| && !IsAce(a[i]) ==> a[i].value == b[i].value
    ensures AceCount(a) == AceCount(b) && NonAceTotal(a) == NonAceTotal(b)
    ensures PossibleTotals(a) == PossibleTotals(b)
  {
    AceBlindSums(a, b);
    var ta, tb := PossibleTotals(a), PossibleTotals(b);
    assert ta.low == tb.low && (ta.high.Some? <==> tb.high.Some?);
    assert ta.high == tb.high;
  }

  /** The induction behind AceValuesIgnored: the ace count and the other cards' sum. */
  lemma {:induction false} AceBlindSums(a: seq<Card>, b: seq<Card>)
    requires Scorable(a) && Scorable(b) && |a| == |b|
    requires forall i :: 0 <= i < |a| ==> a[i].name == b[i].name
    requires forall i :: 0 <= i < |a| && !IsAce(a[i]) ==> a[i].value == b[i].value
    ensures AceCount(a) == AceCount(b) && NonAceTotal(a) == NonAceTotal(b)
  {
    if a != [] {
      var a', b' := a[1..], b[1..];
      forall i | 0 <= i < |a'| ensures a'[i] == a[i + 1] && b'[i] == b[i + 1] { }
      AceBlindSums(a', b');
      assert IsAce(a[0]) == IsAce(b[0]);
    }
  }

  /** A total the hand can make by counting `j` of its aces as 11 and the rest as 1. */
  function Candidate(cards: seq<Card>, j: nat): int
    requires Scorable(cards)
  {
    NonAceTotal(cards) + AceCount(cards) + 10 * j
  }

  /**
   * final_total is the best total of the hand: the largest total at most 21 that
   * some choice of ace values makes, or the smallest total when every choice busts.
   */
  lemma FinalTotalIsBest(cards: seq<Card>)
    requires Scorable(cards) && NonNegativePips(cards)
    ensures exists j :: 0 <= j <= AceCount(cards) && FinalTotal(cards) == Candidate(cards, j)
    ensures forall j :: 0 <= j <= AceCount(cards) && Candidate(cards, j) <= 21 ==>
              Candidate(cards, j) <= FinalTotal(cards)
    ensures FinalTotal(cards) > 21 ==>
              forall j :: 0 <= j <= AceCount(cards) ==> FinalTotal(cards) <= Candidate(cards, j)
  {
    NonAceTotalNonNegative(cards);
    var t := PossibleTotals(cards);
    if t.high.Some? {
      assert FinalTotal(cards) == Candidate(cards, 1);
    } else {
      assert FinalTotal(cards) == Candidate(cards, 0);
    }
  }

  /** A hand is soft exactly when it holds an ace that can count as 11 without busting. */
  lemma SoftIff(cards: seq<Card>)
    requires Scorable(cards) && NonNegativePips(cards)
    ensures IsSoft(cards) <==> AceCount(cards) > 0 && PossibleTotals(cards).low + 10 <= 21
    ensures IsSoft(cards) <==> FinalTotal(cards) != PossibleTotals(cards).low
  {
    NonAceTotalNonNegative(cards);
  }

  /** The blackjack test looks at two-card hands only, so a lone card is never a blackjack. */
  lemma OneCardIsNoBlackjack(cards: seq<Card>)
    requires Scorable(cards) && |cards| == 1
    ensures !IsBlackjack(cards) && InitialStatus(cards, Pending) == Pending
  {
  }
}
