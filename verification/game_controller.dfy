/**
 * The turn controller (blackjack/controllers/game_controller.py). The engine does
 * not deal from a shoe: the user types the dealer's up card and the gambler's
 * totals, and each gambler hand holds a single card standing for its total. A
 * turn vets the wager, deals, resolves blackjacks and insurance, plays the
 * gambler's hand, takes the dealer's final total and settles by a fixed odds
 * table; at four checkpoints the user may instead report a status text seen on
 * the table, which fixes the hand's status and outcome and ends the turn.
 */
module GameControllers {
  import opened Wrappers
  import opened Exc
  import opened PyText
  import opened Cards
  import opened Hands
  import opened Gamblers
  import opened Dealers
  import opened Strategies
  import opened Consoles

  // ---------------------------------------------------------------------------
  // Typed entries: the module-level prompt helpers.
  // ---------------------------------------------------------------------------

  /** A line get_card_input accepts: once stripped, the name of a rank. */
  predicate IsRankEntry(line: string) {
    RankLookup(Strip(line)).Some?
  }

  /** The card get_card_input makes of an accepted line; an ace takes its higher value. */
  function EnteredCard(suit: string, line: string): (c: Card)
    requires IsRankEntry(line)
    ensures c.suit == suit && IsUpCard(c) && RankLookup(c.name).Some?
  {
    LookedUpValue(Strip(line));
    Card(suit, Strip(line), Points(HighValue(RankLookup(Strip(line)).value)))
  }

  /** A card the dealer can show: a single value, 11 for an ace. */
  predicate IsUpCard(c: Card) {
    c.value.Points? && (IsAce(c) ==> c.value.n == 11)
  }

  /** What a prompt loop reads from `lines`: the first line `accept` takes and the lines after it. */
  datatype Entry = Entry(line: string, rest: seq<string>)

  /**
   * The line a prompt loop settles on, skipping every line `accept` refuses, and
   * what is left to read after it; None when input runs out first.
   */
  function FirstAccepted(accept: string -> bool, lines: seq<string>): (r: Option<Entry>)
    ensures r.Some? ==> accept(r.value.line) && |r.value.rest| < |lines|
  {
    if lines == [] then None
    else if accept(lines[0]) then Some(Entry(lines[0], lines[1..]))
    else FirstAccepted(accept, lines[1..])
  }

  /**
   * FirstAccepted finds nothing exactly when `accept` takes no line; otherwise it
   * settles on the earliest line `accept` takes and leaves the lines after it.
   */
  lemma {:induction false} FirstAcceptedIsFirst(accept: string -> bool, lines: seq<string>)
    ensures FirstAccepted(accept, lines).None? <==> forall j :: 0 <= j < |lines| ==> !accept(lines[j])
    ensures FirstAccepted(accept, lines).Some? ==>
              exists k :: 0 <= k < |lines| && accept(lines[k])
                          && FirstAccepted(accept, lines) == Some(Entry(lines[k], lines[k + 1..]))
                          && forall j :: 0 <= j < k ==> !accept(lines[j])
  {
    if lines != [] && !accept(lines[0]) {
      FirstAcceptedIsFirst(accept, lines[1..]);
      var tail := lines[1..];
      forall j | 0 < j < |lines|
        ensures lines[j] == tail[j - 1]
      {
      }
      if FirstAccepted(accept, tail).Some? {
        var k :| 0 <= k < |tail| && accept(tail[k])
                 && FirstAccepted(accept, tail) == Some(Entry(tail[k], tail[k + 1..]))
                 && forall j :: 0 <= j < k ==> !accept(tail[j]);
        assert tail[k + 1..] == lines[k + 2..];
        assert forall j :: 0 <= j < k + 1 ==> !accept(lines[j]) by {
          forall j | 0 <= j < k + 1
            ensures !accept(lines[j])
          {
            if j > 0 {
              assert lines[j] == tail[j - 1];
            }
          }
        }
        assert FirstAccepted(accept, lines) == Some(Entry(lines[k + 1], lines[k + 2..]));
      }
    }
  }

  /**
   * One attempt of the card prompt: the stripped entry and its value (the higher
   * one for the Ace) when the entry names a rank; None for a blank or unknown entry.
   */
  method ParseRankEntry(line: string) returns (rank: Option<(string, int)>)
    ensures rank.Some? <==> IsRankEntry(line)
    ensures rank.Some? ==> Card("", rank.value.0, Points(rank.value.1)) == EnteredCard("", line)
  {
    var entry := Strip(line);
    if entry == [] {
      BlankIsNoRank();
      return None;
    }
    var value := RankLookup(entry);
    if value.None? {
      return None;
    }
    return Some((entry, HighValue(value.value)));
  }

  /**
   * get_card_input: skips lines that are empty or name no rank and makes a card of
   * the first that does, in a randomly drawn suit; end of input raises.
   */
  method GetCardInput(console: Console) returns (r: Result<Card>)
    modifies console`lines, console`draws
    ensures |console.lines| <= |old(console.lines)|
    ensures match FirstAccepted(IsRankEntry, old(console.lines))
            case None => r == Err(InputExhausted) && console.lines == []
            case Some(e) => r.Ok? && console.lines == e.rest && IsRankEntry(e.line) && r.value == EnteredCard(r.value.suit, e.line)
    ensures r.Ok? ==> r.value.suit in SUITS && IsUpCard(r.value) && RankLookup(r.value.name).Some?
  {
    ghost var start := console.lines;
    while true
      invariant |console.lines| <= |start|
      invariant FirstAccepted(IsRankEntry, console.lines) == FirstAccepted(IsRankEntry, start)
      decreases |console.lines|
    {
      ghost var before := console.lines;
      var line :- console.ReadLine();
      assert FirstAccepted(IsRankEntry, before) == (if IsRankEntry(line) then Some(Entry(line, console.lines)) else FirstAccepted(IsRankEntry, console.lines));
      var rank := ParseRankEntry(line);
      if rank.Some? {
        assert FirstAccepted(IsRankEntry, start) == Some(Entry(line, console.lines));
        var suit := console.ChooseSuit();
        r := Ok(Card(suit, rank.value.0, Points(rank.value.1)));
        assert r.value == EnteredCard(suit, line);
        return;
      }
    }
  }

  /**
   * A line get_total_input accepts: an integer from 4 to 21 (the line is stripped
   * before `int`, which strips anyway; see ParseIntStripped).
   */
  predicate IsTotalEntry(line: string) {
    var t := ParseIntLiteral(line);
    t.Some? && 4 <= t.value <= 21
  }

  /** The total an accepted line stands for. */
  function EnteredTotal(line: string): (t: int)
    requires IsTotalEntry(line)
    ensures 4 <= t <= 21
  {
    ParseIntLiteral(line).value
  }

  /** One attempt of get_total_input: the line's total when it is accepted. */
  method ParseTotal(line: string) returns (total: Option<int>)
    ensures total.Some? <==> IsTotalEntry(line)
    ensures total.Some? ==> total.value == EnteredTotal(line)
  {
    var parsed := ParseIntLiteral(Strip(line));
    ParseIntStripped(line);
    if parsed.None? {
      return None;
    }
    if parsed.value < 4 || parsed.value > 21 {
      return None;
    }
    return parsed;
  }

  /**
   * get_total_input: skips lines that are not integers or lie outside [4, 21] and
   * returns the first that is one; end of input raises.
   */
  method GetTotalInput(console: Console) returns (r: Result<int>)
    modifies console`lines
    ensures |console.lines| <= |old(console.lines)|
    ensures match FirstAccepted(IsTotalEntry, old(console.lines))
            case None => r == Err(InputExhausted) && console.lines == []
            case Some(e) => r.Ok? && console.lines == e.rest && IsTotalEntry(e.line) && r.value == EnteredTotal(e.line)
    ensures r.Ok? ==> 4 <= r.value <= 21
  {
    while true
      invariant |console.lines| <= |old(console.lines)|
      invariant FirstAccepted(IsTotalEntry, console.lines) == FirstAccepted(IsTotalEntry, old(console.lines))
      decreases |console.lines|
    {
      ghost var before := console.lines;
      var line :- console.ReadLine();
      assert before == [line] + console.lines;
      var total := ParseTotal(line);
      if total.Some? {
        return Ok(total.value);
      }
    }
  }

  /** The single card standing for a typed total is never an ace. */
  function DummyCard(total: int): (c: Card)
    ensures !IsAce(c) && c.value == Points(total)
  {
    var name := "Total:" + IntToString(total);
    assert name[0] == 'T';
    Card("Spades", name, Points(total))
  }

  /** create_dummy_hand: one card whose value is the total, so the hand's total is the typed one. */
  function CreateDummyHand(total: int): (cards: seq<Card>)
    ensures |cards| == 1 && cards[0] == DummyCard(total)
    ensures Scorable(cards) && FinalTotal(cards) == total && !IsSoft(cards)
    ensures 4 <= total <= 21 ==> IsTotalHand(cards)
  {
    var cards := [DummyCard(total)];
    assert cards[1..] == [];
    assert AceCount(cards) == 0 && NonAceTotal(cards) == total;
    cards
  }

  /** A gambler hand as the controller builds it: no cards yet, or one card standing for a typed total. */
  predicate IsTotalHand(cards: seq<Card>) {
    Scorable(cards)
    && (cards == [] || (|cards| == 1 && !IsAce(cards[0]) && cards[0].value.Points?
                        && 4 <= cards[0].value.n <= 21))
  }

  /**
   * A total hand is worth the total its card stands for (0 without a card), and
   * never busts. Holding fewer than two cards, it is never splittable or
   * doubleable in the sense of is_splittable and is_doubleable.
   */
  lemma TotalHandTotal(cards: seq<Card>)
    requires IsTotalHand(cards)
    ensures FinalTotal(cards) == (if cards == [] then 0 else cards[0].value.n)
    ensures FinalTotal(cards) <= 21 && !IsBusted(cards) && !IsSoft(cards)
    ensures !IsSplittable(cards) && !IsDoubleable(cards)
  {
    if cards != [] {
      assert cards[1..] == [];
    }
  }

  /** A dealer hand as the controller builds it: a valid up card first. */
  predicate IsDealerCards(cards: seq<Card>) {
    |cards| >= 1 && Scorable(cards) && IsUpCard(cards[0])
  }

  /** The card play_dealer_turn adds for the points the dealer drew beyond the up card. */
  function HiddenCard(total: int, up: Card): Card
    requires up.value.Points?
  {
    Card("Hidden", "Total", Points(total - up.value.n))
  }

  /**
   * The dealer's final hand is worth the typed total whenever it stands: with an
   * ace up, the ace counts 11 as long as the total is at most 21.
   */
  lemma DealerTotalRecovered(up: Card, total: int)
    requires IsUpCard(up) && total >= up.value.n
    ensures IsDealerCards([up, HiddenCard(total, up)])
    ensures total <= 21 ==> FinalTotal([up, HiddenCard(total, up)]) == total
    ensures !IsAce(up) ==> FinalTotal([up, HiddenCard(total, up)]) == total
  {
    var hidden := HiddenCard(total, up);
    var cards := [up, hidden];
    assert cards[1..] == [hidden] && [hidden][1..] == [];
    assert !IsAce(hidden) by {
      assert hidden.name[0] != "Ace"[0];
    }
    assert AceCount([hidden]) == 0 && NonAceTotal([hidden]) == total - up.value.n;
    assert AceCount(cards) == (if IsAce(up) then 1 else 0);
    assert NonAceTotal(cards) == (if IsAce(up) then 0 else up.value.n) + total - up.value.n;
  }

  // ---------------------------------------------------------------------------
  // Status texts reported at a checkpoint.
  // ---------------------------------------------------------------------------

  datatype StatusText = BlackjackText | PushText | WinText | BustText | SurrenderText

  function StatusName(t: StatusText): string {
    match t
    case BlackjackText => "BLACKJACK"
    case PushText => "PUSH"
    case WinText => "WIN"
    case BustText => "BUST"
    case SurrenderText => "SURRENDER"
  }

  /** The status text an upper-cased answer names, if it names one of the five. */
  function StatusTextOf(s: string): Option<StatusText> {
    if s == "BLACKJACK" then Some(BlackjackText)
    else if s == "PUSH" then Some(PushText)
    else if s == "WIN" then Some(WinText)
    else if s == "BUST" then Some(BustText)
    else if s == "SURRENDER" then Some(SurrenderText)
    else None
  }

  /** An answer names a status text exactly when it is that text's name, and no answer names two. */
  lemma StatusTextOfNames(s: string)
    ensures forall t :: StatusTextOf(s) == Some(t) <==> s == StatusName(t)
    ensures StatusTextOf(s).None? <==> forall t :: s != StatusName(t)
  {
  }

  /** A first answer that says a status text has appeared. */
  predicate IsAffirmative(line: string) {
    var answer := Lower(Strip(line));
    answer == "y" || answer == "yes"
  }

  /** The (status, outcome) pair handle_immediate_status writes for each status text. */
  function TextMark(t: StatusText): (Status, Outcome) {
    match t
    case BlackjackText => (Blackjack, Win)
    case PushText => (Stood, Push)
    case WinText => (Stood, Win)
    case BustText => (Busted, Loss)
    case SurrenderText => (Surrendered, Surrender)
  }

  /** The hand carries the status and outcome the text stands for. */
  ghost predicate Overridden(hand: GamblerHand, t: StatusText)
    reads hand
  {
    hand.status == TextMark(t).0 && hand.outcome == Some(TextMark(t).1)
  }

  /**
   * check_for_status_text on `lines`, with what is left to read: an answer other
   * than y/yes means no text; after a yes the upper-cased second answer is the
   * text when it names one. Input running out raises.
   */
  function StatusAnswer(lines: seq<string>): (answer: (Result<Option<StatusText>>, seq<string>))
    ensures |answer.1| <= |lines| && (answer.0.Ok? ==> |answer.1| < |lines|)
  {
    if lines == [] then (Err(InputExhausted), [])
    else if !IsAffirmative(lines[0]) then (Ok(None), lines[1..])
    else if |lines| == 1 then (Err(InputExhausted), [])
    else (Ok(StatusTextOf(Upper(Strip(lines[1])))), lines[2..])
  }

  /**
   * A status text is reported exactly when the first answer is yes and the
   * second, stripped and upper-cased, is that text's name.
   */
  lemma StatusAnswerNames(lines: seq<string>, t: StatusText)
    ensures StatusAnswer(lines).0 == Ok(Some(t)) <==>
              |lines| >= 2 && IsAffirmative(lines[0]) && Upper(Strip(lines[1])) == StatusName(t)
  {
    if |lines| >= 2 {
      StatusTextOfNames(Upper(Strip(lines[1])));
    }
  }

  // ---------------------------------------------------------------------------
  // The dealer's final total (the prompt loop of play_dealer_turn).
  // ---------------------------------------------------------------------------

  /** A line play_dealer_turn accepts: an integer no lower than the up card's value. */
  predicate IsDealerTotalEntry(line: string, least: int) {
    var t := ParseIntLiteral(line);
    t.Some? && t.value >= least
  }

  function EnteredDealerTotal(line: string, least: int): int
    requires IsDealerTotalEntry(line, least)
  {
    ParseIntLiteral(line).value
  }

  /** One attempt of the dealer-total prompt: the line's total when it is accepted. */
  method ParseDealerTotal(line: string, least: int) returns (total: Option<int>)
    ensures total.Some? <==> IsDealerTotalEntry(line, least)
    ensures total.Some? ==> total.value == EnteredDealerTotal(line, least)
  {
    var parsed := ParseIntLiteral(line);
    if parsed.None? {
      return None;
    }
    if parsed.value < least {
      return None;
    }
    return parsed;
  }

  /** The dealer-total prompt's test for the up card's value `least`. */
  function DealerTotalTest(least: int): string -> bool {
    line => IsDealerTotalEntry(line, least)
  }

  /**
   * The dealer-total prompt: skips lines that are not integers or lie below the up
   * card's value and returns the first that is neither; end of input raises.
   */
  method GetDealerTotal(console: Console, least: int) returns (r: Result<int>)
    modifies console`lines
    ensures |console.lines| <= |old(console.lines)|
    ensures match FirstAccepted(DealerTotalTest(least), old(console.lines))
            case None => r == Err(InputExhausted) && console.lines == []
            case Some(e) => r.Ok? && console.lines == e.rest && IsDealerTotalEntry(e.line, least) && r.value == EnteredDealerTotal(e.line, least)
    ensures r.Ok? ==> r.value >= least
  {
    while true
      invariant |console.lines| <= |old(console.lines)|
      invariant FirstAccepted(DealerTotalTest(least), console.lines) == FirstAccepted(DealerTotalTest(least), old(console.lines))
      decreases |console.lines|
    {
      ghost var before := console.lines;
      var line :- console.ReadLine();
      assert before == [line] + console.lines;
      var total := ParseDealerTotal(line, least);
      if total.Some? {
        return Ok(total.value);
      }
    }
  }

  // ---------------------------------------------------------------------------
  // The pre-turn decision table (play_pre_turn).
  // ---------------------------------------------------------------------------

  /**
   * What play_pre_turn saw and was told: whether the gambler's total is 21,
   * whether the dealer's hand counts as a blackjack, what the up card is, and the
   * strategy's answers (false when the question was not asked).
   */
  datatype PreTurn = PreTurn(gamblerBlackjack: bool, dealerBlackjack: bool, showingAce: bool,
                             showingFace: bool, tookEvenMoney: bool, insured: bool)

  /** The outcome play_pre_turn settles the hand with, or None when the hand is to be played. */
  function PreTurnOutcome(d: PreTurn): Option<Outcome> {
    if d.showingAce then
      if d.gamblerBlackjack then
        if d.tookEvenMoney then Some(EvenMoney) else if d.dealerBlackjack then Some(Push) else Some(Win)
      else if d.insured then
        if d.dealerBlackjack then Some(InsuranceWin) else None
      else if d.dealerBlackjack then Some(Loss) else None
    else if d.showingFace then
      if d.dealerBlackjack then (if d.gamblerBlackjack then Some(Push) else Some(Loss))
      else if d.gamblerBlackjack then Some(Win) else None
    else if d.gamblerBlackjack then Some(Win) else None
  }

  /** Whether play_pre_turn turns the dealer's hidden card over. */
  predicate RevealsDealer(d: PreTurn) {
    d.dealerBlackjack && (if d.showingAce then !d.gamblerBlackjack else d.showingFace)
  }

  /**
   * Without a dealer blackjack the pre-turn settles exactly the hands totalling 21:
   * even money when it was taken, a win otherwise. Every other hand is played.
   */
  lemma PreTurnWithoutDealerBlackjack(d: PreTurn)
    requires !d.dealerBlackjack
    ensures PreTurnOutcome(d).Some? <==> d.gamblerBlackjack
    ensures d.gamblerBlackjack ==>
              PreTurnOutcome(d) == (if d.showingAce && d.tookEvenMoney then Some(EvenMoney) else Some(Win))
    ensures !RevealsDealer(d)
  {
  }

  /** A dealer blackjack behind an ace or a ten ends the hand before it is played, whatever was answered. */
  lemma PreTurnWithDealerBlackjack(d: PreTurn)
    requires d.dealerBlackjack && (d.showingAce || d.showingFace)
    ensures PreTurnOutcome(d).Some?
    ensures PreTurnOutcome(d) != Some(Win)
    ensures PreTurnOutcome(d) == Some(InsuranceWin) <==> d.showingAce && !d.gamblerBlackjack && d.insured
  {
  }

  // ---------------------------------------------------------------------------
  // Settlement (pay_out_hand, perform_hand_payout, determine_hand_outcome, settle_hand).
  // ---------------------------------------------------------------------------

  /** The payout types pay_out_hand accepts. */
  datatype PayoutType = WagerPayout | BlackjackPayout | InsurancePayout | PushPayout

  /** The credits perform_hand_payout makes. */
  datatype PayoutKind = WinningWager | WagerReclaim | WinningInsurance | InsuranceReclaim

  /** Odds "antecedent:consequent". */
  datatype Odds = Odds(antecedent: int, consequent: int)

  /**
   * perform_hand_payout's amount: a winning credit is the stake times the odds,
   * a reclaim is the stake itself. Winning credits need odds.
   */
  function PayoutAmount(kind: PayoutKind, wager: real, insurance: real, odds: Option<Odds>): (amount: real)
    requires kind == WinningWager || kind == WinningInsurance ==> odds.Some? && odds.value.consequent != 0
    ensures kind == WagerReclaim ==> amount == wager
    ensures kind == InsuranceReclaim ==> amount == insurance
    ensures kind == WinningWager && odds.value.antecedent == odds.value.consequent ==> amount == wager
    ensures kind == WinningWager && odds == Some(Odds(3, 2)) ==> amount == 3.0 * wager / 2.0
    ensures kind == WinningInsurance && odds == Some(Odds(2, 1)) ==> amount == 2.0 * insurance
  {
    match kind
    case WinningWager => wager * odds.value.antecedent as real / odds.value.consequent as real
    case WagerReclaim => wager
    case WinningInsurance => insurance * odds.value.antecedent as real / odds.value.consequent as real
    case InsuranceReclaim => insurance
  }

  /**
   * The whole credit of a payout type, stake included: a win pays 1:1, a
   * blackjack 3:2, insurance 2:1, a push returns the wager.
   */
  function PayoutTotal(t: PayoutType, wager: real, insurance: real): real {
    match t
    case WagerPayout => 2.0 * wager
    case BlackjackPayout => 5.0 * wager / 2.0
    case InsurancePayout => 3.0 * insurance
    case PushPayout => wager
  }

  /** determine_hand_outcome: a busted hand loses, then a busted dealer loses, then totals decide. */
  function Showdown(status: Status, total: int, dealerStatus: Status, dealerTotal: int): (o: Outcome)
    ensures o == Win <==> status != Busted && (dealerStatus == Busted || total > dealerTotal)
    ensures o == Push <==> status != Busted && dealerStatus != Busted && total == dealerTotal
    ensures o == Loss <==> status == Busted || (dealerStatus != Busted && total < dealerTotal)
  {
    if status == Busted then Loss
    else if dealerStatus == Busted then Win
    else if total > dealerTotal then Win
    else if total == dealerTotal then Push
    else Loss
  }

  /** What settle_hand credits for a hand with a known outcome. */
  function Settlement(o: Outcome, status: Status, total: int, wager: real, insurance: real): real {
    match o
    case Win => if status == Blackjack || total == 21 then PayoutTotal(BlackjackPayout, wager, insurance)
                else PayoutTotal(WagerPayout, wager, insurance)
    case Push => PayoutTotal(PushPayout, wager, insurance)
    case EvenMoney => PayoutTotal(WagerPayout, wager, insurance)
    case InsuranceWin => PayoutTotal(InsurancePayout, wager, insurance)
    case Loss => 0.0
    case Surrender => 0.0
  }

  /**
   * Measured against the stake taken at the deal, a win nets the wager, a win on
   * 21 one and a half wagers, a push and even money what the table says, a loss
   * the whole wager; insurance of half the wager makes a dealer blackjack a wash.
   */
  lemma SettlementNet(status: Status, total: int, w: real)
    ensures Settlement(Win, status, total, w, 0.0) - w == (if status == Blackjack || total == 21 then 3.0 * w / 2.0 else w)
    ensures Settlement(Push, status, total, w, 0.0) - w == 0.0
    ensures Settlement(EvenMoney, status, total, w, 0.0) - w == w
    ensures Settlement(Loss, status, total, w, 0.0) - w == -w
    ensures Settlement(InsuranceWin, status, total, w, w / 2.0) - w - w / 2.0 == 0.0
  {
  }

  /**
   * A surrender costs one and a half wagers: the wager staked at the deal, half a
   * wager more taken by the surrender, and nothing credited back when the hand is
   * settled, whatever status the total check leaves on it.
   */
  lemma SurrenderCost(s: Seat, lines: seq<string>, insurance: real)
    requires IsTotalHand(s.cards) && s.status == Playing
    ensures var step := ActionStep(SurrenderAction, s, lines);
            var after := step.1;
            step.0.Ok? && after.outcome == Some(Surrender) && after.wager == s.wager
            && (s.bankroll + s.wager)
               - (after.bankroll + Settlement(after.outcome.value, after.status, FinalTotal(after.cards), after.wager, insurance))
               == 3.0 * s.wager / 2.0
  {
    TotalHandTotal(s.cards);
  }

  // ---------------------------------------------------------------------------
  // The controller.
  // ---------------------------------------------------------------------------

  /** `k` is the first of the proposed amounts that the bankroll covers. */
  ghost predicate FirstAffordable(amounts: seq<real>, bankroll: real, k: int) {
    0 <= k < |amounts| && amounts[k] <= bankroll && forall j :: 0 <= j < k ==> amounts[j] > bankroll
  }

  /**
   * The money a hand's play may move: none, a second wager (a double), or half the
   * wager more (a surrender).
   */
  ghost predicate Ledger(bankroll0: real, wager0: real, bankroll: real, wager: real) {
    (bankroll == bankroll0 && wager == wager0)
    || (wager == 2.0 * wager0 && bankroll == bankroll0 - wager0)
    || (wager == wager0 && bankroll == bankroll0 - wager0 / 2.0)
  }

  /** The actions play_gambler_hand knows. */
  datatype Action = HitAction | StandAction | DoubleAction | SplitAction | SurrenderAction

  /** The action a strategy's answer names; None for a name play_gambler_hand does not handle. */
  function ActionOf(name: string): (a: Option<Action>)
    ensures a == Some(HitAction) <==> name == "Hit"
    ensures a == Some(StandAction) <==> name == "Stand"
    ensures a == Some(DoubleAction) <==> name == "Double"
    ensures a == Some(SplitAction) <==> name == "Split"
    ensures a == Some(SurrenderAction) <==> name == "Surrender"
  {
    if name == "Hit" then Some(HitAction)
    else if name == "Stand" then Some(StandAction)
    else if name == "Double" then Some(DoubleAction)
    else if name == "Split" then Some(SplitAction)
    else if name == "Surrender" then Some(SurrenderAction)
    else None
  }

  /**
   * The entries deal reads from `lines`: the first rank entry gives the up card
   * (in whatever suit was drawn), the first total entry after it the gambler's
   * total, and `rest` is what is left to read.
   */
  predicate DealtFrom(lines: seq<string>, up: Card, total: int, rest: seq<string>) {
    match FirstAccepted(IsRankEntry, lines)
    case None => false
    case Some(card) =>
      IsRankEntry(card.line) && up == EnteredCard(up.suit, card.line)
      && match FirstAccepted(IsTotalEntry, card.rest)
         case None => false
         case Some(entry) => IsTotalEntry(entry.line) && rest == entry.rest && total == EnteredTotal(entry.line)
  }

  /** How a turn of play ended. */
  datatype TurnEnd = Settled | StatusReported(text: StatusText) | CashedOut

  /** A gambler hand and the bankroll behind it, as one action finds or leaves them. */
  datatype Seat = Seat(cards: seq<Card>, status: Status, outcome: Option<Outcome>, wager: real, bankroll: real)

  /**
   * Where one step of play may leave a playing hand: the money moved is none, a
   * second wager or half a wager; the hand is never Pending; and when the step
   * succeeds, a hand still playing has moved no money, a hand without an outcome
   * is playing, stood or doubled, and a busted hand has lost.
   */
  ghost predicate Acted(before: Seat, after: Seat, ok: bool) {
    Ledger(before.bankroll, before.wager, after.bankroll, after.wager)
    && (after.status == Doubled ==> after.wager == 2.0 * before.wager && after.bankroll == before.bankroll - before.wager)
    && after.status != Pending
    && (ok && after.status == Playing ==>
          after.outcome == None && after.bankroll == before.bankroll && after.wager == before.wager)
    && (ok && after.outcome == None ==> after.status == Playing || after.status == Stood || after.status == Doubled)
    && (ok && after.status == Busted ==> after.outcome == Some(Loss))
  }

  /**
   * The dealer's turn read its final total from `lines`, leaving `rest`: the hand
   * holds the up card and a card for the rest of the first acceptable total, worth
   * that total when it is at most 21, and it is Busted above 21 and Stood otherwise;
   * when input runs out the hand holds the up card alone.
   */
  predicate DealerFinished(lines: seq<string>, up: Card, rest: seq<string>, cards: seq<Card>, status: Status, r: Result<()>) {
    up.value.Points?
    && match FirstAccepted(DealerTotalTest(up.value.n), lines)
       case None => r == Err(InputExhausted) && rest == [] && cards == [up]
       case Some(e) =>
         r.Ok? && rest == e.rest && IsDealerTotalEntry(e.line, up.value.n)
         && var total := EnteredDealerTotal(e.line, up.value.n);
            cards == [up] + [HiddenCard(total, up)] && status == (if total > 21 then Busted else Stood)
            && Scorable(cards) && (total <= 21 ==> FinalTotal(cards) == total)
  }

  /** The dealer's hand built from the first acceptable total is the one DealerFinished describes. */
  lemma DealerFinishedByEntry(lines: seq<string>, up: Card, e: Entry)
    requires IsUpCard(up) && FirstAccepted(DealerTotalTest(up.value.n), lines) == Some(e)
    requires IsDealerTotalEntry(e.line, up.value.n)
    ensures var total := EnteredDealerTotal(e.line, up.value.n);
            DealerFinished(lines, up, e.rest, [up] + [HiddenCard(total, up)], if total > 21 then Busted else Stood, Ok(()))
            && IsDealerCards([up] + [HiddenCard(total, up)])
  {
    var total := EnteredDealerTotal(e.line, up.value.n);
    assert [up] + [HiddenCard(total, up)] == [up, HiddenCard(total, up)];
    DealerTotalRecovered(up, total);
  }

  /**
   * hit_hand on `cards`, reading from `lines`: the cards become the card of the
   * first acceptable total, or stay when input runs out first; with what is left
   * to read.
   */
  function Retotal(cards: seq<Card>, lines: seq<string>): (result: (Result<()>, seq<Card>, seq<string>))
    ensures IsTotalHand(cards) ==> IsTotalHand(result.1)
    ensures |result.2| <= |lines|
  {
    match FirstAccepted(IsTotalEntry, lines)
    case None => (Err(InputExhausted), cards, [])
    case Some(e) => (Ok(()), CreateDummyHand(EnteredTotal(e.line)), e.rest)
  }

  // ---------------------------------------------------------------------------
  // One pass of play_gambler_hand's loop, and the whole loop, on a seat and the
  // input they read: the operator's lines and the strategy's scripted actions.
  // ---------------------------------------------------------------------------

  /**
   * An action on a seat: Hit retotals; Stand stands; Double raises when the
   * bankroll does not cover a second wager, and otherwise places it, retotals and
   * marks the hand Doubled when the total was read; Split changes nothing;
   * Surrender takes half the wager off the bankroll and ends the hand.
   */
  function ActionOutcome(action: Action, s: Seat, lines: seq<string>): (result: (Result<()>, Seat, seq<string>))
    ensures IsTotalHand(s.cards) ==> IsTotalHand(result.1.cards)
    ensures |result.2| <= |lines|
  {
    match action
    case HitAction =>
      var hit := Retotal(s.cards, lines);
      (hit.0, s.(cards := hit.1), hit.2)
    case StandAction =>
      (Ok(()), s.(status := Stood), lines)
    case DoubleAction =>
      if s.wager > s.bankroll then (Err(InsufficientBankroll), s, lines)
      else DoubledWith(s, Retotal(s.cards, lines))
    case SplitAction =>
      (Ok(()), s, lines)
    case SurrenderAction =>
      (Ok(()), s.(status := Surrendered, outcome := Some(Surrender), bankroll := s.bankroll - s.wager / 2.0), lines)
  }

  /**
   * A double once the second wager is placed: the wager is doubled out of the
   * bankroll, the hit's cards and remaining lines are taken, and the hand is
   * Doubled when the hit read its total.
   */
  function DoubledWith(s: Seat, hit: (Result<()>, seq<Card>, seq<string>)): (Result<()>, Seat, seq<string>) {
    (hit.0, s.(cards := hit.1, wager := s.wager + s.wager, bankroll := s.bankroll - s.wager,
               status := if hit.0.Ok? then Doubled else s.status), hit.2)
  }

  /** A seat left as double_hand leaves it, once the second wager is placed, is the one DoubledWith gives. */
  lemma DoubledSeat(s: Seat, hit: (Result<()>, seq<Card>, seq<string>), r: Result<()>, after: Seat, rest: seq<string>)
    requires after.outcome == s.outcome && (r, after.cards, rest) == hit
    requires after.wager == s.wager + s.wager && after.bankroll == s.bankroll - s.wager
    requires after.status == (if r.Ok? then Doubled else s.status)
    ensures (r, after, rest) == DoubledWith(s, hit)
  {
  }

  /** The check after an action: a total of 21 stands, a total above 21 busts and loses. */
  function TotalChecked(s: Seat): Seat
    requires Scorable(s.cards)
  {
    if FinalTotal(s.cards) == 21 then s.(status := Stood)
    else if FinalTotal(s.cards) > 21 then s.(status := Busted, outcome := Some(Loss))
    else s
  }

  /** An action followed, when it succeeded, by the check on the total. */
  function ActionStep(action: Action, s: Seat, lines: seq<string>): (result: (Result<()>, Seat, seq<string>))
    requires IsTotalHand(s.cards)
    ensures IsTotalHand(result.1.cards) && |result.2| <= |lines|
  {
    var acted := ActionOutcome(action, s, lines);
    if acted.0.Err? then acted else (acted.0, TotalChecked(acted.1), acted.2)
  }

  /**
   * The action half of a pass: the strategy's next action name, then a line to
   * confirm it; either running out raises, an unknown name raises
   * UnhandledAction and leaves the seat, a known one is carried out.
   */
  function ActStep(s: Seat, lines: seq<string>, actions: seq<string>): (result: (Result<()>, Seat, seq<string>, seq<string>))
    requires IsTotalHand(s.cards)
    ensures IsTotalHand(result.1.cards) && |result.2| <= |lines|
    ensures result.0.Ok? ==> |result.2| < |lines|
  {
    if actions == [] then (Err(InputExhausted), s, lines, [])
    else if lines == [] then (Err(InputExhausted), s, [], actions[1..])
    else match ActionOf(actions[0])
      case None => (Err(UnhandledAction), s, lines[1..], actions[1..])
      case Some(action) =>
        var step := ActionStep(action, s, lines[1..]);
        (step.0, step.1, step.2, actions[1..])
  }

  /**
   * The status half of a pass, on check_for_status_text's answer: a reported
   * status text marks the seat and decides the hand (true); no text leaves the
   * seat (false); an answer that raised leaves the seat and raises.
   */
  function StatusPass(s: Seat, answer: Result<Option<StatusText>>): (Result<bool>, Seat)
  {
    if answer.Err? then (Err(answer.fault), s)
    else if answer.value.None? then (Ok(false), s)
    else (Ok(true), s.(status := TextMark(answer.value.value).0, outcome := Some(TextMark(answer.value.value).1)))
  }

  /**
   * A pass once check_for_status_text has given `answer` and left `rest` to read:
   * the status half, and unless it decided the hand or raised, the action half,
   * after which the loop goes on (false).
   */
  function PassAfter(s: Seat, answer: Result<Option<StatusText>>, rest: seq<string>, actions: seq<string>)
    : (result: (Result<bool>, Seat, seq<string>, seq<string>))
    requires IsTotalHand(s.cards)
    ensures IsTotalHand(result.1.cards) && |result.2| <= |rest|
    ensures result.0.Ok? ==> answer.Ok?
  {
    var status := StatusPass(s, answer);
    if status.0 != Ok(false) then (status.0, status.1, rest, actions)
    else
      var act := ActStep(s, rest, actions);
      (if act.0.Ok? then Ok(false) else Err(act.0.fault), act.1, act.2, act.3)
  }

  /** One pass of the loop after the blackjack check, reading `lines` and the strategy's `actions`. */
  function PlayPass(s: Seat, lines: seq<string>, actions: seq<string>): (result: (Result<bool>, Seat, seq<string>, seq<string>))
    requires IsTotalHand(s.cards)
    ensures IsTotalHand(result.1.cards) && |result.2| <= |lines|
    ensures result.0.Ok? ==> |result.2| < |lines|
  {
    var answer := StatusAnswer(lines);
    PassAfter(s, answer.0, answer.1, actions)
  }

  /**
   * play_gambler_hand's loop from a seat: while the hand is Playing, a lone card
   * worth 21 is a winning Blackjack, and otherwise a pass is played; a pass that
   * raises or decides the hand ends the loop.
   */
  function HandPlay(s: Seat, lines: seq<string>, actions: seq<string>): (result: (Result<()>, Seat, seq<string>, seq<string>))
    requires IsTotalHand(s.cards)
    ensures IsTotalHand(result.1.cards) && |result.2| <= |lines|
    decreases |lines|, 1
  {
    if s.status != Playing then (Ok(()), s, lines, actions)
    else if |s.cards| == 1 && FinalTotal(s.cards) == 21 then
      (Ok(()), s.(status := Blackjack, outcome := Some(Win)), lines, actions)
    else PassThenPlay(s, lines, actions)
  }

  /** A pass of the loop, then the rest of the loop unless the pass raised or decided the hand. */
  function PassThenPlay(s: Seat, lines: seq<string>, actions: seq<string>): (result: (Result<()>, Seat, seq<string>, seq<string>))
    requires IsTotalHand(s.cards)
    ensures IsTotalHand(result.1.cards) && |result.2| <= |lines|
    decreases |lines|, 0
  {
    var pass := PlayPass(s, lines, actions);
    if pass.0.Err? then (Err(pass.0.fault), pass.1, pass.2, pass.3)
    else if pass.0.value then (Ok(()), pass.1, pass.2, pass.3)
    else HandPlay(pass.1, pass.2, pass.3)
  }

  /** The loop on a playing hand that is not a natural: one pass, then the rest unless the pass ended it. */
  lemma HandPlayPasses(s: Seat, lines: seq<string>, actions: seq<string>)
    requires IsTotalHand(s.cards) && s.status == Playing && !(|s.cards| == 1 && FinalTotal(s.cards) == 21)
    ensures var pass := PlayPass(s, lines, actions);
            HandPlay(s, lines, actions)
            == if pass.0.Err? then (Err(pass.0.fault), pass.1, pass.2, pass.3)
               else if pass.0.value then (Ok(()), pass.1, pass.2, pass.3)
               else HandPlay(pass.1, pass.2, pass.3)
  {
  }

  /**
   * Each action leaves a playing hand as Acted allows: a hit keeps it playing and
   * moves no money, a stand stands, a double places a second wager, a split does
   * nothing and a surrender ends it having given up half the wager.
   */
  lemma ActionOutcomeActed(action: Action, s: Seat, lines: seq<string>)
    requires s.status == Playing && s.outcome == None
    ensures Acted(s, ActionOutcome(action, s, lines).1, ActionOutcome(action, s, lines).0.Ok?)
  {
  }

  /** The check on the total keeps what Acted says of a step: it moves no money and never leaves a hand Pending. */
  lemma TotalCheckedActed(before: Seat, after: Seat, ok: bool)
    requires Scorable(after.cards) && Acted(before, after, ok)
    ensures Acted(before, TotalChecked(after), ok)
  {
  }

  /** One action and the check after it leave a playing hand as Acted allows. */
  lemma ActionStepActed(action: Action, s: Seat, lines: seq<string>)
    requires IsTotalHand(s.cards) && s.status == Playing && s.outcome == None
    ensures Acted(s, ActionStep(action, s, lines).1, ActionStep(action, s, lines).0.Ok?)
  {
    var acted := ActionOutcome(action, s, lines);
    ActionOutcomeActed(action, s, lines);
    if acted.0.Ok? {
      TotalCheckedActed(s, acted.1, true);
    }
  }

  /**
   * The status half moves no money and touches no card: a reported text leaves
   * the hand with an outcome and no longer playing, and otherwise the seat is as
   * it was.
   */
  lemma StatusPassMarks(s: Seat, answer: Result<Option<StatusText>>)
    ensures var status := StatusPass(s, answer);
            status.1.cards == s.cards && status.1.bankroll == s.bankroll && status.1.wager == s.wager
            && (status.0 == Ok(true) ==> status.1.outcome.Some? && status.1.status != Pending && status.1.status != Playing)
            && (status.0 != Ok(true) ==> status.1 == s)
  {
  }

  /** The action half of a pass leaves a playing hand as Acted allows. */
  lemma ActStepActed(s: Seat, lines: seq<string>, actions: seq<string>)
    requires IsTotalHand(s.cards) && s.status == Playing && s.outcome == None
    ensures Acted(s, ActStep(s, lines, actions).1, ActStep(s, lines, actions).0.Ok?)
  {
    if actions != [] && lines != [] && ActionOf(actions[0]).Some? {
      ActionStepActed(ActionOf(actions[0]).value, s, lines[1..]);
    }
  }

  /**
   * A pass leaves a playing hand as Acted allows, and a pass that decides the hand
   * by a status text leaves it with an outcome, no longer playing, and moves no money.
   */
  lemma PassAfterActed(s: Seat, answer: Result<Option<StatusText>>, rest: seq<string>, actions: seq<string>)
    requires IsTotalHand(s.cards) && s.status == Playing && s.outcome == None
    ensures var pass := PassAfter(s, answer, rest, actions);
            Acted(s, pass.1, pass.0.Ok?)
            && (pass.0 == Ok(true) ==>
                  pass.1.outcome.Some? && pass.1.status != Playing
                  && pass.1.bankroll == s.bankroll && pass.1.wager == s.wager)
  {
    StatusPassMarks(s, answer);
    if StatusPass(s, answer).0 == Ok(false) {
      ActStepActed(s, rest, actions);
    }
  }

  /**
   * The whole loop leaves a playing hand as Acted allows: the money moved is none,
   * a second wager or half a wager, and a hand the loop finishes without raising
   * is no longer playing. Money moves only in the pass that ends the loop.
   */
  lemma {:induction false} HandPlayActed(s: Seat, lines: seq<string>, actions: seq<string>)
    requires IsTotalHand(s.cards) && s.status == Playing && s.outcome == None
    ensures var play := HandPlay(s, lines, actions);
            Acted(s, play.1, play.0.Ok?) && (play.0.Ok? ==> play.1.status != Playing)
    decreases |lines|
  {
    if !(|s.cards| == 1 && FinalTotal(s.cards) == 21) {
      var pass := PlayPass(s, lines, actions);
      PassAfterActed(s, StatusAnswer(lines).0, StatusAnswer(lines).1, actions);
      if pass.0 == Ok(false) {
        assert HandPlay(s, lines, actions) == HandPlay(pass.1, pass.2, pass.3);
        if pass.1.status == Playing {
          HandPlayActed(pass.1, pass.2, pass.3);
          ActedThenActed(s, pass.1, HandPlay(pass.1, pass.2, pass.3).1, HandPlay(pass.1, pass.2, pass.3).0.Ok?);
        }
      }
    }
  }

  /** A step that kept the hand playing moved no money, so what the next steps do is what Acted allows from the start. */
  lemma ActedThenActed(s: Seat, mid: Seat, after: Seat, ok: bool)
    requires Acted(s, mid, true) && mid.status == Playing && Acted(mid, after, ok)
    ensures Acted(s, after, ok)
  {
  }

  /** play_gambler_turn on a seat: a pending hand is played through as HandPlay says; any other hand is left alone. */
  ghost function GamblerTurn(s: Seat, lines: seq<string>, actions: seq<string>): (result: (Result<()>, Seat, seq<string>, seq<string>))
    requires IsTotalHand(s.cards)
    ensures IsTotalHand(result.1.cards)
  {
    if s.status == Pending then HandPlay(s.(status := Playing), lines, actions) else (Ok(()), s, lines, actions)
  }

  /**
   * The gambler's turn leaves a pending hand as Acted allows, and a turn that ends
   * without raising leaves it neither pending nor playing.
   */
  lemma GamblerTurnActed(s: Seat, lines: seq<string>, actions: seq<string>)
    requires IsTotalHand(s.cards) && s.status == Pending && s.outcome == None
    ensures var turn := GamblerTurn(s, lines, actions);
            Acted(s, turn.1, turn.0.Ok?) && (turn.0.Ok? ==> turn.1.status != Playing)
  {
    HandPlayActed(s.(status := Playing), lines, actions);
  }

  class GameController {
    const gambler: Gambler
    const dealer: Dealer
    const strategy: Strategy
    const console: Console
    const verbose: bool
    const maxTurns: Option<int>
    var hideDealer: bool
    var dealerPlaying: bool
    var turn: int

    constructor (gambler: Gambler, dealer: Dealer, strategy: Strategy, console: Console,
                 verbose: bool := true, maxTurns: Option<int> := None)
      ensures this.gambler == gambler && this.dealer == dealer && this.strategy == strategy
      ensures this.console == console && this.verbose == verbose && this.maxTurns == maxTurns
      ensures hideDealer && !dealerPlaying && turn == 0
    {
      this.gambler := gambler;
      this.dealer := dealer;
      this.strategy := strategy;
      this.console := console;
      this.verbose := verbose;
      this.maxTurns := maxTurns;
      hideDealer := true;
      dealerPlaying := false;
      turn := 0;
    }

    /**
     * The shape of a turn: at most one gambler hand (splitting is not supported),
     * which has no card yet or one standing for a typed total, and a dealer hand
     * whose first card is a valid up card.
     */
    ghost predicate Valid()
      reads this, gambler, gambler.hands, dealer, dealer.hand
    {
      |gambler.hands| <= 1
      && (|gambler.hands| == 1 ==> IsTotalHand(gambler.hands[0].cards))
      && (dealer.hand != null ==> IsDealerCards(dealer.hand.cards))
    }

    /** Python's truth value of max_turns: set and not zero. */
    predicate TurnCapped()
      reads this
    {
      maxTurns.Some? && maxTurns.value != 0
    }

    /** play_condition: never once the gambler is finished; below the cap when one is set. */
    predicate PlayCondition()
      reads this, gambler
    {
      if gambler.IsFinished() then false
      else if TurnCapped() then turn < maxTurns.value
      else true
    }

    /**
     * A finished gambler (cashed out or out of money) plays no further turn;
     * otherwise a turn is played exactly when no cap is set (none, or 0, which
     * Python reads as false) or the turns played are below the cap.
     */
    lemma PlayConditionIff()
      ensures gambler.autoWager == 0.0 || gambler.bankroll == 0.0 ==> !PlayCondition()
      ensures PlayCondition() <==>
                !gambler.IsFinished() && (maxTurns == None || maxTurns == Some(0) || turn < maxTurns.value)
    {
    }

    /** The hand and the bankroll behind it. */
    function SeatOf(hand: GamblerHand): Seat
      reads hand, gambler
    {
      Seat(hand.cards, hand.status, hand.outcome, hand.wager, gambler.bankroll)
    }

    /**
     * check_for_status_text: a first answer of y/yes asks which text appeared; the
     * upper-cased second answer is returned when it names one of the five texts.
     */
    method CheckForStatusText() returns (r: Result<Option<StatusText>>)
      modifies console`lines
      ensures (r, console.lines) == StatusAnswer(old(console.lines))
    {
      var response :- console.ReadLine();
      if IsAffirmative(response) {
        var status :- console.ReadLine();
        return Ok(StatusTextOf(Upper(Strip(status))));
      }
      return Ok(None);
    }

    /** set_hand_status. */
    method SetHandStatus(hand: GamblerHand, status: Status)
      modifies hand`status
      ensures hand.status == status
    {
      hand.status := status;
    }

    /** set_hand_outcome: records the outcome; a hand still pending becomes played. */
    method SetHandOutcome(hand: GamblerHand, outcome: Outcome)
      modifies hand`outcome, hand`status
      ensures hand.outcome == Some(outcome)
      ensures hand.status == (if old(hand.status) == Pending then Played else old(hand.status))
    {
      hand.outcome := Some(outcome);
      if hand.status == Pending {
        hand.status := Played;
      }
    }

    /**
     * handle_immediate_status: makes an empty hand (with the auto-wager on it) when
     * there is none, writes the status and outcome the text stands for onto the
     * first hand, and gives the dealer a placeholder ten when they have no hand.
     */
    method HandleImmediateStatus(t: StatusText) returns (r: Result<()>)
      requires Valid()
      modifies gambler`hands, gambler`bankroll, gambler.hands, dealer`hand
      ensures old(gambler.hands) != [] ==> r.Ok? && gambler.hands == old(gambler.hands)
                                           && gambler.bankroll == old(gambler.bankroll)
      ensures old(gambler.hands) != [] ==> gambler.hands[0].cards == old(gambler.hands[0].cards)
                                           && gambler.hands[0].wager == old(gambler.hands[0].wager)
                                           && gambler.hands[0].insurance == old(gambler.hands[0].insurance)
                                           && gambler.hands[0].earnings == old(gambler.hands[0].earnings)
                                           && gambler.hands[0].lostInsurance == old(gambler.hands[0].lostInsurance)
      ensures old(gambler.hands) == [] ==> |gambler.hands| == 1 && fresh(gambler.hands[0])
                                           && gambler.hands[0].cards == []
      ensures old(gambler.hands) == [] ==> (r.Ok? <==> gambler.autoWager <= old(gambler.bankroll))
      ensures old(gambler.hands) == [] && r.Ok? ==>
                gambler.hands[0].wager == gambler.autoWager
                && gambler.bankroll == old(gambler.bankroll) - gambler.autoWager
      ensures r.Err? ==> r.fault == InsufficientBankroll && gambler.bankroll == old(gambler.bankroll)
      ensures Valid()
      ensures r.Ok? ==> Overridden(gambler.hands[0], t) && dealer.hand != null
      ensures old(dealer.hand) != null ==> dealer.hand == old(dealer.hand)
      ensures old(dealer.hand) == null && r.Ok? ==>
                fresh(dealer.hand) && dealer.hand.cards == [Card("Spades", "Dummy", Points(10))]
      ensures old(gambler.hands) != [] ==> gambler.hands[0].handNumber == old(gambler.hands[0].handNumber)
    {
      if gambler.hands == [] {
        var blank := new GamblerHand();
        gambler.hands := gambler.hands + [blank];
        var _ :- gambler.PlaceAutoWager();
      }
      var hand := gambler.FirstHand();
      MarkHand(hand, t);
      if dealer.hand == null {
        var dummy := Card("Spades", "Dummy", Points(10));
        assert !IsAce(dummy) by {
          assert dummy.name[0] != "Ace"[0];
        }
        dealer.hand := new DealerHand([dummy]);
      }
      return Ok(());
    }

    /** The status and outcome each status text stands for are written onto the hand. */
    method MarkHand(hand: GamblerHand, t: StatusText)
      modifies hand`status, hand`outcome
      ensures Overridden(hand, t)
    {
      match t {
      case BlackjackText =>
        SetHandStatus(hand, Blackjack);
        SetHandOutcome(hand, Win);
      case PushText =>
        SetHandStatus(hand, Stood);
        SetHandOutcome(hand, Push);
      case WinText =>
        SetHandStatus(hand, Stood);
        SetHandOutcome(hand, Win);
      case BustText =>
        SetHandStatus(hand, Busted);
        SetHandOutcome(hand, Loss);
      case SurrenderText =>
        SetHandStatus(hand, Surrendered);
        SetHandOutcome(hand, Surrender);
      }
    }
  
    /**
     * set_new_auto_wager: zeroes the auto-wager, then asks for amounts until the
     * bankroll covers one, which becomes the auto-wager.
     */
    method SetNewAutoWager() returns (r: Result<()>)
      modifies gambler`autoWager, strategy`newAutoWagers
      ensures r.Ok? ==> exists k :: FirstAffordable(old(strategy.newAutoWagers), gambler.bankroll, k)
                                    && gambler.autoWager == old(strategy.newAutoWagers)[k]
                                    && strategy.newAutoWagers == old(strategy.newAutoWagers)[k + 1..]
      ensures r.Ok? ==> gambler.autoWager <= gambler.bankroll
      ensures r.Err? <==> forall j :: 0 <= j < |old(strategy.newAutoWagers)| ==> old(strategy.newAutoWagers)[j] > gambler.bankroll
      ensures r.Err? ==> r.fault == InputExhausted && gambler.autoWager == 0.0
    {
      gambler.ZeroAutoWager();
      while true
        invariant |strategy.newAutoWagers| <= |old(strategy.newAutoWagers)|
        invariant strategy.newAutoWagers == old(strategy.newAutoWagers)[|old(strategy.newAutoWagers)| - |strategy.newAutoWagers|..]
        invariant forall j :: 0 <= j < |old(strategy.newAutoWagers)| - |strategy.newAutoWagers| ==> old(strategy.newAutoWagers)[j] > gambler.bankroll
        invariant gambler.autoWager == 0.0
        decreases |strategy.newAutoWagers|
      {
        ghost var k := |old(strategy.newAutoWagers)| - |strategy.newAutoWagers|;
        var amount :- strategy.GetNewAutoWager();
        assert amount == old(strategy.newAutoWagers)[k];
        var accepted := gambler.SetNewAutoWager(amount);
        if accepted.Ok? {
          assert FirstAffordable(old(strategy.newAutoWagers), gambler.bankroll, k);
          return Ok(());
        }
      }
    }

    /**
     * check_gambler_wager: an auto-wager the bankroll does not cover is lowered to the
     * bankroll; then the strategy may pick a new one.
     */
    method CheckGamblerWager() returns (r: Result<()>)
      modifies gambler`autoWager, strategy`changeWagerAnswers, strategy`newAutoWagers
      ensures r.Ok? ==> gambler.autoWager <= gambler.bankroll
      ensures old(strategy.changeWagerAnswers) == [] ==> r == Err(InputExhausted)
      ensures r.Ok? && !old(strategy.changeWagerAnswers)[0] ==>
                gambler.autoWager == (if old(gambler.autoWager) <= gambler.bankroll then old(gambler.autoWager) else gambler.bankroll)
                && strategy.newAutoWagers == old(strategy.newAutoWagers)
      ensures r.Ok? && old(strategy.changeWagerAnswers)[0] ==>
                exists k :: FirstAffordable(old(strategy.newAutoWagers), gambler.bankroll, k)
                            && gambler.autoWager == old(strategy.newAutoWagers)[k]
    {
      if !gambler.CanPlaceAutoWager() {
        var lowered := gambler.SetNewAutoWager(gambler.bankroll);
        assert lowered.Ok?;
      }
      var change :- strategy.WantsToChangeWager();
      if change {
        r := SetNewAutoWager();
      } else {
        r := Ok(());
      }
    }

    /** The two prompts of deal: the dealer's up card, then the gambler's total. */
    method ReadDeal() returns (r: Result<(Card, int)>)
      modifies console`lines, console`draws
      ensures |console.lines| <= |old(console.lines)|
      ensures r.Ok? ==> IsUpCard(r.value.0) && 4 <= r.value.1 <= 21
      ensures r.Ok? ==> DealtFrom(old(console.lines), r.value.0, r.value.1, console.lines)
    {
      var up :- GetCardInput(console);
      var total :- GetTotalInput(console);
      return Ok((up, total));
    }

    /** The hands deal makes of the typed entries, and the auto-wager it places. */
    method DealHands(up: Card, total: int) returns (r: Result<()>)
      requires Valid() && gambler.hands == [] && IsUpCard(up) && 4 <= total <= 21
      modifies gambler`hands, gambler`bankroll, dealer`hand, this`hideDealer
      ensures Valid()
      ensures |gambler.hands| == 1 && fresh(gambler.hands[0]) && dealer.hand != null && fresh(dealer.hand)
      ensures gambler.hands[0].cards == CreateDummyHand(total) && dealer.hand.cards == [up]
      ensures dealer.hand.status == Pending
      ensures var hand := gambler.hands[0];
              hand.status == Pending && hand.outcome == None && hand.insurance == 0.0
              && !hand.lostInsurance && hand.earnings == 0.0 && hand.handNumber == 1
      ensures r.Ok? ==> gambler.hands[0].wager == gambler.autoWager
                        && gambler.bankroll == old(gambler.bankroll) - gambler.autoWager && hideDealer
      ensures r.Err? ==> gambler.bankroll == old(gambler.bankroll)
    {
      var cards := CreateDummyHand(total);
      OneCardIsNoBlackjack(cards);
      OneCardIsNoBlackjack([up]);
      var hand := new GamblerHand(cards);
      gambler.hands := gambler.hands + [hand];
      dealer.hand := new DealerHand([up]);
      r := gambler.PlaceAutoWager();
      if r.Ok? {
        hideDealer := true;
      }
    }

    /**
     * deal: the dealer's up card is typed, then the gambler's total; the gambler gets
     * one hand holding the total's card, the dealer a hand holding the up card, and
     * the auto-wager goes onto the gambler's hand.
     */
    method Deal() returns (r: Result<()>)
      requires Valid() && gambler.hands == []
      modifies console`lines, console`draws, gambler`hands, gambler`bankroll, dealer`hand, this`hideDealer
      ensures Valid() && |console.lines| <= |old(console.lines)|
      ensures r.Ok? ==> |gambler.hands| == 1 && fresh(gambler.hands[0]) && dealer.hand != null && fresh(dealer.hand)
      ensures r.Ok? ==> var total := FinalTotal(gambler.hands[0].cards);
                        DealtFrom(old(console.lines), dealer.hand.cards[0], total, console.lines)
                        && gambler.hands[0].cards == CreateDummyHand(total)
      ensures r.Ok? ==> |dealer.hand.cards| == 1 && dealer.hand.status == Pending
      ensures r.Ok? ==> var hand := gambler.hands[0];
                        hand.status == Pending && hand.outcome == None && hand.insurance == 0.0
                        && hand.wager == gambler.autoWager && !hand.lostInsurance && hand.earnings == 0.0
                        && hand.handNumber == 1
      ensures r.Ok? ==> gambler.bankroll == old(gambler.bankroll) - gambler.autoWager && hideDealer
      ensures r.Err? ==> gambler.bankroll == old(gambler.bankroll)
    {
      var entries :- ReadDeal();
      r := DealHands(entries.0, entries.1);
    }

    /**
     * play_pre_turn: with an ace up, a 21 may take even money (else it pushes against
     * a dealer blackjack and wins otherwise), and any other hand may buy insurance
     * if the bankroll covers half the wager; with a ten up, a dealer blackjack pushes
     * a 21 and beats anything else; a 21 against any other up card wins. The dealer
     * blackjack check looks at the dealer's hand as it stands.
     */
    method PlayPreTurn() returns (r: Result<PreTurn>)
      requires Valid() && |gambler.hands| == 1 && dealer.hand != null
      modifies strategy`evenMoneyAnswers, strategy`insuranceAnswers, gambler`bankroll, this`hideDealer
      modifies (gambler.hands[0] as GamblerHand)`outcome, (gambler.hands[0] as GamblerHand)`status
      modifies (gambler.hands[0] as GamblerHand)`insurance, (gambler.hands[0] as GamblerHand)`lostInsurance
      ensures Valid()
      ensures r.Ok? ==> var d := r.value; var hand := gambler.hands[0];
                d.gamblerBlackjack == (FinalTotal(hand.cards) == 21)
                && d.dealerBlackjack == IsBlackjack(dealer.hand.cards)
                && d.showingAce == IsAce(dealer.hand.cards[0])
                && d.showingFace == (dealer.hand.cards[0].value == Points(10))
      ensures r.Ok? && |dealer.hand.cards| == 1 ==> !r.value.dealerBlackjack
      ensures r.Ok? ==> var d := r.value;
                if d.showingAce && d.gamblerBlackjack then
                  old(strategy.evenMoneyAnswers) != [] && d.tookEvenMoney == old(strategy.evenMoneyAnswers)[0]
                  && strategy.evenMoneyAnswers == old(strategy.evenMoneyAnswers)[1..]
                else !d.tookEvenMoney && strategy.evenMoneyAnswers == old(strategy.evenMoneyAnswers)
      ensures r.Ok? ==> var d := r.value;
                if d.showingAce && !d.gamblerBlackjack && old(gambler.hands[0].wager) / 2.0 <= old(gambler.bankroll) then
                  old(strategy.insuranceAnswers) != [] && d.insured == old(strategy.insuranceAnswers)[0]
                  && strategy.insuranceAnswers == old(strategy.insuranceAnswers)[1..]
                else !d.insured && strategy.insuranceAnswers == old(strategy.insuranceAnswers)
      ensures r.Ok? ==> var d := r.value; var hand := gambler.hands[0]; var o := PreTurnOutcome(d);
                hand.outcome == (if o.Some? then o else old(hand.outcome))
                && hand.status == (if o.Some? && old(hand.status) == Pending then Played else old(hand.status))
      ensures r.Ok? ==> var d := r.value; var hand := gambler.hands[0];
                if d.insured then
                  hand.insurance == old(hand.wager) / 2.0 && gambler.bankroll == old(gambler.bankroll) - hand.insurance
                else hand.insurance == old(hand.insurance) && gambler.bankroll == old(gambler.bankroll)
      ensures r.Ok? ==> var d := r.value;
                gambler.hands[0].lostInsurance == (old(gambler.hands[0].lostInsurance) || (d.insured && !d.dealerBlackjack))
                && hideDealer == (if RevealsDealer(d) then false else old(hideDealer))
    {
      var hand := gambler.FirstHand();
      var gamblerBlackjack := FinalTotal(hand.cards) == 21;
      var dealerBlackjack := IsBlackjack(dealer.hand.cards);
      if |dealer.hand.cards| == 1 {
        OneCardIsNoBlackjack(dealer.hand.cards);
      }
      var showingAce := dealer.IsShowingAce();
      var showingFace := dealer.IsShowingFaceCard();
      if showingAce {
        r := PreTurnAgainstAce(hand, gamblerBlackjack, dealerBlackjack, showingFace);
        return;
      }
      if showingFace {
        if dealerBlackjack {
          hideDealer := false;
          if gamblerBlackjack {
            SetHandOutcome(hand, Push);
          } else {
            SetHandOutcome(hand, Loss);
          }
        } else if gamblerBlackjack {
          SetHandOutcome(hand, Win);
        }
      } else if gamblerBlackjack {
        SetHandOutcome(hand, Win);
      }
      return Ok(PreTurn(gamblerBlackjack, dealerBlackjack, false, showingFace, false, false));
    }

    /**
     * The ace-up part of play_pre_turn: a 21 is offered even money; any other hand
     * is offered insurance when the bankroll covers half the wager.
     */
    method PreTurnAgainstAce(hand: GamblerHand, gamblerBlackjack: bool, dealerBlackjack: bool, showingFace: bool)
      returns (r: Result<PreTurn>)
      requires gambler.hands == [hand]
      modifies strategy`evenMoneyAnswers, strategy`insuranceAnswers, gambler`bankroll, this`hideDealer
      modifies hand`outcome, hand`status, hand`insurance, hand`lostInsurance
      ensures r.Ok? ==> r.value.gamblerBlackjack == gamblerBlackjack && r.value.dealerBlackjack == dealerBlackjack
                        && r.value.showingAce && r.value.showingFace == showingFace
      ensures r.Ok? ==> var d := r.value;
                if d.gamblerBlackjack then
                  old(strategy.evenMoneyAnswers) != [] && d.tookEvenMoney == old(strategy.evenMoneyAnswers)[0]
                  && strategy.evenMoneyAnswers == old(strategy.evenMoneyAnswers)[1..]
                else !d.tookEvenMoney && strategy.evenMoneyAnswers == old(strategy.evenMoneyAnswers)
      ensures r.Ok? ==> var d := r.value;
                if !d.gamblerBlackjack && old(hand.wager) / 2.0 <= old(gambler.bankroll) then
                  old(strategy.insuranceAnswers) != [] && d.insured == old(strategy.insuranceAnswers)[0]
                  && strategy.insuranceAnswers == old(strategy.insuranceAnswers)[1..]
                else !d.insured && strategy.insuranceAnswers == old(strategy.insuranceAnswers)
      ensures r.Ok? ==> var o := PreTurnOutcome(r.value);
                hand.outcome == (if o.Some? then o else old(hand.outcome))
                && hand.status == (if o.Some? && old(hand.status) == Pending then Played else old(hand.status))
      ensures r.Ok? ==> var d := r.value;
                if d.insured then
                  hand.insurance == old(hand.wager) / 2.0 && gambler.bankroll == old(gambler.bankroll) - hand.insurance
                else hand.insurance == old(hand.insurance) && gambler.bankroll == old(gambler.bankroll)
      ensures r.Ok? ==> var d := r.value;
                hand.lostInsurance == (old(hand.lostInsurance) || (d.insured && !d.dealerBlackjack))
                && hideDealer == (if RevealsDealer(d) then false else old(hideDealer))
    {
      var tookEvenMoney, insured := false, false;
      if gamblerBlackjack {
        tookEvenMoney :- strategy.WantsEvenMoney();
        if tookEvenMoney {
          SetHandOutcome(hand, EvenMoney);
        } else if dealerBlackjack {
          SetHandOutcome(hand, Push);
        } else {
          SetHandOutcome(hand, Win);
        }
      } else {
        var canAfford := gambler.CanPlaceInsuranceWager();
        if canAfford {
          insured :- strategy.WantsInsurance();
        }
        if insured {
          var placed := gambler.PlaceInsuranceWager();
          assert placed.Ok?;
          if dealerBlackjack {
            hideDealer := false;
            SetHandOutcome(hand, InsuranceWin);
          } else {
            hand.lostInsurance := true;
          }
        } else if dealerBlackjack {
          hideDealer := false;
          SetHandOutcome(hand, Loss);
        }
      }
      return Ok(PreTurn(gamblerBlackjack, dealerBlackjack, true, showingFace, tookEvenMoney, insured));
    }

    /**
     * get_hand_options: Hit and Stand, in that order, and Double as a third option
     * exactly when the hand holds one card and the bankroll covers its wager again.
     * Split and Surrender are never offered.
     */
    function HandOptions(hand: GamblerHand): (options: seq<(string, string)>)
      reads gambler, hand
      ensures 2 <= |options| <= 3 && options[0] == ("h", "Hit") && options[1] == ("s", "Stand")
      ensures |options| == 3 <==> |hand.cards| == 1 && gambler.CanPlaceWager(hand.wager)
      ensures |options| == 3 ==> options[2] == ("d", "Double")
      ensures forall i, j :: 0 <= i < j < |options| ==> options[i].0 != options[j].0
      ensures forall i :: 0 <= i < |options| ==> options[i].1 != "Split" && options[i].1 != "Surrender"
    {
      var options := [("h", "Hit"), ("s", "Stand")];
      if |hand.cards| == 1 && gambler.CanPlaceWager(hand.wager) then options + [("d", "Double")] else options
    }

    /** hit_hand: the hand's cards become the dummy card of the next total typed. */
    method HitHand(hand: GamblerHand) returns (r: Result<()>)
      modifies console`lines, hand`cards
      ensures (r, hand.cards, console.lines) == Retotal(old(hand.cards), old(console.lines))
    {
      var total :- GetTotalInput(console);
      hand.cards := CreateDummyHand(total);
      return Ok(());
    }

    /**
     * double_hand: a second wager equal to the first goes on the hand, then the
     * next total typed replaces the cards and the hand is Doubled. When the bankroll
     * does not cover the second wager nothing changes.
     */
    method DoubleHand(hand: GamblerHand) returns (r: Result<()>)
      modifies gambler`bankroll, hand`wager, hand`cards, hand`status, console`lines
      ensures old(hand.wager) > old(gambler.bankroll) ==>
                r == Err(InsufficientBankroll) && gambler.bankroll == old(gambler.bankroll)
                && hand.wager == old(hand.wager) && hand.cards == old(hand.cards)
                && hand.status == old(hand.status) && console.lines == old(console.lines)
      ensures old(hand.wager) <= old(gambler.bankroll) ==>
                hand.wager == old(hand.wager) + old(hand.wager) && gambler.bankroll == old(gambler.bankroll) - old(hand.wager)
                && (r, hand.cards, console.lines) == Retotal(old(hand.cards), old(console.lines))
                && hand.status == (if r.Ok? then Doubled else old(hand.status))
    {
      var placed := gambler.PlaceHandWager(hand.wager, hand);
      if placed.Err? {
        return Err(placed.fault);
      }
      // The new total is read and stands in for the cards exactly as in hit_hand.
      r := HitHand(hand);
      if r.Ok? {
        SetHandStatus(hand, Doubled);
      }
    }

    /**
     * handle_surrender: half the wager comes off the bankroll, unchecked, and the
     * hand is Surrendered with that outcome.
     */
    method HandleSurrender(hand: GamblerHand)
      modifies gambler`bankroll, hand`status, hand`outcome
      ensures gambler.bankroll == old(gambler.bankroll) - hand.wager / 2.0
      ensures hand.status == Surrendered && hand.outcome == Some(Surrender)
    {
      gambler.bankroll := gambler.bankroll - hand.wager / 2.0;
      SetHandStatus(hand, Surrendered);
      SetHandOutcome(hand, Surrender);
    }

    /**
     * One action of play_gambler_hand: Hit and Double take a new total, Stand
     * stands, Split does nothing and Surrender gives up half the wager.
     */
    method ApplyAction(hand: GamblerHand, action: Action) returns (r: Result<()>)
      modifies gambler`bankroll, hand`wager, hand`cards, hand`status, hand`outcome, console`lines
      ensures (r, SeatOf(hand), console.lines) == ActionOutcome(action, old(SeatOf(hand)), old(console.lines))
    {
      match action {
      case HitAction =>
        r := HitHand(hand);
      case StandAction =>
        SetHandStatus(hand, Stood);
        r := Ok(());
      case DoubleAction =>
        ghost var seat, hit := SeatOf(hand), Retotal(hand.cards, console.lines);
        r := DoubleHand(hand);
        if seat.wager <= seat.bankroll {
          DoubledSeat(seat, hit, r, SeatOf(hand), console.lines);
        }
      case SplitAction =>
        // split_hand only logs that splitting is not supported.
        r := Ok(());
      case SurrenderAction =>
        HandleSurrender(hand);
        r := Ok(());
      }
    }

    /** The check after each action: a total of 21 stands, a total above 21 busts and loses. */
    method CheckTotalAfterAction(hand: GamblerHand)
      requires Scorable(hand.cards)
      modifies hand`status, hand`outcome
      ensures FinalTotal(hand.cards) == 21 ==> hand.status == Stood && hand.outcome == old(hand.outcome)
      ensures FinalTotal(hand.cards) > 21 ==> hand.status == Busted && hand.outcome == Some(Loss)
      ensures FinalTotal(hand.cards) < 21 ==> hand.status == old(hand.status) && hand.outcome == old(hand.outcome)
    {
      var total := FinalTotal(hand.cards);
      if total == 21 {
        SetHandStatus(hand, Stood);
      } else if total > 21 {
        SetHandStatus(hand, Busted);
        SetHandOutcome(hand, Loss);
      }
    }

    /**
     * The action half of a pass of play_gambler_hand's loop: the strategy picks
     * from the options, the operator confirms, the action is carried out (an
     * unknown name raises) and the total is checked.
     */
    method ActOnHand(hand: GamblerHand) returns (r: Result<()>)
      requires Valid() && gambler.hands == [hand] && dealer.hand != null
      modifies gambler`bankroll, hand`wager, hand`cards, hand`status, hand`outcome, console`lines, strategy`actions
      ensures Valid()
      ensures (r, SeatOf(hand), console.lines, strategy.actions)
              == ActStep(old(SeatOf(hand)), old(console.lines), old(strategy.actions))
    {
      var options := HandOptions(hand);
      var action :- strategy.GetHandAction(hand, options, dealer.UpCard());
      var _ :- console.ReadLine();
      var known := ActionOf(action);
      if known.None? {
        return Err(UnhandledAction);
      }
      r := TakeAction(hand, known.value);
    }

    /** A known action is carried out, then the new total is checked for 21 or a bust. */
    method TakeAction(hand: GamblerHand, action: Action) returns (r: Result<()>)
      requires Valid() && gambler.hands == [hand]
      modifies gambler`bankroll, hand`wager, hand`cards, hand`status, hand`outcome, console`lines
      ensures Valid()
      ensures (r, SeatOf(hand), console.lines) == ActionStep(action, old(SeatOf(hand)), old(console.lines))
    {
      var _ :- ApplyAction(hand, action);
      CheckTotalAfterAction(hand);
      return Ok(());
    }

    /**
     * The status-text question of play_gambler_hand's loop: when a status text is
     * reported, handle_immediate_status writes it onto the played hand and true is
     * returned; otherwise the hand is left as it was and false is returned.
     */
    method StatusStep(hand: GamblerHand) returns (r: Result<bool>)
      requires Valid() && gambler.hands == [hand] && dealer.hand != null
      modifies gambler`hands, gambler`bankroll, hand, dealer`hand, console`lines
      ensures Valid() && gambler.hands == [hand] && dealer.hand == old(dealer.hand)
      ensures hand.insurance == old(hand.insurance) && hand.earnings == old(hand.earnings)
              && hand.lostInsurance == old(hand.lostInsurance)
      ensures console.lines == StatusAnswer(old(console.lines)).1
      ensures (r, SeatOf(hand)) == StatusPass(old(SeatOf(hand)), StatusAnswer(old(console.lines)).0)
      ensures hand.handNumber == old(hand.handNumber)
    {
      var text :- CheckForStatusText();
      if text.None? {
        return Ok(false);
      }
      OverrideHand(hand, text.value);
      return Ok(true);
    }

    /** handle_immediate_status during play: the played hand takes the status and outcome the text stands for. */
    method OverrideHand(hand: GamblerHand, t: StatusText)
      requires Valid() && gambler.hands == [hand] && dealer.hand != null
      modifies gambler`hands, gambler`bankroll, hand, dealer`hand
      ensures Valid() && gambler.hands == [hand] && dealer.hand == old(dealer.hand)
      ensures Overridden(hand, t) && hand.cards == old(hand.cards)
      ensures gambler.bankroll == old(gambler.bankroll) && hand.wager == old(hand.wager)
      ensures hand.insurance == old(hand.insurance) && hand.earnings == old(hand.earnings)
              && hand.lostInsurance == old(hand.lostInsurance)
      ensures hand.handNumber == old(hand.handNumber)
    {
      var r := HandleImmediateStatus(t);
      assert r.Ok?;
    }

    /**
     * One pass of play_gambler_hand's loop after the blackjack check: a reported
     * status text decides the hand (true is returned); otherwise the strategy's
     * action is confirmed, carried out, and followed by the check on the total.
     */
    method PlayHandStep(hand: GamblerHand) returns (r: Result<bool>)
      requires Valid() && gambler.hands == [hand] && dealer.hand != null
      modifies gambler`hands, gambler`bankroll, hand, dealer`hand, console`lines, strategy`actions
      ensures Valid() && gambler.hands == [hand] && dealer.hand == old(dealer.hand)
      ensures hand.insurance == old(hand.insurance) && hand.earnings == old(hand.earnings)
              && hand.lostInsurance == old(hand.lostInsurance)
      ensures (r, SeatOf(hand), console.lines, strategy.actions)
              == PlayPass(old(SeatOf(hand)), old(console.lines), old(strategy.actions))
      ensures hand.handNumber == old(hand.handNumber)
    {
      ghost var pass := PlayPass(SeatOf(hand), console.lines, strategy.actions);
      ghost var number := hand.handNumber;
      var decided :- StatusStep(hand);
      if decided {
        return Ok(true);
      }
      assert hand.handNumber == number;
      var acted := ActOnHand(hand);
      assert (if acted.Ok? then Ok(false) else Err(acted.fault), SeatOf(hand), console.lines, strategy.actions) == pass;
      if acted.Err? {
        return Err(acted.fault);
      }
      return Ok(false);
    }

    /**
     * play_gambler_hand: the hand is Playing until an action ends it. A lone card
     * worth 21 is a winning Blackjack; otherwise a status text, if one is reported,
     * decides the hand and the play stops; else the strategy picks an action, the
     * operator confirms it, and after the action a total of 21 stands and a total
     * above 21 busts and loses. Split changes nothing; an unknown action raises.
     */
    method PlayGamblerHand(hand: GamblerHand) returns (r: Result<()>)
      requires Valid() && gambler.hands == [hand] && dealer.hand != null
      requires hand.status == Pending && hand.outcome == None
      modifies gambler`hands, gambler`bankroll, hand, dealer`hand, console`lines, strategy`actions
      ensures Valid() && gambler.hands == [hand] && dealer.hand == old(dealer.hand)
      ensures hand.insurance == old(hand.insurance) && hand.earnings == old(hand.earnings)
              && hand.lostInsurance == old(hand.lostInsurance)
      ensures (r, SeatOf(hand), console.lines, strategy.actions)
              == HandPlay(old(SeatOf(hand)).(status := Playing), old(console.lines), old(strategy.actions))
      ensures hand.handNumber == old(hand.handNumber)
    {
      SetHandStatus(hand, Playing);
      ghost var play := HandPlay(SeatOf(hand), console.lines, strategy.actions);
      assert play == HandPlay(old(SeatOf(hand)).(status := Playing), old(console.lines), old(strategy.actions));
      while hand.status == Playing
        invariant Valid() && gambler.hands == [hand] && dealer.hand == old(dealer.hand)
        invariant hand.insurance == old(hand.insurance) && hand.earnings == old(hand.earnings)
                  && hand.lostInsurance == old(hand.lostInsurance) && hand.handNumber == old(hand.handNumber)
        invariant HandPlay(SeatOf(hand), console.lines, strategy.actions) == play
        decreases |console.lines|
      {
        if |hand.cards| == 1 && FinalTotal(hand.cards) == 21 {
          SetHandStatus(hand, Blackjack);
          SetHandOutcome(hand, Win);
          break;
        }
        ghost var seat, lines, actions := SeatOf(hand), console.lines, strategy.actions;
        HandPlayPasses(seat, lines, actions);
        var decided :- PlayHandStep(hand);
        if decided {
          assert (Ok(()), SeatOf(hand), console.lines, strategy.actions) == play;
          return Ok(());
        }
      }
      assert (Ok(()), SeatOf(hand), console.lines, strategy.actions) == play;
      return Ok(());
    }

    /** Whether some hand of the gambler is still pending. */
    predicate AnyPending()
      reads gambler, gambler.hands
    {
      exists i :: 0 <= i < |gambler.hands| && gambler.hands[i].status == Pending
    }

    /**
     * play_gambler_turn: the dealer's hole card stays hidden and every pending hand
     * is played in turn, as GamblerTurn says; a hand that is not pending is left alone.
     */
    method PlayGamblerTurn() returns (r: Result<()>)
      requires Valid() && dealer.hand != null
      requires |gambler.hands| == 1 ==> (gambler.hands[0].status == Pending <==> gambler.hands[0].outcome == None)
      modifies this`hideDealer, gambler`hands, gambler`bankroll, gambler.hands, dealer`hand, console`lines, strategy`actions
      ensures Valid() && gambler.hands == old(gambler.hands) && dealer.hand == old(dealer.hand) && hideDealer
      ensures gambler.hands == [] ==>
                r.Ok? && gambler.bankroll == old(gambler.bankroll)
                && console.lines == old(console.lines) && strategy.actions == old(strategy.actions)
      ensures |gambler.hands| == 1 ==>
                var hand := gambler.hands[0];
                hand.insurance == old(hand.insurance) && hand.earnings == old(hand.earnings)
                && hand.lostInsurance == old(hand.lostInsurance)
                && (r, SeatOf(hand), console.lines, strategy.actions)
                   == GamblerTurn(old(SeatOf(hand)), old(console.lines), old(strategy.actions))
      ensures r.Ok? ==> !AnyPending()
      ensures |gambler.hands| == 1 ==> gambler.hands[0].handNumber == old(gambler.hands[0].handNumber)
    {
      ghost var seat := if gambler.hands == [] then Seat([], Pending, None, 0.0, 0.0) else SeatOf(gambler.hands[0]);
      ghost var lines, actions := console.lines, strategy.actions;
      hideDealer := true;
      while AnyPending()
        invariant Valid() && gambler.hands == old(gambler.hands) && dealer.hand == old(dealer.hand) && hideDealer
        invariant gambler.hands == [] ==> gambler.bankroll == old(gambler.bankroll) && console.lines == lines && strategy.actions == actions
        invariant |gambler.hands| == 1 ==>
                    var hand := gambler.hands[0];
                    hand.insurance == old(hand.insurance) && hand.earnings == old(hand.earnings)
                    && hand.lostInsurance == old(hand.lostInsurance) && hand.handNumber == old(hand.handNumber)
                    && (hand.status == Pending ==> SeatOf(hand) == seat && console.lines == lines && strategy.actions == actions)
                    && (hand.status != Pending ==>
                          (Ok(()), SeatOf(hand), console.lines, strategy.actions) == GamblerTurn(seat, lines, actions))
        decreases if AnyPending() then 1 else 0
      {
        var hand := gambler.hands[0];
        GamblerTurnActed(seat, lines, actions);
        var _ :- PlayGamblerHand(hand);
      }
      return Ok(());
    }

    /** Whether some hand stood or doubled, so that the dealer's total decides it. */
    predicate AnyAwaitsDealer()
      reads gambler, gambler.hands
    {
      exists i :: 0 <= i < |gambler.hands| && (gambler.hands[i].status == Doubled || gambler.hands[i].status == Stood)
    }

    /**
     * play_dealer_turn: when some hand waits for the dealer, the dealer's hand is cut
     * back to the up card, the dealer's final total is typed (no lower than the up
     * card's value) and a hidden card worth the difference is added; the dealer
     * busts above 21 and stands otherwise, and the hole card is shown.
     */
    method PlayDealerTurn() returns (r: Result<()>)
      requires Valid() && dealer.hand != null
      modifies dealer.hand`cards, dealer.hand`status, console`lines, this`hideDealer, this`dealerPlaying
      ensures Valid() && |console.lines| <= |old(console.lines)|
      ensures !AnyAwaitsDealer() ==>
                r == Ok(()) && !dealerPlaying && dealer.hand.cards == old(dealer.hand.cards)
                && dealer.hand.status == old(dealer.hand.status) && console.lines == old(console.lines)
                && hideDealer == old(hideDealer)
      ensures AnyAwaitsDealer() ==>
                DealerFinished(old(console.lines), old(dealer.hand.cards[0]), console.lines,
                               dealer.hand.cards, dealer.hand.status, r)
                && (r.Ok? ==> !hideDealer && !dealerPlaying)
    {
      if !AnyAwaitsDealer() {
        dealerPlaying := false;
        return Ok(());
      }
      r := FinishDealerHand();
    }

    /**
     * The dealer's final total is typed and the dealer's hand becomes the up card
     * plus a card for the rest; then the hole card is shown.
     */
    method FinishDealerHand() returns (r: Result<()>)
      requires Valid() && dealer.hand != null
      modifies dealer.hand`cards, dealer.hand`status, console`lines, this`hideDealer, this`dealerPlaying
      ensures Valid() && |console.lines| <= |old(console.lines)|
      ensures DealerFinished(old(console.lines), old(dealer.hand.cards[0]), console.lines,
                             dealer.hand.cards, dealer.hand.status, r)
      ensures r.Ok? ==> !hideDealer && !dealerPlaying
    {
      var hand := dealer.hand;
      var up := hand.cards[0];
      hand.cards := [up];
      ghost var lines := console.lines;
      var total := GetDealerTotal(console, up.value.n);
      if total.Err? {
        assert FirstAccepted(DealerTotalTest(up.value.n), lines).None?;
        return Err(total.fault);
      }
      ghost var e := FirstAccepted(DealerTotalTest(up.value.n), lines).value;
      assert total.value == EnteredDealerTotal(e.line, up.value.n) && console.lines == e.rest;
      DealerFinishedByEntry(lines, up, e);
      hand.cards := hand.cards + [HiddenCard(total.value, up)];
      if total.value > 21 {
        hand.status := Busted;
      } else {
        hand.status := Stood;
      }
      hideDealer := false;
      dealerPlaying := false;
      return Ok(());
    }

    /** perform_hand_payout: the amount is credited to the hand's earnings and to the bankroll. */
    method PerformHandPayout(hand: GamblerHand, kind: PayoutKind, odds: Option<Odds>)
      requires kind == WinningWager || kind == WinningInsurance ==> odds.Some? && odds.value.consequent != 0
      modifies hand`earnings, gambler`bankroll
      ensures hand.earnings == old(hand.earnings) + PayoutAmount(kind, hand.wager, hand.insurance, odds)
      ensures gambler.bankroll == old(gambler.bankroll) + PayoutAmount(kind, hand.wager, hand.insurance, odds)
    {
      var amount := PayoutAmount(kind, hand.wager, hand.insurance, odds);
      hand.earnings := hand.earnings + amount;
      gambler.Payout(amount);
    }

    /**
     * pay_out_hand: a win is paid 1:1, a blackjack 3:2 and insurance 2:1, each with
     * its stake returned; a push returns the wager. The credit, stake included, is
     * the payout table's total.
     */
    method PayOutHand(hand: GamblerHand, t: PayoutType)
      modifies hand`earnings, gambler`bankroll
      ensures hand.earnings == old(hand.earnings) + PayoutTotal(t, hand.wager, hand.insurance)
      ensures gambler.bankroll == old(gambler.bankroll) + PayoutTotal(t, hand.wager, hand.insurance)
    {
      match t {
      case WagerPayout =>
        PerformHandPayout(hand, WinningWager, Some(Odds(1, 1)));
        PerformHandPayout(hand, WagerReclaim, None);
      case BlackjackPayout =>
        PerformHandPayout(hand, WinningWager, Some(Odds(3, 2)));
        PerformHandPayout(hand, WagerReclaim, None);
      case InsurancePayout =>
        PerformHandPayout(hand, WinningInsurance, Some(Odds(2, 1)));
        PerformHandPayout(hand, InsuranceReclaim, None);
      case PushPayout =>
        PerformHandPayout(hand, WagerReclaim, None);
      }
    }

    /** determine_hand_outcome: the showdown between the hand and the dealer's hand decides the outcome. */
    method DetermineHandOutcome(hand: GamblerHand, dealerHand: DealerHand)
      requires Scorable(hand.cards) && Scorable(dealerHand.cards)
      modifies hand`outcome, hand`status
      ensures hand.outcome == Some(Showdown(old(hand.status), FinalTotal(hand.cards), dealerHand.status, FinalTotal(dealerHand.cards)))
      ensures hand.status == (if old(hand.status) == Pending then Played else old(hand.status))
    {
      if hand.status == Busted {
        SetHandOutcome(hand, Loss);
      } else if dealerHand.status == Busted {
        SetHandOutcome(hand, Win);
      } else {
        var handTotal := FinalTotal(hand.cards);
        var dealerTotal := FinalTotal(dealerHand.cards);
        if handTotal > dealerTotal {
          SetHandOutcome(hand, Win);
        } else if handTotal == dealerTotal {
          SetHandOutcome(hand, Push);
        } else {
          SetHandOutcome(hand, Loss);
        }
      }
    }

    /**
     * settle_hand: a hand without an outcome is decided against the dealer's hand;
     * then the outcome is paid as the settlement table says (a win on a blackjack
     * or any total of 21 at 3:2).
     */
    method SettleHand(hand: GamblerHand)
      requires Scorable(hand.cards) && dealer.hand != null && Scorable(dealer.hand.cards)
      modifies hand`outcome, hand`status, hand`earnings, gambler`bankroll
      ensures hand.outcome == (if old(hand.outcome).Some? then old(hand.outcome)
                               else Some(Showdown(old(hand.status), FinalTotal(hand.cards),
                                                  dealer.hand.status, FinalTotal(dealer.hand.cards))))
      ensures hand.status == (if old(hand.outcome).None? && old(hand.status) == Pending then Played else old(hand.status))
      ensures var credit := Settlement(hand.outcome.value, hand.status, FinalTotal(hand.cards), hand.wager, hand.insurance);
              hand.earnings == old(hand.earnings) + credit && gambler.bankroll == old(gambler.bankroll) + credit
    {
      if hand.outcome.None? {
        DetermineHandOutcome(hand, dealer.hand);
      }
      match hand.outcome.value {
      case Win =>
        if hand.status == Blackjack || FinalTotal(hand.cards) == 21 {
          PayOutHand(hand, BlackjackPayout);
        } else {
          PayOutHand(hand, WagerPayout);
        }
      case Push =>
        PayOutHand(hand, PushPayout);
      case EvenMoney =>
        PayOutHand(hand, WagerPayout);
      case InsuranceWin =>
        PayOutHand(hand, InsurancePayout);
      case Loss =>
      case Surrender =>
      }
    }

    /** settle_up: every hand of the gambler is settled against the dealer's hand. */
    method SettleUp()
      requires Valid() && dealer.hand != null
      modifies gambler`bankroll, gambler.hands
      ensures Valid()
      ensures gambler.hands == [] ==> gambler.bankroll == old(gambler.bankroll)
      ensures |gambler.hands| == 1 ==>
                var hand := gambler.hands[0];
                hand.cards == old(hand.cards) && hand.wager == old(hand.wager) && hand.insurance == old(hand.insurance)
                && hand.outcome == (if old(hand.outcome).Some? then old(hand.outcome)
                                    else Some(Showdown(old(hand.status), FinalTotal(hand.cards),
                                                       dealer.hand.status, FinalTotal(dealer.hand.cards))))
                && gambler.bankroll == old(gambler.bankroll)
                     + Settlement(hand.outcome.value, hand.status, FinalTotal(hand.cards), hand.wager, hand.insurance)
    {
      for i := 0 to |gambler.hands|
        invariant Valid()
        invariant i == 0 ==> gambler.bankroll == old(gambler.bankroll)
        invariant i == 0 && |gambler.hands| == 1 ==>
                    gambler.hands[0].outcome == old(gambler.hands[0].outcome)
                    && gambler.hands[0].status == old(gambler.hands[0].status)
        invariant |gambler.hands| == 1 ==>
                    var hand := gambler.hands[0];
                    hand.cards == old(hand.cards) && hand.wager == old(hand.wager) && hand.insurance == old(hand.insurance)
        invariant i == 1 ==>
                    var hand := gambler.hands[0];
                    hand.outcome == (if old(hand.outcome).Some? then old(hand.outcome)
                                     else Some(Showdown(old(hand.status), FinalTotal(hand.cards),
                                                        dealer.hand.status, FinalTotal(dealer.hand.cards))))
                    && gambler.bankroll == old(gambler.bankroll)
                         + Settlement(hand.outcome.value, hand.status, FinalTotal(hand.cards), hand.wager, hand.insurance)
      {
        SettleHand(gambler.hands[i]);
      }
    }

    /**
     * finalize_turn: both hands are discarded and the hole card is hidden again for
     * the next turn; a verbose game waits for the operator to rebet.
     */
    method FinalizeTurn() returns (r: Result<()>)
      modifies gambler`hands, dealer`hand, this`hideDealer, console`lines
      ensures gambler.hands == [] && dealer.hand == null && hideDealer && Valid()
      ensures !verbose ==> r == Ok(()) && console.lines == old(console.lines)
      ensures verbose && old(console.lines) == [] ==> r == Err(InputExhausted) && console.lines == []
      ensures verbose && old(console.lines) != [] ==> r == Ok(()) && console.lines == old(console.lines)[1..]
    {
      gambler.DiscardHands();
      dealer.DiscardHand();
      hideDealer := true;
      if verbose {
        var _ :- console.ReadLine();
      }
      return Ok(());
    }

    /**
     * The status check play makes between phases: when a status text is reported it
     * is written onto the hands and the turn is finalized, so the rest of the turn
     * is skipped; otherwise nothing but the answer is consumed.
     */
    method Checkpoint() returns (r: Result<Option<StatusText>>)
      requires Valid()
      modifies console`lines, gambler`hands, gambler`bankroll, gambler.hands, dealer`hand, this`hideDealer
      ensures Valid() && |console.lines| <= |old(console.lines)|
      ensures StatusAnswer(old(console.lines)).0.Err? ==> r.Err?
      ensures r.Ok? ==> r == StatusAnswer(old(console.lines)).0 && |console.lines| < |old(console.lines)|
      ensures r == Ok(None) ==>
                console.lines == StatusAnswer(old(console.lines)).1
                && gambler.hands == old(gambler.hands) && unchanged(gambler.hands) && gambler.bankroll == old(gambler.bankroll)
                && dealer.hand == old(dealer.hand) && hideDealer == old(hideDealer)
      ensures r.Ok? && r.value.Some? ==> gambler.hands == [] && dealer.hand == null && hideDealer
      ensures r.Ok? && r.value.Some? && old(gambler.hands) != [] ==>
                var hand := old(gambler.hands)[0];
                Overridden(hand, r.value.value) && gambler.bankroll == old(gambler.bankroll)
                && hand.cards == old(hand.cards) && hand.wager == old(hand.wager)
                && hand.insurance == old(hand.insurance) && hand.earnings == old(hand.earnings)
      ensures old(gambler.hands) == [] && r.Ok? && r.value.Some? ==>
                gambler.bankroll == old(gambler.bankroll) - gambler.autoWager
      ensures old(gambler.hands) == [] && StatusAnswer(old(console.lines)).0.Ok?
              && StatusAnswer(old(console.lines)).0.value.Some? ==>
                (r == Err(InsufficientBankroll) <==> gambler.autoWager > old(gambler.bankroll))
    {
      var text :- CheckForStatusText();
      if text.Some? {
        var _ :- ReportStatus(text.value);
      }
      return Ok(text);
    }

    /**
     * A reported status text decides the turn: it is written onto the hands and the
     * turn is finalized without settlement, so an existing hand keeps its cards and
     * its money.
     */
    method ReportStatus(t: StatusText) returns (r: Result<()>)
      requires Valid()
      modifies console`lines, gambler`hands, gambler`bankroll, gambler.hands, dealer`hand, this`hideDealer
      ensures Valid() && |console.lines| <= |old(console.lines)|
      ensures r.Ok? ==> gambler.hands == [] && dealer.hand == null && hideDealer
      ensures old(gambler.hands) != [] ==>
                var hand := old(gambler.hands)[0];
                Overridden(hand, t) && gambler.bankroll == old(gambler.bankroll)
                && hand.cards == old(hand.cards) && hand.wager == old(hand.wager)
                && hand.insurance == old(hand.insurance) && hand.earnings == old(hand.earnings)
      ensures old(gambler.hands) == [] && r.Ok? ==> gambler.bankroll == old(gambler.bankroll) - gambler.autoWager
      ensures old(gambler.hands) == [] ==> (r == Err(InsufficientBankroll) <==> gambler.autoWager > old(gambler.bankroll))
    {
      var _ :- HandleImmediateStatus(t);
      r := FinalizeTurn();
    }

    /**
     * One pass of play's loop: the turn counter moves on, the wager is checked (a
     * zero auto-wager cashes out), the hands are dealt and the dealt turn is played,
     * with a status check before the wager and after the deal; every turn that is
     * not cashed out ends with both hands discarded.
     */
    method PlayTurn() returns (r: Result<TurnEnd>)
      requires Valid() && gambler.hands == [] && dealer.hand == null
      modifies this`turn, this`hideDealer, this`dealerPlaying, gambler, dealer`hand, strategy, console
      ensures turn == old(turn) + 1
      ensures r.Ok? ==> Valid() && gambler.hands == [] && dealer.hand == null
      ensures r.Ok? ==> |console.lines| < |old(console.lines)|
      ensures r.Ok? && !r.value.StatusReported? ==> (r.value == CashedOut <==> gambler.autoWager == 0.0)
      ensures r == Ok(CashedOut) ==>
                gambler.IsFinished() && gambler.bankroll == old(gambler.bankroll) && gambler.hands == []
                && console.lines == StatusAnswer(old(console.lines)).1
      ensures r.Ok? && r.value != CashedOut ==> hideDealer
      ensures StatusAnswer(old(console.lines)).0.Err? ==> r.Err?
      ensures var a := StatusAnswer(old(console.lines)).0;
              a.Ok? && a.value.Some? && r.Ok? ==>
                r.value == StatusReported(a.value.value)
                && gambler.bankroll == old(gambler.bankroll) - old(gambler.autoWager)
      ensures StatusAnswer(old(console.lines)).0 == Ok(None) && r.Ok? && r.value != CashedOut ==>
                |console.lines| < |StatusAnswer(old(console.lines)).1|
      ensures StatusAnswer(old(console.lines)).0 == Ok(None) && r.Ok? && r.value != CashedOut ==>
                exists up, total, rest :: DealtFrom(StatusAnswer(old(console.lines)).1, up, total, rest)
                                          && |console.lines| < |rest|
      ensures r == Ok(Settled) ==> exists hand: GamblerHand :: fresh(hand) && hand.outcome.Some?
    {
      turn := turn + 1;
      var text :- Checkpoint();
      if text.Some? {
        return Ok(StatusReported(text.value));
      }
      var _ :- CheckGamblerWager();
      if gambler.autoWager == 0.0 {
        return Ok(CashedOut);
      }
      r := PlayWageredTurn();
    }

    /**
     * A turn once the wager stands: the deal, then the dealt turn. A turn that ends
     * read the up card and the total first, and its fresh hand ends decided: by a
     * reported text, or with an outcome when it was settled.
     */
    method PlayWageredTurn() returns (r: Result<TurnEnd>)
      requires Valid() && gambler.hands == [] && dealer.hand == null
      modifies this`hideDealer, this`dealerPlaying, gambler`hands, gambler`bankroll, dealer`hand
      modifies strategy`evenMoneyAnswers, strategy`insuranceAnswers, strategy`actions, console`lines, console`draws
      ensures r.Ok? ==> Valid() && gambler.hands == [] && dealer.hand == null && hideDealer && r.value != CashedOut
      ensures r.Ok? ==> |console.lines| < |old(console.lines)|
      ensures r.Ok? ==> exists up, total, rest :: DealtFrom(old(console.lines), up, total, rest) && |console.lines| < |rest|
      ensures r.Ok? && r.value.StatusReported? ==>
                exists hand: GamblerHand :: fresh(hand) && Overridden(hand, r.value.text)
      ensures r == Ok(Settled) ==> exists hand: GamblerHand :: fresh(hand) && hand.outcome.Some?
    {
      var _ :- Deal();
      ghost var hand, up, total, rest := gambler.hands[0], dealer.hand.cards[0], FinalTotal(gambler.hands[0].cards), console.lines;
      assert gambler.hands == [hand] && fresh(hand) && DealtFrom(old(console.lines), up, total, rest);
      r := PlayDealtTurn();
      if r.Ok? {
        assert DealtFrom(old(console.lines), up, total, rest) && |console.lines| < |rest|;
        assert r.value.StatusReported? ==> Overridden(hand, r.value.text);
        assert r.value == Settled ==> hand.outcome.Some?;
      }
    }

    /** The rest of a turn once the hands are dealt: a status check, the pre-turn, another status check, then the gambler's turn onwards. */
    method PlayDealtTurn() returns (r: Result<TurnEnd>)
      requires Valid() && |gambler.hands| == 1 && dealer.hand != null
      requires gambler.hands[0].status == Pending && gambler.hands[0].outcome == None
      modifies this`hideDealer, this`dealerPlaying, gambler`hands, gambler`bankroll, gambler.hands, dealer`hand
      modifies dealer.hand, strategy`evenMoneyAnswers, strategy`insuranceAnswers, strategy`actions, console`lines
      ensures r.Ok? ==> Valid() && gambler.hands == [] && dealer.hand == null && hideDealer && r.value != CashedOut
      ensures r.Ok? ==> |console.lines| < |old(console.lines)|
      ensures r.Ok? && r.value.StatusReported? ==> Overridden(old(gambler.hands)[0], r.value.text)
      ensures r == Ok(Settled) ==> old(gambler.hands)[0].outcome.Some?
    {
      var text :- Checkpoint();
      if text.Some? {
        return Ok(StatusReported(text.value));
      }
      var _ :- PlayPreTurn();
      text :- Checkpoint();
      if text.Some? {
        return Ok(StatusReported(text.value));
      }
      r := PlayPlayerTurns();
    }

    /**
     * The gambler's and the dealer's turns, a status check between them, then
     * settlement and cleanup. The hand is played as GamblerTurn says; a status text
     * reported after that decides it unpaid, and otherwise it is settled against the
     * dealer's final hand.
     */
    method PlayPlayerTurns() returns (r: Result<TurnEnd>)
      requires Valid() && |gambler.hands| == 1 && dealer.hand != null
      requires gambler.hands[0].status == Pending <==> gambler.hands[0].outcome == None
      modifies this`hideDealer, this`dealerPlaying, gambler`hands, gambler`bankroll, gambler.hands, dealer`hand
      modifies dealer.hand, strategy`actions, console`lines
      ensures r.Ok? ==> Valid() && gambler.hands == [] && dealer.hand == null && hideDealer && r.value != CashedOut
      ensures r.Ok? ==> |console.lines| < |old(console.lines)|
      ensures r.Ok? ==>
                var hand := old(gambler.hands)[0];
                var turn := GamblerTurn(old(SeatOf(hand)), old(console.lines), old(strategy.actions));
                turn.0.Ok? && hand.cards == turn.1.cards && hand.wager == turn.1.wager
                && hand.insurance == old(hand.insurance) && IsTotalHand(hand.cards)
                && (r.value.StatusReported? ==> Overridden(hand, r.value.text) && gambler.bankroll == turn.1.bankroll)
                && (r.value == Settled ==>
                      var house := old(dealer.hand);
                      IsDealerCards(house.cards)
                      && hand.outcome == (if turn.1.outcome.Some? then turn.1.outcome
                                          else Some(Showdown(turn.1.status, FinalTotal(hand.cards),
                                                             house.status, FinalTotal(house.cards))))
                      && gambler.bankroll == turn.1.bankroll
                           + Settlement(hand.outcome.value, hand.status, FinalTotal(hand.cards), hand.wager, hand.insurance))
    {
      var _ :- PlayGamblerTurn();
      var text :- Checkpoint();
      if text.Some? {
        return Ok(StatusReported(text.value));
      }
      r := SettleTurn();
    }

    /**
     * The dealer's turn, settlement and cleanup: the dealer's hand is finished when
     * some hand waits for it, the hand is settled against it, and the turn ends
     * settled with both hands discarded.
     */
    method SettleTurn() returns (r: Result<TurnEnd>)
      requires Valid() && dealer.hand != null
      modifies this`hideDealer, this`dealerPlaying, gambler`hands, gambler`bankroll, gambler.hands, dealer`hand
      modifies dealer.hand, console`lines
      ensures |console.lines| <= |old(console.lines)|
      ensures r.Ok? ==> Valid() && gambler.hands == [] && dealer.hand == null && hideDealer && r.value == Settled
      ensures r.Ok? && old(gambler.hands) == [] ==> gambler.bankroll == old(gambler.bankroll)
      ensures r.Ok? && |old(gambler.hands)| == 1 ==>
                var hand, house := old(gambler.hands)[0], old(dealer.hand);
                hand.cards == old(hand.cards) && hand.wager == old(hand.wager) && hand.insurance == old(hand.insurance)
                && IsTotalHand(hand.cards) && IsDealerCards(house.cards)
                && hand.outcome == (if old(hand.outcome).Some? then old(hand.outcome)
                                    else Some(Showdown(old(hand.status), FinalTotal(hand.cards),
                                                       house.status, FinalTotal(house.cards))))
                && gambler.bankroll == old(gambler.bankroll)
                     + Settlement(hand.outcome.value, hand.status, FinalTotal(hand.cards), hand.wager, hand.insurance)
    {
      var _ :- PlayDealerTurn();
      SettleUp();
      var _ :- FinalizeTurn();
      return Ok(Settled);
    }

    /**
     * play: after the opening pause, turns are played while the play condition
     * holds, until the gambler cashes out. The game ends with no hand on the table,
     * the gambler finished or the turn cap reached, and never more turns than the cap.
     */
    method Play() returns (r: Result<()>)
      requires Valid() && gambler.hands == [] && dealer.hand == null
      modifies this`turn, this`hideDealer, this`dealerPlaying, gambler, dealer`hand, strategy, console
      ensures r.Ok? ==> gambler.hands == [] && dealer.hand == null && !PlayCondition()
      ensures TurnCapped() && old(turn) <= maxTurns.value ==> turn <= maxTurns.value
      ensures turn >= old(turn)
    {
      if verbose {
        var _ :- console.ReadLine();
      }
      while PlayCondition()
        invariant Valid() && gambler.hands == [] && dealer.hand == null
        invariant turn >= old(turn)
        invariant TurnCapped() && old(turn) <= maxTurns.value ==> turn <= maxTurns.value
        decreases |console.lines|
      {
        var ended :- PlayTurn();
        if ended == CashedOut {
          break;
        }
      }
      return Ok(());
    }
  }
}
