# Blackjack turn engine with surrender — a Dafny model

This project models the blackjack engine of `bjwithsurrender`: the turn
controller, the hand arithmetic, the gambler's bankroll account, cards, the
dealer, the 52-card deck and the console answer validators.

The engine does not deal from a shoe. The operator types what is on the table:
- the dealer's up card, by rank name;
- the gambler's total, from 4 to 21;
- after a hit or a double, the gambler's new total;
- the dealer's final total.

Each gambler hand therefore holds a single "dummy" card whose value is the typed
total. The dealer's hand holds the up card, plus one hidden card worth the rest
of the dealer's total.

A turn runs these phases:
1. wager vetting;
2. the deal;
3. the pre-turn (blackjacks, even money, insurance);
4. the gambler's action loop (Hit, Stand, Double, a Split stub, Surrender);
5. the dealer's final total;
6. settlement by a fixed odds table.

Before the wager check, after the deal, after the pre-turn and after the
gambler's turn, the operator may report a status text seen on the table
(BLACKJACK, PUSH, WIN, BUST, SURRENDER). It writes a fixed (status, outcome)
pair onto the hand and ends the turn without settlement.

The same question is also asked before each action inside the gambler's hand
loop. A text reported there writes the same pair and ends the hand's play, but
not the turn. The turn goes on to the next status check, the dealer's turn and
settlement, so that hand is settled by its written outcome (`StatusStep`,
`PlayPlayerTurns`).

Modules (one per source file):

| module | file | source |
|---|---|---|
| `Wrappers`, `Exc` | `exc.dfy` | the engine's exceptions, as `Result` values |
| `PyText` | `pytext.dfy` | Python's `str`/`int`/`strip`/`lower`/`upper` on ASCII text |
| `Cards` | `card.dfy` | `models/card.py` |
| `Hands` | `hand.dfy` | `models/hand.py` |
| `Gamblers` | `gambler.dfy` | `models/gambler.py` |
| `Dealers` | `dealer.dfy` | `models/dealer.py` |
| `Decks` | `deck.dfy` | `models/deck.py` |
| `UserInput` | `user_input.dfy` | `user_input.py` |
| `Strategies` | `strategy.dfy` | `strategies/base_strategy.py` |
| `Consoles` | `console.dfy` | `input()` and `random.choice` |
| `GameControllers` | `game_controller.dfy` | `controllers/game_controller.py` |

Modelling choices:
- **Mutable objects are classes.** Gambler, hands, dealer and controller are
  classes whose methods update their fields in place. Cards are values.
- **Money is exact `real`.** The 3:2, 1:1 and 2:1 payouts and the half-wager
  stakes are therefore exact.
- **Exceptions are results.** Each Python exception becomes an `Err(fault)`
  result that is propagated with `:-`:
  - `InsufficientBankrollError` becomes `InsufficientBankroll`;
  - `OverdraftError` becomes `Overdraft`;
  - the "Unhandled response" exception becomes `UnhandledAction`;
  - end of input (`EOFError`) becomes `InputExhausted`.
- **Console input is a finite sequence.** Every `input()` consumes the next line
  of `Console.lines`, and an empty sequence raises end of input. The pause
  prompts consume a line too: DEAL and REBET only in verbose mode, ENTER always.
- **The suit is drawn by a function.** `random.choice` is an arbitrary draw
  function applied to a counter.
- **The strategy is scripted.** It answers each of its five questions from a
  script of answers given up front.
- **A prompt loop returns the first acceptable line.** `FirstAccepted` is the
  first line a prompt loop accepts, together with the lines left after it.
  Every prompt method is proved to return exactly that line, or end of input
  when there is none.

Source behaviours kept exactly as written:
- **The dealer-blackjack check in the pre-turn is always false.** It runs while
  the dealer's hand holds only the up card (`PlayPreTurn`, `OneCardIsNoBlackjack`).
- **A gambler hand never busts in play.** Its total is typed in [4, 21]
  (`TotalHandTotal`).
- **Double is offered whenever the wager is covered.** Every hand the deal and
  the actions build holds the single card of a typed total (`CreateDummyHand`,
  `Retotal`). Such a hand is offered Double whenever the bankroll covers its wager
  (`HandOptions`). A hand is never splittable or doubleable in the sense of
  `is_splittable` and `is_doubleable` (`TotalHandTotal`).
- **A surrender is not checked against the bankroll.** It takes a further half
  wager without an overdraft check, so a surrender costs 1.5 wagers in all and
  can drive the bankroll below zero (`HandleSurrender`, `SurrenderCost`).
- **A 21 reached after an action is forced to Stood.** This overwrites a
  Doubled status.
- **A win on any total of 21 pays 3:2**, not only a two-card blackjack.
- **A status text reported between phases is never paid.** The hand takes the
  text's outcome, and the turn is finalized without settlement. The stake placed
  at the deal is not returned, even for a WIN or PUSH (`Checkpoint`,
  `ReportStatus`).

## Model

| member | source | states |
|---|---|---|
| Cards.CsvFormat | bjwithsurrender/blackjack/models/card.py:39-41 | the spelling is "A" exactly for an ace; otherwise it is the decimal string of the value, which `int` parses back to the value |
| Cards.RanksTable | bjwithsurrender/blackjack/models/card.py:3-18 | 13 ranks and 4 suits; Ace is [1, 11], "2" to "10" their number, Jack, Queen and King 10 |
| Cards.NamesDistinct | bjwithsurrender/blackjack/models/card.py:3-18 | no two ranks and no two suits share a name |
| Cards.FaceCardRanks | bjwithsurrender/blackjack/models/card.py:31-37 | among the ranks, the face cards are exactly "10", Jack, Queen and King, and the only ace is "Ace" |
| Cards.LookupFirst | bjwithsurrender/blackjack/controllers/game_controller.py:32 | the rank lookup finds nothing exactly when no entry has the name, and otherwise returns the first entry with that name |
| Cards.RankFound | bjwithsurrender/blackjack/controllers/game_controller.py:32 | every rank is found under its own name, with the value the table pairs with it |
| Cards.LookedUpValue | bjwithsurrender/blackjack/controllers/game_controller.py:32-34 | a rank found by name is worth 11 if it is the Ace (its higher value), and 2 to 10 otherwise |
| Cards.BlankIsNoRank | bjwithsurrender/blackjack/controllers/game_controller.py:27-30 | an empty entry names no rank |
| Hands.AceCount | bjwithsurrender/blackjack/models/hand.py:45-47 | at most the number of cards; 0 exactly when no card is an ace, and the number of cards exactly when every card is one |
| Hands.AceCountConcat | bjwithsurrender/blackjack/models/hand.py:45-47 | the count of a joined hand is the sum of the counts, so every ace is counted exactly once |
| Hands.PossibleTotals | bjwithsurrender/blackjack/models/hand.py:19-43 | low = sum of the non-ace cards + number of aces; a high total exists exactly when there is an ace and low + 10 ≤ 21, and it is low + 10 |
| Hands.FinalTotal | bjwithsurrender/blackjack/models/hand.py:62-65 | the final total is the low total, or low + 10 when that does not bust |
| Hands.FinalTotalIsBest | bjwithsurrender/blackjack/models/hand.py:19-43 | the final total is the largest total at most 21 that any choice of ace values makes; when every choice busts it is the smallest |
| Hands.SoftIff | bjwithsurrender/blackjack/models/hand.py:87-90 | a hand is soft exactly when it has an ace and low + 10 ≤ 21, that is, exactly when its final total differs from its low total |
| Hands.AceValuesIgnored | bjwithsurrender/blackjack/models/hand.py:25 | the value fields of aces are never added: hands that differ only in their aces' values have the same totals |
| Hands.FormatPossibleTotals | bjwithsurrender/blackjack/models/hand.py:49-60 | "21" when the high total is 21, "low or high" for another soft hand, the final total otherwise |
| Hands.TotalToDisplay | bjwithsurrender/blackjack/models/hand.py:67-73 | a live (pending or playing) soft hand below 21 shows "low or final"; every other hand shows its final total, as a string that `int` parses back to that total |
| Hands.SplittableIsDoubleable | bjwithsurrender/blackjack/models/hand.py:126-141 | every splittable hand is doubleable; a hand of other than two cards is neither; two cards are always doubleable and splittable exactly when their names match |
| Hands.InitialStatus | bjwithsurrender/blackjack/models/hand.py:6-11 | a new hand is a Blackjack exactly when its cards are a blackjack (21 on exactly two cards) or the given status was Blackjack; otherwise it takes the given status |
| Hands.GamblerHand.constructor | bjwithsurrender/blackjack/models/hand.py:95-105 | a new gambler hand has no outcome, earnings 0, no lost insurance, and the given cards, wager, insurance and number |
| Hands.DealerHand.UpCard | bjwithsurrender/blackjack/models/hand.py:146-147 | the up card is the first card |
| Hands.TotalTests | bjwithsurrender/blackjack/models/hand.py:75-85 | is_blackjack is a final total of 21 on exactly two cards; a hand at 21 is not busted; a hand busts exactly when its low total exceeds 21, and a busted hand is not soft |
| Hands.OneCardIsNoBlackjack | bjwithsurrender/blackjack/models/hand.py:79-81 | a one-card hand is never a blackjack, so it starts Pending |
| Gamblers.Gambler.DiscardHands | bjwithsurrender/blackjack/models/gambler.py:16-18 | no hand is left |
| Gamblers.Gambler.FirstHand | bjwithsurrender/blackjack/models/gambler.py:25-27 | the first hand is the first of the gambler's hands |
| Gamblers.Gambler.AddBankroll | bjwithsurrender/blackjack/models/gambler.py:29-31 | the bankroll rises by exactly the amount |
| Gamblers.Gambler.SubtractBankroll | bjwithsurrender/blackjack/models/gambler.py:33-38 | succeeds exactly when the amount is covered and then never leaves the bankroll negative; otherwise it fails with Overdraft and changes nothing |
| Gamblers.Gambler.Payout | bjwithsurrender/blackjack/models/gambler.py:40-42 | adds exactly the amount; a non-negative payout keeps a non-negative bankroll non-negative |
| Gamblers.Gambler.InsuranceWagerAmount | bjwithsurrender/blackjack/models/gambler.py:52-54 | the insurance stake is half the first hand's wager: twice it is the wager, and it lies between 0 and a non-negative wager |
| Gamblers.Gambler.WagerChecks | bjwithsurrender/blackjack/models/gambler.py:44-58 | a wager can be placed exactly when the bankroll covers it, and then so can any smaller one; the auto-wager check is that test on the auto-wager; insurance is covered exactly when twice the bankroll covers the first wager, so whenever the wager itself is |
| Gamblers.Gambler.PlaceHandWager | bjwithsurrender/blackjack/models/gambler.py:60-66 | succeeds exactly when the bankroll covers the wager; bankroll + hand wager is conserved; a failure raises InsufficientBankroll and changes nothing |
| Gamblers.Gambler.PlaceAutoWager | bjwithsurrender/blackjack/models/gambler.py:68-70 | moves the auto-wager from the bankroll onto the first hand, or fails and changes nothing |
| Gamblers.Gambler.PlaceInsuranceWager | bjwithsurrender/blackjack/models/gambler.py:72-79 | sets (does not add to) the first hand's insurance to half its wager and takes it from the bankroll, or fails and changes nothing |
| Gamblers.Gambler.ZeroAutoWager | bjwithsurrender/blackjack/models/gambler.py:81-83 | the auto-wager is 0 |
| Gamblers.Gambler.SetNewAutoWager | bjwithsurrender/blackjack/models/gambler.py:85-91 | the auto-wager changes exactly when the bankroll covers the amount; otherwise it fails and the auto-wager stays |
| Dealers.Dealer.constructor | bjwithsurrender/blackjack/models/dealer.py:3-5 | the dealer's name is "Dealer" and the hand defaults to none |
| Dealers.Dealer.UpCard | bjwithsurrender/blackjack/models/dealer.py:7-9 | the up card is the first card of the dealer's hand |
| Dealers.Dealer.IsShowingAce | bjwithsurrender/blackjack/models/dealer.py:11-13 | true exactly when the up card is an ace |
| Dealers.Dealer.IsShowingFaceCard | bjwithsurrender/blackjack/models/dealer.py:15-17 | true exactly when the up card is worth 10 |
| Dealers.Dealer.DiscardHand | bjwithsurrender/blackjack/models/dealer.py:19-21 | the dealer has no hand, and nothing else changes |
| Decks.BuildDeck | bjwithsurrender/blackjack/models/deck.py:10-16 | 52 cards; position 13·s + r holds suit s with rank r |
| Decks.DeckContents | bjwithsurrender/blackjack/models/deck.py:13-16 | a card is in the deck exactly when it pairs a suit with an entry of the rank table |
| Decks.NoPairTwice | bjwithsurrender/blackjack/models/deck.py:13-16 | no (suit, rank) pair appears twice |
| Decks.ValuesMatchRanks | bjwithsurrender/blackjack/models/deck.py:14-15 | each card's value is the one the rank table pairs with its name |
| UserInput.YesNoResponse | bjwithsurrender/blackjack/user_input.py:6-14 | True exactly for y/yes and False exactly for n/no, in any letter case; 'invalid' otherwise |
| UserInput.ChoiceResponse | bjwithsurrender/blackjack/user_input.py:33-39 | the lowered answer when it is one of the choices, and 'invalid' exactly when it is not |
| UserInput.CaseInsensitive | bjwithsurrender/blackjack/user_input.py:6-39 | lowering an answer first changes neither parser's result |
| UserInput.GetUserInput | bjwithsurrender/blackjack/user_input.py:43-67 | parses at most `retries` lines and returns the first valid response; if all `retries` attempts are invalid it exits instead |
| PyText.ParseIntStripped | bjwithsurrender/blackjack/controllers/game_controller.py:45 | `int` strips its argument itself, so stripping first changes nothing |
| PyText.ParseIntToString | bjwithsurrender/blackjack/models/card.py:39-41 | `int(str(i)) == i` for every integer |
| PyText.Strip | bjwithsurrender/blackjack/controllers/game_controller.py:27 | the result neither starts nor ends with whitespace and is no longer than the input (StripIsSlice states what is removed) |
| PyText.TrimLeftRemovesSpaces | bjwithsurrender/blackjack/controllers/game_controller.py:27 | the characters the left trim removes are all whitespace |
| PyText.TrimRightRemovesSpaces | bjwithsurrender/blackjack/controllers/game_controller.py:27 | the characters the right trim removes are all whitespace |
| PyText.StripIsSlice | bjwithsurrender/blackjack/controllers/game_controller.py:27 | the stripped text is the slice of the input after its leading whitespace, and every character outside the slice is whitespace |
| PyText.StripIdempotent | bjwithsurrender/blackjack/controllers/game_controller.py:742 | stripping twice is stripping once |
| PyText.Lower | bjwithsurrender/blackjack/user_input.py:8 | lower-cases each character and keeps the length |
| PyText.Upper | bjwithsurrender/blackjack/controllers/game_controller.py:744 | upper-cases each character and keeps the length |
| PyText.LowerIdempotent | bjwithsurrender/blackjack/user_input.py:8 | lowering twice is lowering once |
| Strategies.Strategy.GetHandAction | bjwithsurrender/blackjack/strategies/base_strategy.py:16-18 | the next scripted action is consumed; none left is end of input |
| Strategies.Strategy.WantsToChangeWager | bjwithsurrender/blackjack/strategies/base_strategy.py:8-10 | the next scripted answer is consumed; none left is end of input |
| Strategies.Strategy.GetNewAutoWager | bjwithsurrender/blackjack/strategies/base_strategy.py:12-14 | the next scripted amount is consumed; none left is end of input |
| Strategies.Strategy.WantsEvenMoney | bjwithsurrender/blackjack/strategies/base_strategy.py:20-22 | the next scripted answer is consumed; none left is end of input |
| Strategies.Strategy.WantsInsurance | bjwithsurrender/blackjack/strategies/base_strategy.py:24-25 | the next scripted answer is consumed; none left is end of input |
| GameControllers.FirstAcceptedIsFirst | bjwithsurrender/blackjack/controllers/game_controller.py:24-51 | a prompt loop finds nothing exactly when no line is acceptable; otherwise it settles on the earliest acceptable line and leaves the lines after it |
| GameControllers.ParseRankEntry | bjwithsurrender/blackjack/controllers/game_controller.py:27-34 | a line is accepted exactly when its stripped text names a rank, and then yields that name and the rank's value, the higher one for the Ace |
| GameControllers.GetCardInput | bjwithsurrender/blackjack/controllers/game_controller.py:24-38 | skips empty and unknown entries and returns the first rank entered, as a card worth that rank's (higher) value in a suit from the table; end of input when no entry is a rank |
| GameControllers.ParseTotal | bjwithsurrender/blackjack/controllers/game_controller.py:44-51 | a line is accepted exactly when it is an integer from 4 to 21 |
| GameControllers.GetTotalInput | bjwithsurrender/blackjack/controllers/game_controller.py:41-51 | returns the first line that is an integer from 4 to 21, skipping all others; end of input when there is none |
| GameControllers.CreateDummyHand | bjwithsurrender/blackjack/controllers/game_controller.py:54-57 | one card, not an ace, whose hand's final total is exactly the given total and which is never soft |
| GameControllers.TotalHandTotal | bjwithsurrender/blackjack/controllers/game_controller.py:41-57 | a hand built from a typed total is worth that total, never busts or turns soft, and with fewer than two cards is neither splittable nor doubleable |
| GameControllers.DealerTotalRecovered | bjwithsurrender/blackjack/controllers/game_controller.py:502-505 | the dealer's up card plus the hidden card is worth the typed total whenever the dealer stands, an ace up counting 11 |
| GameControllers.DealerFinishedByEntry | bjwithsurrender/blackjack/controllers/game_controller.py:502-513 | the accepted dealer total decides the dealer's hand: the up card plus a hidden card, Busted above 21 and Stood otherwise, and a standing hand is worth exactly the total |
| GameControllers.StatusTextOfNames | bjwithsurrender/blackjack/controllers/game_controller.py:744-746 | an answer names a status text exactly when it equals that text's name |
| GameControllers.StatusAnswerNames | bjwithsurrender/blackjack/controllers/game_controller.py:740-747 | a status text is reported exactly when the first answer is y/yes and the second, stripped and upper-cased, is that text's name |
| GameControllers.ParseDealerTotal | bjwithsurrender/blackjack/controllers/game_controller.py:492-500 | a line is accepted exactly when it is an integer no lower than the up card's value |
| GameControllers.GetDealerTotal | bjwithsurrender/blackjack/controllers/game_controller.py:492-500 | returns the first integer line no lower than the up card's value, skipping all others; end of input when there is none |
| GameControllers.PreTurnWithoutDealerBlackjack | bjwithsurrender/blackjack/controllers/game_controller.py:238-349 | without a dealer blackjack, the pre-turn settles exactly the hands totalling 21, with even money if taken and a win otherwise, and reveals nothing |
| GameControllers.PreTurnWithDealerBlackjack | bjwithsurrender/blackjack/controllers/game_controller.py:238-349 | a dealer blackjack behind an ace or ten always settles the hand and never as a win; an insurance win exactly when a non-21 hand took insurance against an ace |
| GameControllers.PayoutAmount | bjwithsurrender/blackjack/controllers/game_controller.py:544-567 | a reclaim returns the stake itself; a winning wager pays the wager at even odds and 1.5 wagers at 3:2; winning insurance pays twice the insurance at 2:1 |
| GameControllers.Showdown | bjwithsurrender/blackjack/controllers/game_controller.py:575-595 | a win exactly when the hand did not bust and the dealer busted or was beaten; a push exactly on equal totals with neither busted; a loss otherwise |
| GameControllers.SettlementNet | bjwithsurrender/blackjack/controllers/game_controller.py:597-626 | against the stake, a win nets one wager (1.5 on a 21), a push nothing, even money one wager, a loss minus the wager; half-wager insurance makes a dealer blackjack a wash |
| GameControllers.SurrenderCost | bjwithsurrender/blackjack/controllers/game_controller.py:415-420 | on a playing typed-total hand, the Surrender action step succeeds, keeps the wager and ends with outcome Surrender; the stake plus the bankroll before, less the bankroll after and what settlement then credits, is 1.5 wagers whatever status the total check leaves |
| GameControllers.ActionOf | bjwithsurrender/blackjack/controllers/game_controller.py:388-402 | each of the five action names, and only it, selects its action |
| GameControllers.ActionOutcomeActed | bjwithsurrender/blackjack/controllers/game_controller.py:388-402 | from a playing hand, each action moves no money, a second wager or half a wager; a hand still playing after a successful action has moved no money; the hand is never pending and a hand left without an outcome is playing, stood or doubled |
| GameControllers.TotalCheckedActed | bjwithsurrender/blackjack/controllers/game_controller.py:405-413 | the check on the total keeps every bound of Acted: it moves no money and a hand it busts has lost |
| GameControllers.ActionStepActed | bjwithsurrender/blackjack/controllers/game_controller.py:394-413 | an action and the check on the total leave a playing hand within Acted's bounds |
| GameControllers.ActStepActed | bjwithsurrender/blackjack/controllers/game_controller.py:388-413 | the strategy's action, whatever its name, leaves a playing hand within Acted's bounds |
| GameControllers.StatusPassMarks | bjwithsurrender/blackjack/controllers/game_controller.py:383-387 | the status question touches neither cards nor money; a reported text leaves the hand with an outcome and neither pending nor playing; otherwise the seat is unchanged |
| GameControllers.PassAfterActed | bjwithsurrender/blackjack/controllers/game_controller.py:383-413 | a pass leaves a playing hand within Acted's bounds, and a pass decided by a status text moves no money and leaves the hand with an outcome, not playing |
| GameControllers.HandPlayActed | bjwithsurrender/blackjack/controllers/game_controller.py:368-413 | the whole loop moves no money, a second wager or half a wager; a hand it finishes without raising is no longer playing, a hand without an outcome has stood or doubled and a busted hand has lost |
| GameControllers.GamblerTurnActed | bjwithsurrender/blackjack/controllers/game_controller.py:351-366 | the gambler's turn on a pending hand keeps Acted's bounds, and a turn that does not raise leaves the hand neither pending nor playing |
| GameControllers.GameController.constructor | bjwithsurrender/blackjack/controllers/game_controller.py:62-84 | the hole card is hidden, the dealer is not playing and the turn counter is 0 |
| GameControllers.GameController.CheckForStatusText | bjwithsurrender/blackjack/controllers/game_controller.py:740-747 | the answer and the lines left are those of StatusAnswer on the input (see StatusAnswerNames) |
| GameControllers.GameController.SetHandStatus | bjwithsurrender/blackjack/controllers/game_controller.py:466-469 | the hand takes the status |
| GameControllers.GameController.SetHandOutcome | bjwithsurrender/blackjack/controllers/game_controller.py:471-475 | the hand takes the outcome, and a pending hand becomes Played |
| GameControllers.GameController.MarkHand | bjwithsurrender/blackjack/controllers/game_controller.py:758-777 | the hand takes the (status, outcome) pair of the status text |
| GameControllers.GameController.HandleImmediateStatus | bjwithsurrender/blackjack/controllers/game_controller.py:749-783 | the first hand takes the text's (status, outcome) pair; an existing hand keeps its cards, wager, insurance, earnings and lost-insurance flag and the bankroll does not move; a missing hand is created with the auto-wager moved onto it; a missing dealer hand becomes a ten; the first hand keeps its hand number |
| GameControllers.GameController.SetNewAutoWager | bjwithsurrender/blackjack/controllers/game_controller.py:194-210 | the new auto-wager is the first proposed amount the bankroll covers; when none is covered, input runs out with the auto-wager at 0 |
| GameControllers.GameController.CheckGamblerWager | bjwithsurrender/blackjack/controllers/game_controller.py:178-192 | afterwards the auto-wager is covered by the bankroll: an unaffordable one is lowered to the bankroll, or a newly chosen one is the first affordable amount |
| GameControllers.GameController.ReadDeal | bjwithsurrender/blackjack/controllers/game_controller.py:215-219 | the up card is the first rank entry and the total is the first acceptable total after it |
| GameControllers.GameController.DealHands | bjwithsurrender/blackjack/controllers/game_controller.py:221-236 | one fresh gambler hand holding the total's card, a dealer hand holding only the up card, and the auto-wager moved from the bankroll onto the hand; the new hand is numbered 1, whatever earlier turns dealt |
| GameControllers.GameController.Deal | bjwithsurrender/blackjack/controllers/game_controller.py:212-236 | the hands are built from the entries read, as in ReadDeal and DealHands, and the auto-wager is moved onto the new hand, which is numbered 1 |
| GameControllers.GameController.PlayPreTurn | bjwithsurrender/blackjack/controllers/game_controller.py:238-349 | the hand's outcome is the pre-turn table's; the even-money and insurance questions are asked exactly when they apply; an insurance stake of half the wager is taken from the bankroll; the dealer blackjack is false on a one-card dealer hand |
| GameControllers.GameController.PreTurnAgainstAce | bjwithsurrender/blackjack/controllers/game_controller.py:253-312 | with an ace showing: even money is asked exactly when the gambler has 21, insurance exactly when they do not and the bankroll covers half the wager; the outcome is the pre-turn table's; a taken insurance costs half the wager and is lost exactly when the dealer has no blackjack |
| GameControllers.GameController.HandOptions | bjwithsurrender/blackjack/controllers/game_controller.py:422-434 | Hit and Stand first; Double third exactly when the hand has one card and the bankroll covers its wager; distinct keys; never Split or Surrender |
| GameControllers.GameController.HitHand | bjwithsurrender/blackjack/controllers/game_controller.py:437-443 | the result, the cards and the lines left are those of Retotal: the card of the first acceptable total, or end of input with the cards kept |
| GameControllers.GameController.DoubleHand | bjwithsurrender/blackjack/controllers/game_controller.py:451-464 | InsufficientBankroll with nothing changed when the bankroll does not cover the wager; otherwise the wager doubles out of the bankroll, the cards are retotalled as Retotal says, and the hand is Doubled exactly when the total was read |
| GameControllers.GameController.HandleSurrender | bjwithsurrender/blackjack/controllers/game_controller.py:415-420 | half the wager is taken from the bankroll without a check; the hand is Surrendered with outcome Surrender |
| GameControllers.GameController.ApplyAction | bjwithsurrender/blackjack/controllers/game_controller.py:388-402 | the result, the seat and the lines left are ActionOutcome's for the action: Hit and Double retotal from the input, Stand stands, Split changes nothing, Surrender takes half a wager; ActionOutcomeActed gives the money moved |
| GameControllers.GameController.TakeAction | bjwithsurrender/blackjack/controllers/game_controller.py:394-413 | the result, the seat and the lines left are ActionStep's: the action's effect, then on success the check on the total |
| GameControllers.GameController.CheckTotalAfterAction | bjwithsurrender/blackjack/controllers/game_controller.py:405-413 | a total of 21 forces Stood, a total over 21 Busted with a Loss, anything else changes nothing |
| GameControllers.GameController.ActOnHand | bjwithsurrender/blackjack/controllers/game_controller.py:388-413 | the result, seat and input left are ActStep's: the strategy's next action name, a confirming line, end of input when either runs out, UnhandledAction for an unknown name, otherwise that action's ActionStep |
| GameControllers.GameController.OverrideHand | bjwithsurrender/blackjack/controllers/game_controller.py:383-386 | a status text reported during play fixes the hand's (status, outcome), moves no money and keeps the hand number |
| GameControllers.GameController.StatusStep | bjwithsurrender/blackjack/controllers/game_controller.py:383-387 | consumes StatusAnswer's lines, and the result and seat are StatusPass's: a reported text marks the hand and returns true; no text leaves the seat and returns false; StatusPassMarks states that no money or card moves; the hand number is kept |
| GameControllers.GameController.PlayHandStep | bjwithsurrender/blackjack/controllers/game_controller.py:383-413 | the result, seat and input left are PlayPass's: the status question, then, unless it decided the hand or raised, the strategy's action; the hand number is kept |
| GameControllers.GameController.PlayGamblerHand | bjwithsurrender/blackjack/controllers/game_controller.py:368-413 | the result, seat and input left are HandPlay's on the hand set Playing, driven by the typed lines and the scripted actions; HandPlayActed gives the money and status bounds; the hand number is kept |
| GameControllers.GameController.PlayGamblerTurn | bjwithsurrender/blackjack/controllers/game_controller.py:351-366 | the hole card stays hidden; a single hand ends as GamblerTurn says on the typed lines and scripted actions; without a hand nothing is read and no money moves; a turn that succeeds leaves no hand pending; a single hand keeps its hand number |
| GameControllers.GameController.PlayDealerTurn | bjwithsurrender/blackjack/controllers/game_controller.py:477-517 | runs only when some hand stood or doubled; the dealer's hand becomes the up card plus a card worth the rest of the first acceptable total, Busted above 21 and Stood otherwise, and the hole card is shown |
| GameControllers.GameController.FinishDealerHand | bjwithsurrender/blackjack/controllers/game_controller.py:484-517 | the dealer's hand becomes the up card plus a card worth the rest of the first acceptable total, Busted above 21 and Stood otherwise, and the hole card is revealed; end of input when no total is acceptable |
| GameControllers.GameController.PerformHandPayout | bjwithsurrender/blackjack/controllers/game_controller.py:544-573 | the hand's earnings and the bankroll rise by the same amount |
| GameControllers.GameController.PayOutHand | bjwithsurrender/blackjack/controllers/game_controller.py:519-542 | earnings and bankroll rise by the payout table's total: 2 wagers for a win, 2.5 for a blackjack, 3 insurances for insurance, 1 wager for a push |
| GameControllers.GameController.DetermineHandOutcome | bjwithsurrender/blackjack/controllers/game_controller.py:575-595 | the outcome is the showdown's |
| GameControllers.GameController.SettleHand | bjwithsurrender/blackjack/controllers/game_controller.py:597-626 | an unknown outcome is decided by the showdown first; then earnings and bankroll rise by the settlement table's credit for the outcome |
| GameControllers.GameController.SettleUp | bjwithsurrender/blackjack/controllers/game_controller.py:628-631 | the hand is settled: its outcome is decided if unknown, and the bankroll rises by its credit |
| GameControllers.GameController.FinalizeTurn | bjwithsurrender/blackjack/controllers/game_controller.py:645-666 | both hands are discarded and the hole card hidden; a verbose game consumes the REBET pause |
| GameControllers.GameController.Checkpoint | bjwithsurrender/blackjack/controllers/game_controller.py:104-109 | the answer is StatusAnswer's; no text consumes only the answer and changes nothing else; a reported text leaves no hand on the table, and an existing hand was Overridden by it with its cards, wager, insurance, earnings and the bankroll unchanged; with no hand, a reported text takes the auto-wager from the bankroll for good, or raises InsufficientBankroll exactly when the auto-wager exceeds the bankroll |
| GameControllers.GameController.ReportStatus | bjwithsurrender/blackjack/controllers/game_controller.py:106-108 | the turn is finalized without settlement; an existing hand is Overridden by the text and keeps its cards, wager, insurance, earnings and the bankroll; with no hand, the auto-wager placed on the created hand leaves the bankroll and is never paid back, and the text raises InsufficientBankroll exactly when the auto-wager exceeds the bankroll |
| GameControllers.GameController.PlayTurn | bjwithsurrender/blackjack/controllers/game_controller.py:98-153 | the turn counter rises by one; a failed status answer fails the turn; a text reported at the first status question is the turn's result and costs the auto-wager; a first answer of no that does not cash out deals: it reads an up card and a total (DealtFrom) from the input after the answer, and reads beyond them; a turn that is not a reported status cashes out exactly when the auto-wager is 0, and a cash-out leaves the gambler finished with the bankroll unchanged and only the status answer read; every other turn ends with both hands discarded and the hole card hidden; a settled turn leaves the hand it dealt with an outcome |
| GameControllers.GameController.PlayWageredTurn | bjwithsurrender/blackjack/controllers/game_controller.py:116-153 | the deal's up card and total are read first (DealtFrom) and more input after them; the turn is played to the end: both hands discarded, the hole card hidden, and never a cash-out; the hand dealt ends Overridden by a reported text, or with an outcome when settled |
| GameControllers.GameController.PlayDealtTurn | bjwithsurrender/blackjack/controllers/game_controller.py:119-153 | a status text reported after the deal or the pre-turn leaves the dealt hand Overridden by it; a settled turn leaves the hand with an outcome; either way both hands are discarded |
| GameControllers.GameController.PlayPlayerTurns | bjwithsurrender/blackjack/controllers/game_controller.py:136-153 | the hand is played as GamblerTurn says; a status reported after that leaves it Overridden with the bankroll of the turn; otherwise its outcome is the turn's or, when unset, the Showdown with the dealer's final hand, and the bankroll rises by that outcome's Settlement credit |
| GameControllers.GameController.SettleTurn | bjwithsurrender/blackjack/controllers/game_controller.py:146-153 | returns Settled with both hands discarded; the hand keeps its cards, wager and insurance, its outcome is kept or decided by the Showdown with the dealer's final hand, and the bankroll rises by that outcome's Settlement credit (unchanged with no hand) |
| GameControllers.GameController.Play | bjwithsurrender/blackjack/controllers/game_controller.py:86-156 | the game ends with no hand on the table and the play condition false, and never plays past the turn cap |
| GameControllers.GameController.PlayConditionIff | bjwithsurrender/blackjack/controllers/game_controller.py:158-169 | another turn is played exactly when the gambler is not finished (is_finished: auto-wager 0 or bankroll 0, gambler.py:20-23) and either no cap is set (none, or 0, which Python reads as false) or the turns played are below the cap |

## Left out

- Optical recognition, GPIO, keyboard hooks, sleeps and all rendering (`render*`, `pretty_format`, `money_format`, the `render_after` decorator): these are I/O.
- The activity log and the metric tracker: messages and analytics only; no engine state depends on them.
- `finalize_game`: it only renders and plots.
- The shoe: the controller never deals from it.
- The static and CSV-backed strategies and the console strategy. A strategy is a script of answers to the five questions of the base strategy; `Strategies.Strategy.GetHandAction` ignores the hand, options and up card it is given, because the script has already chosen.
- `random.choice` of the suit: modelled as an arbitrary draw function, so no distribution is claimed.
- Python's `str.strip`, `lower` and `upper` beyond ASCII, and `int()` on non-ASCII digits or with underscores: only ASCII text is modelled.
- The odds strings "1:1", "3:2" and "2:1": modelled directly as `Odds(antecedent, consequent)`; the string split and `int` conversion are not modelled.
- The `ValueError` branches of `pay_out_hand`, `perform_hand_payout` and `settle_hand`: these are impossible once payout types and outcomes are datatypes.
- Splitting: `split_hand` is a stub in the source, so the controller holds at most one gambler hand. `PlayGamblerTurn` plays that hand rather than searching a list for the next pending one.
- `Gambler.settle_up`: dead code that calls a method hands do not have.
- `GameControllers.GameController.Play`: requires a table with no hands, as the game starts.
- `GameControllers.GameController.Play`: does not state the bankroll after the game, and it does not compose the turns. Within a turn, money is stated phase by phase: `Deal`, `PlayPreTurn`, `PlayGamblerTurn` (through `GamblerTurn` and `HandPlayActed`), `PlayPlayerTurns` and `SettleTurn`.
- `GameControllers.GameController.PlayDealtTurn`: does not compose the pre-turn with the rest of the turn, so a settled turn's bankroll is not stated end to end. `PlayPreTurn` and `PlayPlayerTurns` state it phase by phase.
- `GameControllers.GameController.PlayWageredTurn`: names the dealt hand only as some fresh hand, because it is discarded by the end of the turn. Its wager, play and the settlement credit are therefore not stated here. `Deal`, `PlayPreTurn`, `PlayPlayerTurns` and `SettleTurn` state them.
- `GameControllers.GameController.PlayTurn`: a dealt turn is stated as far as the deal it read and the fresh hand it decided. The wager, the pre-turn, the play and the settlement credit are stated phase by phase, not end to end here: by `Deal`, `PlayPreTurn`, `PlayGamblerTurn`, `PlayPlayerTurns` and `SettleTurn`.
- `GameControllers.GameController.SettleTurn`: does not restate the dealer's final hand. `PlayDealerTurn` states it, through `DealerFinished`.
- `GameControllers.GameController.SettleHand`: requires the dealer to have a hand. The engine always settles after the dealer's hand exists; the source would raise an `AttributeError` otherwise.
- `GameControllers.GameController.PlayGamblerTurn`: requires that a hand is pending exactly when it has no outcome. This holds of every hand the deal and the pre-turn leave.
- Integer width and float rounding: Python integers are unbounded and money is exact here, so the float rounding of payouts is not modelled.
