/**
 * The gambler's account (blackjack/models/gambler.py): a bankroll, a standing
 * auto-wager and the hands of the current turn. Every bankroll deduction is
 * checked first, and a failed check changes nothing.
 */
module Gamblers {
  import opened Exc
  import opened Hands

  class Gambler {
    const name: string
    var bankroll: real
    var autoWager: real
    var hands: seq<GamblerHand>

    constructor (name: string, bankroll: real := 0.0, autoWager: real := 0.0, hands: seq<GamblerHand> := [])
      ensures this.name == name && this.bankroll == bankroll && this.autoWager == autoWager
      ensures this.hands == hands
    {
      this.name := name;
      this.bankroll := bankroll;
      this.autoWager := autoWager;
      this.hands := hands;
    }

    method DiscardHands()
      modifies this`hands
      ensures hands == []
    {
      hands := [];
    }

    /** The gambler stops once they have set a zero wager (cashed out) or have no money left. */
    predicate IsFinished()
      reads this
    {
      autoWager == 0.0 || bankroll == 0.0
    }

    function FirstHand(): (h: GamblerHand)
      reads this
      requires |hands| > 0
      ensures h in hands && h == hands[0]
    {
      hands[0]
    }

    method AddBankroll(amount: real)
      modifies this`bankroll
      ensures bankroll == old(bankroll) + amount
    {
      bankroll := bankroll + amount;
    }

    /** _subtract_bankroll: refuses, with OverdraftError and no change, any amount above the bankroll. */
    method SubtractBankroll(amount: real) returns (r: Result<()>)
      modifies this`bankroll
      ensures r.Ok? <==> amount <= old(bankroll)
      ensures r.Ok? ==> bankroll == old(bankroll) - amount && bankroll >= 0.0
      ensures r.Err? ==> r.fault == Overdraft && bankroll == old(bankroll)
    {
      if amount <= bankroll {
        bankroll := bankroll - amount;
        return Ok(());
      }
      return Err(Overdraft);
    }

    /** payout credits exactly the amount. */
    method Payout(amount: real)
      modifies this`bankroll
      ensures bankroll == old(bankroll) + amount
      ensures old(bankroll) >= 0.0 && amount >= 0.0 ==> bankroll >= 0.0
    {
      AddBankroll(amount);
    }

    predicate CanPlaceWager(amount: real)
      reads this
    {
      amount <= bankroll
    }

    predicate CanPlaceAutoWager()
      reads this
    {
      CanPlaceWager(autoWager)
    }

    /** The insurance stake is half the first hand's wager. */
    function InsuranceWagerAmount(): (r: real)
      reads this, hands
      requires |hands| > 0
      ensures r * 2.0 == hands[0].wager
      ensures hands[0].wager >= 0.0 ==> 0.0 <= r <= hands[0].wager
    {
      hands[0].wager / 2.0
    }

    predicate CanPlaceInsuranceWager()
      reads this, hands
      requires |hands| > 0
    {
      CanPlaceWager(InsuranceWagerAmount())
    }

    /**
     * The bankroll checks: an amount can be staked exactly when the bankroll covers
     * it, and then so can any smaller amount; the auto-wager check is that test on
     * the auto-wager; the insurance stake, half the first wager, is covered exactly
     * when twice the bankroll covers that wager, so whenever the wager itself is.
     */
    lemma WagerChecks(amount: real, less: real)
      requires less <= amount
      ensures CanPlaceWager(amount) <==> amount <= bankroll
      ensures CanPlaceWager(amount) ==> CanPlaceWager(less)
      ensures CanPlaceAutoWager() <==> autoWager <= bankroll
      ensures |hands| > 0 ==> (CanPlaceInsuranceWager() <==> hands[0].wager <= 2.0 * bankroll)
      ensures |hands| > 0 && hands[0].wager >= 0.0 && CanPlaceWager(hands[0].wager) ==> CanPlaceInsuranceWager()
    {
    }

    /**
     * place_hand_wager moves `wager` from the bankroll onto the hand (additively,
     * which is how a double is placed), or raises InsufficientBankrollError and
     * changes nothing.
     */
    method PlaceHandWager(wager: real, hand: GamblerHand) returns (r: Result<()>)
      modifies this`bankroll, hand`wager
      ensures r.Ok? <==> wager <= old(bankroll)
      ensures r.Ok? ==> bankroll == old(bankroll) - wager && hand.wager == old(hand.wager) + wager
      ensures r.Ok? ==> bankroll >= 0.0
      ensures bankroll + hand.wager == old(bankroll) + old(hand.wager)
      ensures r.Err? ==> r.fault == InsufficientBankroll && bankroll == old(bankroll)
                         && hand.wager == old(hand.wager)
    {
      if CanPlaceWager(wager) {
        var overdraft := SubtractBankroll(wager);
        assert overdraft.Ok?;
        hand.wager := hand.wager + wager;
        return Ok(());
      }
      return Err(InsufficientBankroll);
    }

    /** place_auto_wager: the auto-wager goes onto the first hand. */
    method PlaceAutoWager() returns (r: Result<()>)
      requires |hands| > 0
      modifies this`bankroll, (hands[0] as GamblerHand)`wager
      ensures r.Ok? <==> autoWager <= old(bankroll)
      ensures r.Ok? ==> bankroll == old(bankroll) - autoWager
                        && hands[0].wager == old(hands[0].wager) + autoWager
      ensures r.Err? ==> r.fault == InsufficientBankroll && bankroll == old(bankroll)
                         && hands[0].wager == old(hands[0].wager)
    {
      r := PlaceHandWager(autoWager, FirstHand());
    }

    /**
     * place_insurance_wager SETS (does not add to) the first hand's insurance to
     * half its wager and takes that from the bankroll, or raises and changes nothing.
     */
    method PlaceInsuranceWager() returns (r: Result<()>)
      requires |hands| > 0
      modifies this`bankroll, (hands[0] as GamblerHand)`insurance
      ensures r.Ok? <==> old(hands[0].wager) / 2.0 <= old(bankroll)
      ensures r.Ok? ==> hands[0].insurance == old(hands[0].wager) / 2.0
                        && bankroll == old(bankroll) - hands[0].insurance && bankroll >= 0.0
      ensures r.Err? ==> r.fault == InsufficientBankroll && bankroll == old(bankroll)
                         && hands[0].insurance == old(hands[0].insurance)
    {
      var amount := InsuranceWagerAmount();
      if CanPlaceInsuranceWager() {
        var overdraft := SubtractBankroll(amount);
        assert overdraft.Ok?;
        FirstHand().insurance := amount;
        return Ok(());
      }
      return Err(InsufficientBankroll);
    }

    method ZeroAutoWager()
      modifies this`autoWager
      ensures autoWager == 0.0
    {
      autoWager := 0.0;
    }

    /** set_new_auto_wager accepts only an amount the bankroll covers; otherwise nothing changes. */
    method SetNewAutoWager(amount: real) returns (r: Result<()>)
      modifies this`autoWager
      ensures r.Ok? <==> amount <= bankroll
      ensures r.Ok? ==> autoWager == amount
      ensures r.Err? ==> r.fault == InsufficientBankroll && autoWager == old(autoWager)
    {
      if CanPlaceWager(amount) {
        autoWager := amount;
        return Ok(());
      }
      return Err(InsufficientBankroll);
    }
  }
}
