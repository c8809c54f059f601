/**
 * The decision maker the controller consults (blackjack/strategies/base_strategy.py).
 * A strategy is modelled by the answers it gives, in the order it gives them: one
 * script per question, each answer consumed as it is given. Running out of answers
 * is an error, as end of input would be for a strategy that reads the console.
 */
module Strategies {
  import opened Exc
  import opened Cards
  import opened Hands

  class Strategy {
    var changeWagerAnswers: seq<bool>
    var newAutoWagers: seq<real>
    var actions: seq<string>
    var evenMoneyAnswers: seq<bool>
    var insuranceAnswers: seq<bool>

    constructor (changeWagerAnswers: seq<bool>, newAutoWagers: seq<real>, actions: seq<string>,
                 evenMoneyAnswers: seq<bool>, insuranceAnswers: seq<bool>)
      ensures this.changeWagerAnswers == changeWagerAnswers && this.newAutoWagers == newAutoWagers
      ensures this.actions == actions && this.evenMoneyAnswers == evenMoneyAnswers
      ensures this.insuranceAnswers == insuranceAnswers
    {
      this.changeWagerAnswers := changeWagerAnswers;
      this.newAutoWagers := newAutoWagers;
      this.actions := actions;
      this.evenMoneyAnswers := evenMoneyAnswers;
      this.insuranceAnswers := insuranceAnswers;
    }

    /** wants_to_change_wager: whether the gambler changes the auto-wager (or cashes out). */
    method WantsToChangeWager() returns (r: Result<bool>)
      modifies this`changeWagerAnswers
      ensures old(changeWagerAnswers) == [] ==> r == Err(InputExhausted) && changeWagerAnswers == []
      ensures old(changeWagerAnswers) != [] ==>
                r == Ok(old(changeWagerAnswers)[0]) && changeWagerAnswers == old(changeWagerAnswers)[1..]
    {
      if changeWagerAnswers == [] {
        return Err(InputExhausted);
      }
      r := Ok(changeWagerAnswers[0]);
      changeWagerAnswers := changeWagerAnswers[1..];
    }

    /** get_new_auto_wager: the amount proposed as the new auto-wager (0 cashes out). */
    method GetNewAutoWager() returns (r: Result<real>)
      modifies this`newAutoWagers
      ensures old(newAutoWagers) == [] ==> r == Err(InputExhausted) && newAutoWagers == []
      ensures old(newAutoWagers) != [] ==>
                r == Ok(old(newAutoWagers)[0]) && newAutoWagers == old(newAutoWagers)[1..]
    {
      if newAutoWagers == [] {
        return Err(InputExhausted);
      }
      r := Ok(newAutoWagers[0]);
      newAutoWagers := newAutoWagers[1..];
    }

    /**
     * get_hand_action: the name of the action to take ('Hit', 'Stand', ...). The
     * hand, the offered options and the dealer's up card are what a strategy may
     * look at; a script has already taken them into account.
     */
    method GetHandAction(hand: GamblerHand, options: seq<(string, string)>, upCard: Card)
      returns (r: Result<string>)
      modifies this`actions
      ensures old(actions) == [] ==> r == Err(InputExhausted) && actions == []
      ensures old(actions) != [] ==> r == Ok(old(actions)[0]) && actions == old(actions)[1..]
    {
      if actions == [] {
        return Err(InputExhausted);
      }
      r := Ok(actions[0]);
      actions := actions[1..];
    }

    /** wants_even_money: whether a blackjack facing an ace is paid 1:1 at once. */
    method WantsEvenMoney() returns (r: Result<bool>)
      modifies this`evenMoneyAnswers
      ensures old(evenMoneyAnswers) == [] ==> r == Err(InputExhausted) && evenMoneyAnswers == []
      ensures old(evenMoneyAnswers) != [] ==>
                r == Ok(old(evenMoneyAnswers)[0]) && evenMoneyAnswers == old(evenMoneyAnswers)[1..]
    {
      if evenMoneyAnswers == [] {
        return Err(InputExhausted);
      }
      r := Ok(evenMoneyAnswers[0]);
      evenMoneyAnswers := evenMoneyAnswers[1..];
    }

    /** wants_insurance: whether to place the insurance side bet against an ace. */
    method WantsInsurance() returns (r: Result<bool>)
      modifies this`insuranceAnswers
      ensures old(insuranceAnswers) == [] ==> r == Err(InputExhausted) && insuranceAnswers == []
      ensures old(insuranceAnswers) != [] ==>
                r == Ok(old(insuranceAnswers)[0]) && insuranceAnswers == old(insuranceAnswers)[1..]
    {
      if insuranceAnswers == [] {
        return Err(InputExhausted);
      }
      r := Ok(insuranceAnswers[0]);
      insuranceAnswers := insuranceAnswers[1..];
    }
  }
}
