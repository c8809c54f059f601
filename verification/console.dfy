/**
 * Standard input and the random suit draw the controller depends on. The lines
 * the user will type are given up front; `input()` consumes the next one and
 * raises EOFError when none is left. `random.choice` is an arbitrary draw
 * function applied to a running draw counter.
 */
module Consoles {
  import opened Exc
  import opened Cards

  class Console {
    var lines: seq<string>
    const draw: nat -> nat
    var draws: nat

    constructor (lines: seq<string>, draw: nat -> nat)
      ensures this.lines == lines && this.draw == draw && draws == 0
    {
      this.lines := lines;
      this.draw := draw;
      draws := 0;
    }

    /** input(): the next line typed, or EOFError once nothing is left. */
    method ReadLine() returns (r: Result<string>)
      modifies this`lines
      ensures old(lines) == [] ==> r == Err(InputExhausted) && lines == []
      ensures old(lines) != [] ==> r == Ok(old(lines)[0]) && lines == old(lines)[1..]
    {
      if lines == [] {
        return Err(InputExhausted);
      }
      r := Ok(lines[0]);
      lines := lines[1..];
    }

    /** random.choice(SUITS). */
    method ChooseSuit() returns (suit: string)
      modifies this`draws
      ensures suit in SUITS && suit == SUITS[draw(old(draws)) % |SUITS|]
      ensures draws == old(draws) + 1
    {
      suit := SUITS[draw(draws) % |SUITS|];
      draws := draws + 1;
    }
  }
}
