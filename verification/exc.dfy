/** Optional values, as Python's `None`. */
module Wrappers {

  datatype Option<+T> = None | Some(value: T)
}

/**
 * The engine's error conditions. InsufficientBankroll and Overdraft are the two
 * exception classes of blackjack/exc.py; the others are the errors Python raises
 * on its own: the controller's `Exception('Unhandled response.')` and the
 * end-of-file error of an `input()` call that finds nothing left to read.
 */
module Exc {

  datatype Fault =
    | InsufficientBankroll  // InsufficientBankrollError
    | Overdraft             // OverdraftError
    | UnhandledAction       // an action name outside Hit, Stand, Double, Split, Surrender
    | InputExhausted        // input() with no answer left

  /** The result of an operation that either returns a value or raises. */
  datatype Result<+T> = Ok(value: T) | Err(fault: Fault) {

    predicate IsFailure() {
      Err?
    }

    function PropagateFailure<U>(): Result<U>
      requires Err?
    {
      Err(fault)
    }

    function Extract(): T
      requires Ok?
    {
      value
    }
  }
}
