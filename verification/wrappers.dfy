/** Option and Result types for the model, and the error kinds the simulator raises. */
module Wrappers {

  datatype Option<+T> = None | Some(value: T)

  /** The exceptions the modelled code raises, by cause. */
  datatype Error =
    | InvalidConnection    // ValueError: connection is neither 'star' nor 'delta'
    | DivisionByZero       // ZeroDivisionError from a Python float or int division
    | TooFewPoints         // np.gradient raises on fewer than two samples
    | UnknownScenario      // ValueError from a scenario dispatcher
    | UnknownAttribute     // AttributeError from getattr on the motor record
    | MissingKey           // KeyError when a caller indexes the empty result of a failed integration

  /** A value or the exception that replaced it; usable with `:-`. */
  datatype Result<+T> = Ok(value: T) | Err(error: Error)
  {
    predicate IsFailure() { Err? }

    function PropagateFailure<U>(): Result<U>
      requires Err?
    {
      Err(error)
    }

    function Extract(): T
      requires Ok?
    {
      value
    }
  }

  /** The outcome of a method that returns nothing or raises. */
  datatype Outcome = Pass | Fail(error: Error)
}
