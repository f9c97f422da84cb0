/** Option and Result, and the Python exception kinds the modelled code can raise. */
module Wrappers {

  datatype Option<+T> = None | Some(value: T)

  datatype Result<+T, +E> = Success(value: T) | Failure(error: E)

  /** The outcome of an operation that returns nothing but may raise. */
  datatype Outcome<+E> = Pass | Fail(error: E)

  /** The exception classes raised by the builtins the core calls. */
  datatype Exception =
    | ValueError      // randint on an empty range, int() or float() on malformed text
    | TypeError       // re.search or int() given None
    | AttributeError  // a method looked up on None (`None.replace`, `None.group`)
    | OverflowError   // int() of an infinite float
}
