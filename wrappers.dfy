/** Option and Result, used for parsed inputs and for the outcome of a recompute. */
module Wrappers {

  /** A parsed input field: `None` when the text is empty or does not parse. */
  datatype Option<+T> = None | Some(value: T)

  /** The outcome of validating and computing: a value, or the message to show. */
  datatype Result<+R, +E> = Success(value: R) | Failure(error: E)
}
