/** Option, Result and Outcome: how the model passes absent values, store
    replies and store failures around instead of throwing. */
module Wrappers {

  datatype Option<+T> = None | Some(value: T)

  datatype Result<+T, +E> = Success(value: T) | Failure(error: E)

  /** The reply to an operation that returns nothing but may fail. */
  datatype Outcome<+E> = Pass | Fail(error: E)
}
