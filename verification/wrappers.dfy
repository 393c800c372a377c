/** Failure-carrying results for the operations that can raise in the chat core. */
module Wrappers {

  /** A value that may be absent, such as an optional dictionary entry. */
  datatype Option<+T> = None | Some(value: T)

  /** Either a computed value or the message of the exception that was raised instead. */
  datatype Result<+T, +E> = Success(value: T) | Failure(error: E)
}
