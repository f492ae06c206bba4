/** Failure-carrying datatypes shared by the model. */
module Wrappers {

  /** A value that may be absent (`undefined`/`null` in the source). */
  datatype Option<+T> = None | Some(value: T)

  /** The outcome of an operation that can be rejected with a message. */
  datatype Result<+R> = Success(value: R) | Failure(error: string)
}
