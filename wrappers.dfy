/** Failure-compatible wrappers shared by the model. */
module Wrappers {

  datatype Option<+T> = None | Some(value: T)

  /** A computation that either yields a value or throws an error carrying a message. */
  datatype Result<+R> = Success(value: R) | Failure(error: string)
}
