/** Option and Result values shared by the whole model. */
module Wrappers {

  datatype Option<+T> = None | Some(value: T)

  /** A computation that either yields a value or raises the named error. */
  datatype Result<+T> = Success(value: T) | Failure(error: string)

  /** An operation without a value that either completes or raises the named error. */
  datatype Outcome = Pass | Fail(error: string)
}
