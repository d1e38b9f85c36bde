/** Failure-carrying result types shared by the bootstrap model. */
module Wrappers {

  datatype Option<+T> = None | Some(value: T)

  datatype Result<+R, +E> = Success(value: R) | Failure(error: E)

  /** An operation that produces no value but may fail (a rejected promise). */
  datatype Outcome<+E> = Pass | Fail(error: E)
}
