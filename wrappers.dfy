/** Failure-carrying values that stand in for the exceptions the client raises. */
module Wrappers {

  /** The value of a call that either returns or raises. */
  datatype Result<R, E> = Success(value: R) | Failure(error: E)

  /** The value of a call that returns nothing or raises. */
  datatype Outcome<E> = Pass | Fail(error: E)
}
