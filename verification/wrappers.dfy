/** Absence and error carriers used by the contract model. */
module Wrappers {

  /** A value that may be missing: the nil slice GetState returns for an absent key. */
  datatype Option<+T> = None | Some(value: T)

  /** A value or the error that a contract function returns instead of it. */
  datatype Result<+T, +E> = Success(value: T) | Failure(error: E)

  /** A contract function that returns only an error (Go's `error`, nil on success). */
  datatype Outcome<+E> = Pass | Fail(error: E)
}
