/** Failure-compatible wrappers used across the model: a Java reference that may be
    null becomes an Option, and a call that either returns or throws becomes a Result
    (value-returning) or an Outcome (void). */
module Wrappers {

  datatype Option<+T> = None | Some(value: T)

  datatype Result<+R, +E> = Success(value: R) | Failure(error: E)

  /** The result of a `void` Java method: it returns normally or throws `error`. */
  datatype Outcome<+E> = Pass | Fail(error: E)
}
