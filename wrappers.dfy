/** Failure-carrying results: a JavaScript `throw` becomes a `Failure` or `Fail` value. */
module Wrappers {

  datatype Option<+T> = None | Some(value: T)

  /** A value, or the error the operation would have thrown. */
  datatype Result<+R, +E> = Success(value: R) | Failure(error: E)

  /** Success without a value (a JavaScript function returning `undefined`), or an error. */
  datatype Outcome<+E> = Pass | Fail(error: E)
}
