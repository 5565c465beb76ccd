/** Optional values and pass/fail results, used in place of the source's `null` and `throw`. */
module Wrappers {

  datatype Option<+T> = None | Some(value: T)

  /** The outcome of a check that either passes or throws an error. */
  datatype Outcome<+E> = Pass | Fail(error: E)

  /** A value, or the error that was thrown instead of producing it. */
  datatype Result<+T, +E> = Ok(value: T) | Err(error: E)
}
