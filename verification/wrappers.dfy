/** Absence and failure values shared by every component of the model. */
module Wrappers {

  /** A value that may be missing: an absent document field, a missing
      wallet record, a user who is not logged in. */
  datatype Option<+T> = None | Some(value: T)

  /** The value held by `o`, falling back to `fallback` when it is missing. */
  function ValueOr<T>(o: Option<T>, fallback: T): T {
    if o.Some? then o.value else fallback
  }

  /** The outcome of a step that either produces a value or reports
      which of its guards rejected the input. */
  datatype Result<+R, +E> = Ok(value: R) | Err(error: E)
}
