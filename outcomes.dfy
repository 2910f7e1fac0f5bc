/** Failure-carrying values used across the model: an optional value (Python's
    `None` or a value) and a result that is either a value or the exception the
    Python code would raise. */
module Outcomes {

  datatype Option<T> = None | Some(value: T)

  datatype Result<T, E> = Ok(value: T) | Err(error: E)

  /** A step that either completes or raises. */
  datatype Outcome<E> = Pass | Fail(error: E)
}
