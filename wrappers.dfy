/** The optional value used for the source's `undefined`/`null` results, and a result-or-error. */
module Wrappers {
  datatype Option<+T> = None | Some(value: T)

  datatype Result<+T, +E> = Ok(value: T) | Failure(error: E)
}
