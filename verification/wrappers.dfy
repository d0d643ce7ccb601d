/** Optional values and results with an error, used for nullable columns and
    for operations that can be refused. */
module Wrappers {

  /** A nullable value: `None` is SQL NULL / Python `None`. */
  datatype Option<+T> = None | Some(value: T)

  /** The outcome of an operation that either produces a value or fails with
      an error describing why. */
  datatype Result<+T, +E> = Ok(value: T) | Err(error: E)
}
