/** Option and Result, the failure-carrying values the model uses in place of
    Python's `None` lookups and raised exceptions. */
module Wrappers {

  datatype Option<+T> = None | Some(value: T)

  datatype Result<+T, +E> = Ok(value: T) | Err(error: E)
}
