/** Failure-carrying values: `None` / `Err` stand for the places where the
    Python code raises instead of returning. */
module Wrappers {

  datatype Option<+T> = None | Some(value: T)

  datatype Result<+T, +E> = Ok(value: T) | Err(error: E)
}
