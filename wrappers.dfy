/** Option and Result, the two failure-carrying shapes the model uses in
    place of Go's nil pointers and (value, error) pairs. */
module Wrappers {

  /** A Go pointer that may be nil, or a step that may yield no value. */
  datatype Option<+T> = None | Some(value: T)

  /** A Go (value, error) pair: exactly one of the two is meaningful. */
  datatype Result<+T, +E> = Ok(value: T) | Err(error: E)
}
