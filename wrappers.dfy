/** Option and Result, the two failure-carrying shapes the model uses for Go's
    nil pointers and its (value, error) returns, and the byte strings both
    modules share. */
module Wrappers {

  datatype Option<+T> = None | Some(value: T)

  datatype Result<+R, +E> = Success(value: R) | Failure(error: E)

  /** A Go []byte. */
  type Bytes = seq<bv8>
}
