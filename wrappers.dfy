/** Option and Result, used for the builder's configuration errors and for
    the reader that recovers cells from rendered lines. */
module Wrappers {

  datatype Option<+T> = None | Some(value: T)

  datatype Result<+T, +E> = Success(value: T) | Failure(error: E)
}
