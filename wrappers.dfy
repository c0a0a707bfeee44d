/** Option and Result, the two failure-carrying wrappers the model uses:
    Option for Python's "value or None", Result for a host call that may raise. */
module Wrappers {

  datatype Option<+T> = None | Some(value: T)

  datatype Result<+R, +E> = Success(value: R) | Failure(error: E)
}
