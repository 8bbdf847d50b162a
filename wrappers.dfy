/** Option and Result, used for the optional telemetry channels and for the
    steps of the ingestion path that can fail. */
module Wrappers {

  datatype Option<+T> = None | Some(value: T)

  datatype Result<+R, +E> = Success(value: R) | Failure(error: E)
}
