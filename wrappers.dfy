/** Option and Result, the shapes the client (`T | undefined`, `T | null`) and the
    server (`Option<T>`, `Result<T, String>`) use for absent values and errors. */
module Wrappers {

  datatype Option<+T> = None | Some(value: T)

  datatype Result<+R, +E> = Success(value: R) | Failure(error: E)
}
