/** Option and Result, the two failure-carrying wrappers the rest of the model uses
    (Rust's `Option<T>` and `Result<T, E>`, Python's `None`, C#'s and Java's `null`). */
module Wrappers {

  datatype Option<+T> = None | Some(value: T)

  datatype Result<+R, +E> = Success(value: R) | Failure(error: E)
}
