/** Option and Result, the two failure-carrying shapes the rest of the model uses:
    `Option` for C#'s nullable references and values, `Result` for an operation
    that may throw instead of returning. */
module Wrappers {

  datatype Option<+T> = None | Some(value: T)

  datatype Result<+R, +E> = Success(value: R) | Failure(error: E)
}
