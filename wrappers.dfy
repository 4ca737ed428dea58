/** Error-carrying results shared by every module: Go's `(value, error)` pairs
    become `Result`, a bare `error` return becomes `Outcome`, and a nil-able
    reference becomes `Option`. */
module Wrappers {

  datatype Option<+T> = None | Some(value: T)

  datatype Result<+T, +E> = Success(value: T) | Failure(error: E)

  datatype Outcome<+E> = Pass | Fail(error: E)
}
