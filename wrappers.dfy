/** Go's `(value, error)` and pointer-or-nil returns, as datatypes. */
module Wrappers {

  /** An error is carried as its message text, like Go's `error.Error()`. */
  type Error = string

  datatype Option<+T> = None | Some(value: T)

  datatype Result<+T> = Success(value: T) | Failure(error: Error)
}
