/** Option and Result, shared by the other modules. */
module Wrappers {

  /** An optional value; `None` stands for Go's nil slice. */
  datatype Option<+T> = None | Some(value: T)

  /** A value or the error that took its place. */
  datatype Result<+R, +E> = Success(value: R) | Failure(error: E)
}
