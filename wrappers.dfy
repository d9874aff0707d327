/** Failure-carrying result types shared by the model's modules. */
module Wrappers {

  /** Python's `None`-or-value. */
  datatype Option<+T> = None | Some(value: T)

  /** The value a Python call returns, or the exception it raises. */
  datatype Result<+R, +E> = Success(value: R) | Failure(error: E)
}
