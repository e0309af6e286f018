/** Optional values and results shared by the modules of this model. */
module Wrappers {

  /** A value that may be absent: Python's `Optional[T]` (None or a value). */
  datatype Option<+T> = None | Some(value: T)

  /** The outcome of a computation that either returns `value` or raises `error`. */
  datatype Result<+R, +E> = Success(value: R) | Failure(error: E)
}
