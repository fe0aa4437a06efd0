/** Optional values (the source's nullable references) and results that may carry an error (the source's exceptions). */
module Wrappers {

  /** `None` stands for a null reference. */
  datatype Option<+T> = None | Some(value: T)

  /** `Failure` stands for an exception thrown instead of returning a value. */
  datatype Result<+R, +E> = Success(value: R) | Failure(error: E)
}
