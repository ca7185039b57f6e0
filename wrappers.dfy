/** Optional values and results with an error, used for the source's
    `null` returns and thrown errors. */
module Wrappers {

  /** `None` stands for JavaScript's `null`/`undefined` (or, for numbers,
      a value that is not finite). */
  datatype Option<+T> = None | Some(value: T)

  /** A computation that either succeeds or fails with an error value
      (the source throws). */
  datatype Result<+R, +E> = Success(value: R) | Failure(error: E)
}
