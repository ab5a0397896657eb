/** Optional values and success-or-error results, standing for JavaScript's
    `null`/`undefined` returns and thrown errors. */
module Wrappers {

  datatype Option<+T> = None | Some(value: T)

  /** `Failure` carries the message of the error the source throws. */
  datatype Result<+R, +E> = Success(value: R) | Failure(error: E)
}
