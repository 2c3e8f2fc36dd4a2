/** Optional values and success/failure results, the two shapes every
    layer of the data-fetching code passes around. */
module Wrappers {

  /** `None` stands for JavaScript's `null`/`undefined`. */
  datatype Option<+T> = None | Some(value: T)

  /** The outcome of an asynchronous call: a resolved value or the thrown error. */
  datatype Result<+R, +E> = Success(value: R) | Failure(error: E)

  function Min(a: int, b: int): int { if a <= b then a else b }
}
