/** Option and Result, used wherever the JavaScript code has `undefined`/`null` results or throws. */
module Wrappers {

  /** `None` stands for JavaScript's `undefined` or `null`. */
  datatype Option<+T> = None | Some(value: T)

  /** `Failure` stands for a rejected promise or a thrown exception. */
  datatype Result<+R, +E> = Success(value: R) | Failure(error: E)
}
