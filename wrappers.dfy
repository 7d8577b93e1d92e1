/** Option and Result, the two failure-carrying shapes the model needs. */
module Wrappers {

  /** `None` stands for JavaScript's NaN / undefined where the source produces one. */
  datatype Option<+T> = None | Some(value: T)

  /** Outcome of a call into the record store: a value or the store's error. */
  datatype Result<+R, +E> = Success(value: R) | Failure(error: E)
}
