/** Optional values and results with an error, shared by every module of the model. */
module Wrappers {

  /** An optional value; `None` also stands for JavaScript's `undefined`, `null` and `NaN`. */
  datatype Option<+T> = None | Some(value: T)

  /** The outcome of an operation that may fail with an error of type `E`. */
  datatype Result<+T, +E> = Ok(value: T) | Err(error: E)
}
