/** Small failure-carrying datatypes shared by the other modules. */
module Wrappers {

  /** A value that may be missing; `None` stands for JavaScript's `undefined`
      or for an empty form field (`''`). */
  datatype Option<+T> = None | Some(value: T)

  /** The outcome of an operation that the source lets throw. */
  datatype Result<+R, +E> = Success(value: R) | Failure(error: E)
}
