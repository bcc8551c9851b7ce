/** Option and Result for the error paths of the modelled operations. */
module Wrappers {

  datatype Option<+T> = None | Some(value: T)

  /** `Failure` stands for a thrown exception; `error` is its message. */
  datatype Result<+R, +E> = Success(value: R) | Failure(error: E)
}
