/** Option and Result values, for the macro's outcomes and the path check's verdicts. */
module Wrappers {

  datatype Option<T> = None | Some(value: T)

  /** A value, or the error that stopped its computation. */
  datatype Result<R, E> = Success(value: R) | Failure(error: E)
}
