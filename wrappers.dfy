/** Failure-carrying results shared by the model. A C++ `throw Exception(msg)`
    becomes `Failure(msg)`; a null pointer result becomes `None`. */
module Wrappers {

  datatype Option<+T> = None | Some(value: T)

  /** The outcome of a call that returns a value or throws. */
  datatype Result<+T> = Success(value: T) | Failure(error: string)

  /** The outcome of a `void` call that may throw. */
  datatype Outcome = Pass | Fail(error: string)
}
