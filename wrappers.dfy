/** Small failure-carrying datatypes shared by the other modules. */
module Wrappers {

  datatype Option<T> = None | Some(value: T)

  /** A Go call that returns either a value or an `error`. */
  datatype Result<T, E> = Success(value: T) | Failure(error: E)

  /** A Go call that either returns a value or panics (a failed type assertion, `log.Panicln`). */
  datatype Exec<T> = Returns(value: T) | Panics(reason: string)
}
