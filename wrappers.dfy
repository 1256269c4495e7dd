/** Failure-carrying values shared by every module of the model. */
module Wrappers {

  datatype Option<+T> = None | Some(value: T)

  /** The result of a Go function returning only `error`: `Pass` is a nil error,
      `Fail(msg)` an error whose text is `msg`. */
  datatype Outcome = Pass | Fail(error: string)

  /** The result of a Go function returning `(T, error)`. */
  datatype Result<+T> = Ok(value: T) | Err(error: string)
}
