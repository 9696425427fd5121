/** Result shapes shared by the whole model. */
module Outcomes {

  datatype Option<T> = None | Some(value: T)

  /** A Go `(value, error)` pair where exactly one of the two is meaningful. */
  datatype Result<T, E> = Ok(value: T) | Err(error: E)

  /** How a Go call ends: it returns, or it panics and takes the service process down with it.
      `reason` is the text the panic carries. */
  datatype Outcome<T> = Returned(value: T) | Fatal(reason: string)
}
