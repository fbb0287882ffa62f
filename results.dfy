/** Failure-carrying values shared by every module: an `Option`, a `Result`
    with a string error (Go's `error`), and an `Outcome` for calls that only
    succeed or fail (a Go function returning just `error`). */
module Results {

  datatype Option<+T> = None | Some(value: T)

  datatype Result<+T> = Ok(value: T) | Err(error: string)

  /** `Pass` is a nil `error`; `Fail(error)` carries the error text. */
  datatype Outcome = Pass | Fail(error: string)
}
