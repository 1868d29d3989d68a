/** Go's `(value, error)` returns, as datatypes. An error is its message string, because the
    handlers and `CreateOne` compare and forward messages verbatim. */
module Results {

  datatype Option<+T> = None | Some(value: T)

  /** A call that yields a value or an error message. */
  datatype Result<+T> = Ok(value: T) | Err(error: string)

  /** A call that yields only an error or nil (`Pass`). */
  datatype Outcome = Pass | Fail(message: string)
}
