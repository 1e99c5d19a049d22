/** Shared vocabulary of the task servers: optional values, typed outcomes, clock readings. */
module Base {

  /** A value that may be absent (JavaScript `null`/`undefined` returns, Python `None`). */
  datatype Option<+T> = None | Some(value: T)

  /** A typed outcome: the value an operation returns, or the error the HTTP layer reports. */
  datatype Result<+T, +E> = Ok(value: T) | Err(error: E)

  /**
   * An instant read from the clock (`new Date()`, `datetime.now()`).  The servers only
   * store it, so the model never inspects it; every clock read is a parameter.
   */
  type Timestamp(==)
}
