/** Small shared datatypes: Python's `None`-or-value and exception-or-value. */
module Common {

  /** A value that may be Python's `None`. */
  datatype Option<T> = None | Some(value: T)

  /** The outcome of an operation that may raise instead of returning. */
  datatype Result<T, E> = Ok(value: T) | Err(error: E)

  function Max(a: real, b: real): real { if a < b then b else a }

  function Min(a: real, b: real): real { if a < b then a else b }
}
