/** Failure-carrying return values: Go's `(value, error)` pairs become `Result`,
    an optional error (`error` alone) becomes `Option`. */
module Results {

  datatype Option<+T> = None | Some(value: T)

  datatype Result<+T, +E> = Ok(value: T) | Err(error: E)
}
