/** Absent values and Go's `(value, error)` returns. */
module Results {

  /** A value that may be missing, as Go's `(v, ok)` lookups return it. */
  datatype Option<+T> = None | Some(value: T)

  /** `Ok(v)` stands for Go's `(v, nil)`; `Err(m)` for a zero value together
      with an error whose `Error()` text is `m`. */
  datatype Result<+T> = Ok(value: T) | Err(message: string)
}
