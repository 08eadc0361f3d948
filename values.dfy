/** Shared vocabulary: optional values and the outcome of a call that may raise. */
module Values {

  /** A value that may be absent (Python's `None`). */
  datatype Option<+T> = None | Some(value: T)

  /** What a call produced: a value, or an exception carrying its message (`str(e)`). */
  datatype Result<+T> = Ok(value: T) | Err(message: string)

  /** Python truthiness of an optional number: `None` and zero are false, every other value,
      negative ones included, is true. */
  predicate Truthy(x: Option<real>) {
    x.Some? && x.value != 0.0
  }
}
