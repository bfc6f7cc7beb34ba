/** Small failure-carrying datatypes shared by the domain and planner modules:
    Python's `None`-able values and exceptions become `Option` and `Result`. */
module Base {

  /** A Python value that may be `None`. */
  datatype Option<+T> = None | Some(value: T)

  /** The outcome of a computation that may raise: a value or the error raised. */
  datatype Result<+T, +E> = Ok(value: T) | Err(error: E)
}
