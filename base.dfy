/** Stock value wrappers shared by the other modules: Python's `None`, a check that
    either passes or raises, and a computation that either returns or raises. */
module Base {

  datatype Option<T> = None | Some(value: T)

  /** The outcome of a Python function that returns nothing or raises `error`. */
  datatype Outcome<E> = Pass | Fail(error: E)

  /** The outcome of a Python function that returns `value` or raises `error`. */
  datatype Result<T, E> = Ok(value: T) | Err(error: E)
}
