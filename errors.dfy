/** The Python exceptions that the modelled trainer code can raise, and a
    result type that carries either a value or one of them. */
module PyErrors {

  datatype PyError =
    | ZeroDivisionError  // a true division `/` by zero
    | AssertionError     // a failed `assert`
    | AttributeError     // `x.name` for a name the object `x` does not have
    | TypeError          // an argument of a type the callee does not accept

  datatype Result<+T> = Ok(value: T) | Err(error: PyError)

  /** A Python `Optional[...]`: `None` or a value. */
  datatype Option<+T> = None | Some(value: T)
}
