/** Failure-compatible wrappers shared by the model.

    Python signals failure by raising; here a raised exception is an `Err`
    carrying its message, and a `None` return is an `Option`. */
module Results {

  datatype Option<+T> = None | Some(value: T)

  /** An exception as seen by an `except Exception` handler: only its message. */
  datatype Error = Raised(message: string)

  datatype Result<+T> = Ok(value: T) | Err(error: Error) {

    predicate IsFailure() {
      Err?
    }

    function PropagateFailure<U>(): Result<U>
      requires Err?
    {
      Err(error)
    }

    function Extract(): T
      requires Ok?
    {
      value
    }
  }
}
