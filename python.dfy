/** The few pieces of the Python runtime that the modelled code relies on:
    an optional value (for `None`), a result that is either a value or a
    raised exception, and the built-in exception kinds the code raises or
    triggers. */
module Python {

  /** `None` or a value, as for the optional `label` and `source` of a document. */
  datatype Option<+T> = None | Some(value: T)

  /** The exception kinds raised by the modelled code, each with its message. */
  datatype Exception =
    | TypeError(message: string)
    | KeyError(message: string)
    | ValueError(message: string)
    | IndexError(message: string)
    | ZeroDivisionError(message: string)

  /** A call that either returns a value or raises an exception. */
  datatype Result<+T> = Ok(value: T) | Raise(error: Exception) {

    predicate IsFailure() {
      Raise?
    }

    function PropagateFailure<U>(): Result<U>
      requires Raise?
    {
      Raise(error)
    }

    function Extract(): T
      requires Ok?
    {
      value
    }
  }
}
