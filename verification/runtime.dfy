/** The Python runtime notions the model needs: values that may be `None`,
    operations that may raise, and the built-in exceptions the extension can
    raise without wrapping them in one of its own error classes. */
module Runtime {

  datatype Option<+T> = None | Some(value: T)

  datatype Result<+T, +E> = Success(value: T) | Failure(error: E) {

    predicate IsFailure() {
      Failure?
    }

    function PropagateFailure<U>(): Result<U, E>
      requires Failure?
    {
      Failure(error)
    }

    function Extract(): T
      requires Success?
    {
      value
    }
  }

  /** A Python exception that escapes the extension unhandled. */
  datatype Exception =
    | IndexError            // indexing an empty list
    | KeyError(key: string) // subscripting a dict with a missing key
    | TypeError             // an operator or subscript on the wrong kind of value
    | ValueError            // a response body that is not JSON
    | UnboundLocalError     // reading a local that was never assigned
    | BareException         // `raise Exception`
}
