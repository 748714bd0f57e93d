/** Absence and failure as values: every optional field of a Fitbit response is
    an `Option`, and every client call that can throw is a `Result`. */
module Base {

  /** A field that may be missing from a response (a Java `null`). */
  datatype Option<+T> = None | Some(value: T) {

    /** The present value, or `default` when the field is absent. */
    function GetOr(default: T): T {
      match this
      case Some(v) => v
      case None => default
    }
  }

  /** The outcome of a call that either returns a value or raises an error. */
  datatype Result<+T, +E> = Success(value: T) | Failure(error: E) {

    /** Applies `f` to a success value and passes a failure through unchanged. */
    function MapValue<U>(f: T -> U): (r: Result<U, E>)
      ensures Success? <==> r.Success?
      ensures Success? ==> r.value == f(value)
      ensures Failure? ==> r.error == error
    {
      match this
      case Success(v) => Success(f(v))
      case Failure(e) => Failure(e)
    }
  }
}
