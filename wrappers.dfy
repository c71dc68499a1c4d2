/** Optional values and results with an error, as used throughout the model. */
module Wrappers {

  /** An optional value; failure-compatible, so `:-` propagates `None`. */
  datatype Option<+T> = None | Some(value: T) {
    predicate IsFailure() {
      None?
    }

    function PropagateFailure<U>(): Option<U>
      requires None?
    {
      None
    }

    function Extract(): T
      requires Some?
    {
      value
    }

    function GetOr(default: T): T {
      match this
      case Some(v) => v
      case None => default
    }
  }

  /** A value or an error; failure-compatible, so `:-` propagates the error. */
  datatype Result<+T, +E> = Ok(value: T) | Err(error: E) {
    predicate IsFailure() {
      Err?
    }

    function PropagateFailure<U>(): Result<U, E>
      requires Err?
    {
      Err(error)
    }

    function Extract(): T
      requires Ok?
    {
      value
    }

    /** The value, forgetting the error. */
    function ToOption(): (r: Option<T>)
      ensures r.Some? <==> Ok?
    {
      match this
      case Ok(v) => Some(v)
      case Err(_) => None
    }
  }
}
