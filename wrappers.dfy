/** Failure-carrying values shared by every module of the model. */
module Wrappers {

  /** A value that may be absent: JavaScript's `null`/`undefined`, or a call that failed. */
  datatype Option<+T> = None | Some(value: T) {
    function GetOr(default: T): T {
      match this
      case Some(v) => v
      case None => default
    }
  }

  /** The outcome of an operation that either returns a value or throws an error. */
  datatype Result<+T, +E> = Ok(value: T) | Err(error: E)

  /** The outcome of an operation that returns nothing but may throw. */
  datatype Outcome<+E> = Pass | Fail(error: E)

  /** One field of a partial update: left as it is, or overwritten. */
  datatype Write<+T> = Keep | Put(value: T) {
    function Apply(current: T): T {
      match this
      case Keep => current
      case Put(v) => v
    }
  }

  /** An optional argument that, when given, is written into a field. */
  function WriteIfGiven<T>(o: Option<T>): Write<T> {
    match o
    case Some(v) => Put(v)
    case None => Keep
  }
}
