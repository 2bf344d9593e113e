/** Failure-carrying values: the nullable results and the thrown exceptions of the services. */
module Wrappers {

  /** `undefined`/`null` versus a value. */
  datatype Option<+T> = None | Some(value: T) {
    function GetOr(default: T): T {
      match this
      case Some(v) => v
      case None => default
    }
  }

  /** A call that returns a value or throws an error. */
  datatype Result<+R, +E> = Success(value: R) | Failure(error: E)

  /** A call that returns nothing (`Promise<void>`) or throws an error. */
  datatype Outcome<+E> = Pass | Fail(error: E)
}
