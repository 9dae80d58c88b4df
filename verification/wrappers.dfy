/** Option and Result, the two failure-carrying datatypes the model uses for
    JavaScript's `undefined`/`null` and for thrown errors. */
module Wrappers {

  datatype Option<+T> = None | Some(value: T) {
    function GetOr(default: T): T {
      match this
      case Some(v) => v
      case None => default
    }
  }

  /** `Failure(message)` stands for an `Error` thrown with that message. */
  datatype Result<+T> = Success(value: T) | Failure(error: string)
}
