/** Option and Result, the two failure-carrying shapes used throughout the model.
    `Failure` stands for a Python or JavaScript exception that propagates. */
module Wrappers {

  datatype Option<+T> = None | Some(value: T) {
    function GetOr(default: T): T {
      match this
      case Some(v) => v
      case None => default
    }
  }

  datatype Result<+R> = Success(value: R) | Failure(error: string)
}
