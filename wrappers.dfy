/** Option and Result, the two failure-carrying datatypes the model uses:
    Option stands for a JavaScript value that may be `undefined`, Result for
    a call that either returns a value or throws. */
module Wrappers {

  datatype Option<+T> = None | Some(value: T) {
    function GetOr(default: T): T {
      match this
      case Some(v) => v
      case None => default
    }
  }

  datatype Result<+R, +E> = Success(value: R) | Failure(error: E)
}
