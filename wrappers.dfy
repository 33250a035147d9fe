/** Option and Result: the model's stand-ins for C#'s null and for thrown exceptions. */
module Wrappers {

  /** `None` plays the part of a C# null (a missing `int?`, a null dictionary). */
  datatype Option<+T> = None | Some(value: T) {
    function GetOr(default: T): T {
      match this
      case Some(v) => v
      case None => default
    }
  }

  /** `Failure` plays the part of an exception that propagates out of the call. */
  datatype Result<+R, +E> = Success(value: R) | Failure(error: E)
}
