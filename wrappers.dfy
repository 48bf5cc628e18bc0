/** Optional values and results with an error message, shared by every module. */
module Wrappers {

  /** A value that may be absent. `None` also stands for an IEEE NaN or an unknown height. */
  datatype Option<T> = None | Some(value: T) {
    predicate IsSome() { Some? }

    function GetOr(default: T): T {
      match this
      case None => default
      case Some(v) => v
    }
  }

  /** The outcome of an operation that can fail with a message (a thrown exception in the source). */
  datatype Result<T> = Success(value: T) | Failure(error: string) {
    predicate IsFailure() { Failure? }
  }
}
