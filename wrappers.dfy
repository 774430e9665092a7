/** Option and Result values, used where the modelled code returns null or throws. */
module Wrappers {

  datatype Option<+T> = None | Some(value: T)

  /** A value, or the exception the modelled code raises instead of returning one. */
  datatype Result<+T, +E> = Success(value: T) | Failure(error: E) {
    predicate IsFailure() {
      Failure?
    }
  }
}
