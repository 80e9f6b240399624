/** Option and Result types used for the fallible operations of the model:
    number parsing (an absent value) and configuration loading (an error). */
module Fallible {

  datatype Option<+T> = None | Some(value: T)

  /** The outcome of an operation that either yields a value or fails with an error,
      usable with Dafny's `:-` early-return operator like Rust's `?`. */
  datatype Result<+T, +E> = Success(value: T) | Failure(error: E) {

    predicate IsFailure() {
      Failure?
    }

    function PropagateFailure<U>(): Result<U, E>
      requires Failure?
    {
      Failure(error)
    }

    function Extract(): T
      requires Success?
    {
      value
    }
  }
}
