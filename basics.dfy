/** Option and Result values used for the error paths of the model. */
module Basics {

  datatype Option<+T> = None | Some(value: T)

  /** A result that either carries a value or the message of the error that stopped the work. */
  datatype Result<+T> = Success(value: T) | Failure(error: string) {

    predicate IsFailure() {
      Failure?
    }

    function PropagateFailure<U>(): Result<U>
      requires Failure?
    {
      Failure(error)
    }

    function Extract(): T
      requires Success?
    {
      value
    }
  }
}
