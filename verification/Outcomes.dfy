// Result types shared by the component models.
module Outcomes {

  datatype Option<+T> = None | Some(value: T)

  /** The source raises HTTPException(status); a model returns Failure(status). */
  datatype Result<+T> = Success(value: T) | Failure(status: int) {
    predicate IsFailure() { Failure? }

    function PropagateFailure<U>(): Result<U>
      requires Failure?
    {
      Failure(status)
    }

    function Extract(): T
      requires Success?
    {
      value
    }
  }
}
