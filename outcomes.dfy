/** Failure-compatible wrappers shared by every module of the model.
    An `Option` stands for a Go pointer or interface that may be nil,
    a `Result` for a Go `(value, error)` pair. */
module Outcomes {

  datatype Option<+T> = None | Some(value: T)

  datatype Result<+T> = Ok(value: T) | Err(error: string) {
    predicate IsFailure() {
      Err?
    }

    function PropagateFailure<U>(): Result<U>
      requires Err?
    {
      Err(error)
    }

    function Extract(): T
      requires Ok?
    {
      value
    }
  }
}
