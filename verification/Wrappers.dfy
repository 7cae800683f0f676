/** Failure-compatible types shared by the models. Every refusal of the deployer and of the
    maintenance protocol is the same exception, so a refusal carries no payload. */
module Wrappers {

  datatype Option<+T> = None | Some(value: T)

  datatype Result<+T> = Ok(value: T) | Conflict {

    predicate IsFailure() {
      Conflict?
    }

    function PropagateFailure<U>(): Result<U>
      requires Conflict?
    {
      Conflict
    }

    function Extract(): T
      requires Ok?
    {
      value
    }
  }
}
