/** Option and Result values shared by every component of the model. */
module Wrappers {
  datatype Option<+T> = None | Some(value: T)

  /** A value, or the refusal the source reports as an exception or a nonzero status. */
  datatype Result<+T> = Ok(value: T) | Err
  {
    predicate IsFailure() { Err? }
    function PropagateFailure<U>(): Result<U>
      requires Err?
    {
      Err
    }
    function Extract(): T
      requires Ok?
    {
      value
    }
  }
}
