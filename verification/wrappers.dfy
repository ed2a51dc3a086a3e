/** Failure-compatible datatypes shared by the model: `Option` for lookups that
    may find nothing and `Result` for operations that raise an exception in the
    Python code. Both work with Dafny's `:-` operator. */
module Wrappers {

  datatype Option<+T> = None | Some(value: T)

  /** `Ok` carries the value a call returns; `Err` carries the exception it raises. */
  datatype Result<+T, +E> = Ok(value: T) | Err(error: E) {

    predicate IsFailure() {
      Err?
    }

    function PropagateFailure<U>(): Result<U, E>
      requires Err?
    {
      Err(error)
    }

    function Extract(): T
      requires Ok?
    {
      value
    }
  }
}
