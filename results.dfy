/** Failure-compatible wrappers shared by every module of the model.

    `Result<T>` stands for a Python computation that either returns a value or
    raises an exception.  The exception's text is not part of the model;
    where a caller reports it, the text is passed in as a parameter. */
module Results {

  datatype Option<+T> = None | Some(value: T)

  datatype Result<+T> = Ok(value: T) | Raised {

    predicate IsFailure() {
      Raised?
    }

    function PropagateFailure<U>(): Result<U>
      requires Raised?
    {
      Raised
    }

    function Extract(): T
      requires Ok?
    {
      value
    }
  }
}
