/** Option, Result and Outcome: the values and the raised exceptions of the core. */
module Wrappers {

  /** A slot that may be empty (Python's `Optional[...]`, `None` when empty). */
  datatype Option<+T> = None | Some(value: T)

  /** The value a call returns, or the exception it raises. */
  datatype Result<+T, +E> = Success(value: T) | Failure(error: E)

  /** A check that returns nothing, or the exception it raises. */
  datatype Outcome<+E> = Pass | Fail(error: E)
}
