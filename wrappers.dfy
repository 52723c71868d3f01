/** Option, Result and Outcome datatypes shared by the other modules. */
module Wrappers {

  /** An optional value; `None` also stands for JavaScript's `undefined`. */
  datatype Option<+T> = None | Some(value: T)

  /** The value of a computation that may throw. */
  datatype Result<+T, +E> = Ok(value: T) | Err(error: E)

  /** The completion of a statement that returns nothing or throws. */
  datatype Outcome<+E> = Pass | Fail(error: E)
}
