/** Option, Result and Outcome: the model's stand-ins for Python's None/NaN
    and for the exceptions the plotting code raises. */
module Wrappers {

  /** None stands for Python's None and, for numbers, for NaN. */
  datatype Option<+T> = None | Some(value: T)

  /** Ok carries a value; Err carries the exception the source would raise. */
  datatype Result<+T, +E> = Ok(value: T) | Err(error: E)

  /** Pass or Fail for checks that only raise. */
  datatype Outcome<+E> = Pass | Fail(error: E)
}
