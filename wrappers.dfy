/** Option, Result and Outcome: the value-level form of Python's `None` and of
    a raised exception. An exception is represented by the text `str(e)` that
    the surrounding code would print or return. */
module Wrappers {

  datatype Option<+T> = None | Some(value: T)

  datatype Result<+R, +E> = Ok(value: R) | Err(error: E)

  datatype Outcome<+E> = Pass | Fail(error: E)
}
