/** The two result shapes the Python code expresses with `None` and with
    exceptions that are caught and turned into dictionaries. */
module Wrappers {

  /** A value that may be absent (Python `None`). */
  datatype Option<+T> = None | Some(value: T)

  /** A value, or the text of the exception that was raised instead (`str(e)`). */
  datatype Result<+T, +E> = Ok(value: T) | Err(error: E)
}
