/** Option and Result, the model's stand-ins for Go's `(value, ok)` and `(value, error)` returns. */
module Wrappers {

  /** A value that may be absent: a nil pointer, a missing map entry, a failed `ok` check. */
  datatype Option<+T> = None | Some(value: T)

  /** A value or the text of the Go error that replaced it. */
  datatype Result<+T> = Ok(value: T) | Err(error: string)
}
