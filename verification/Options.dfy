/** The optional values and error returns shared by every module. */
module Options {
  datatype Option<+T> = None | Some(value: T)

  /** A Go `error` return: nil is Pass. */
  datatype Outcome<+E> = Pass | Fail(error: E)
}
