/** The nullable values of the program: a Go `error` that may be nil, a context that may be nil. */
module Options {
  datatype Option<+T> = None | Some(value: T)
}
