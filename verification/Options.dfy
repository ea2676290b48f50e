/** The optional value used throughout the model in place of Go's nil. */
module Options {
  datatype Option<+T> = None | Some(value: T)
}
