/** The optional value used throughout the model for Go's nil pointers, zero UUIDs and lookup misses. */
module Options {
  datatype Option<+T> = None | Some(value: T)
}
