/** Values that may be absent: Go's nil pointers, zero times and "not found" results. */
module Options {
  datatype Option<+T> = None | Some(value: T)
}
