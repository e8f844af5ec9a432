/** A value that may be absent: the source's empty squares, null moves and failed reads. */
module Options {
  datatype Option<T> = None | Some(value: T)
}
