/** A value that may be absent: Java's nullable reference. */
module Optional {
  datatype Option<T> = None | Some(value: T)
}
