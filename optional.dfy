/** A value that may be absent: Swift's `T?`. */
module Optional {
  datatype Option<+T> = None | Some(value: T)
}
