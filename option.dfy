/** An optional value: a Java reference or JSON field that may be absent. */
module Optional {
  datatype Option<+T> = None | Some(value: T)
}
