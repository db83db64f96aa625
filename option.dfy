/** A Java reference that may be null. */
module Optional {

  datatype Option<+T> = None | Some(value: T)
}
