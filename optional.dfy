/** The conventional Some/None datatype, used where the source returns a nullable value. */
module Optional {
  datatype Option<+T> = None | Some(value: T)
}
