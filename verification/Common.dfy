/** The optional value used by every component of the model. */
module Common {
  datatype Option<+T> = None | Some(value: T)
}
