/** The usual optional value, shared by every component of the model. */
module Options {

  datatype Option<+T> = None | Some(value: T)
}
