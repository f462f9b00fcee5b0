/** The optional value used throughout the model for fields that may be absent. */
module Common {

  datatype Option<+T> = None | Some(value: T)
}
