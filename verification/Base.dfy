/** Values shared by every module of the model. */
module Base {
  datatype Option<+T> = None | Some(value: T)
}
