/** The optional value used wherever a lookup in the model may find nothing. */
module Options {

  datatype Option<+T> = None | Some(value: T)
}
