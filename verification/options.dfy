/** The optional value used wherever the hook stores `null` or a value. */
module Options {

  datatype Option<+T> = None | Some(value: T)
}
