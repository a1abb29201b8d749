/** The optional value that stands for a possibly-nil pointer in the validator. */
module Optional {

  datatype Option<+T> = None | Some(value: T)
}
