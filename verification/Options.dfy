/** The Option datatype the modules below share. */
module Options {

  datatype Option<+T> = None | Some(value: T)
}
