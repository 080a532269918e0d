/** A value or nothing; NULL for the pointers that are modelled as numbers. */
module Options {

  datatype Option<+T> = None | Some(value: T)
}
