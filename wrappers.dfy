/** An optional value, for the nullable columns of a stored record. */
module Wrappers {

  datatype Option<T> = None | Some(value: T)
}
