/** The optional value used for empty columns, absent properties and failed lookups. */
module Wrappers {

  datatype Option<T> = None | Some(value: T)
}
