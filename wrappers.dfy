/** The optional value used for the fields of an announce record and for parse results. */
module Wrappers {
  datatype Option<+T> = None | Some(value: T)
}
