/** The optional value used for parsed form fields and for the pending history slot. */
module Wrappers {

  datatype Option<+T> = None | Some(value: T)
}
