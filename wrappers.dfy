/** The optional value used for "which callback fires" and for the interval ref. */
module Wrappers {

  datatype Option<+T> = None | Some(value: T)
}
