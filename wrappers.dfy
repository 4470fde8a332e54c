/** The optional value used for "no point selected" and "no field drag in progress". */
module Wrappers {

  datatype Option<+T> = None | Some(value: T)
}
