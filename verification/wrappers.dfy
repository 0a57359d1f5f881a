/** An optional value, in place of a null reference. */
module Wrappers {

  datatype Option<+T> = None | Some(value: T)
}
