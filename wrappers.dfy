/** An optional value: a quantity that may be undefined for a given input. */
module Wrappers {

  datatype Option<+T> = None | Some(value: T)
}
