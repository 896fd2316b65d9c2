/** Option: a value that may be missing (pandas NaN in this model). */
module Wrappers {

  datatype Option<+T> = None | Some(value: T)
}
