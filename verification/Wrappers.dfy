/** Option: the absent or present value used throughout the models. */
module Wrappers {
  datatype Option<+T> = None | Some(value: T)
}
