/** Small failure-carrying datatype shared by the menu modules. */
module Wrappers {
  datatype Option<+T> = None | Some(value: T)
}
