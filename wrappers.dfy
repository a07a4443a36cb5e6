/** The optional value used for the hook's nullable state cells. */
module Wrappers {
  datatype Option<+T> = None | Some(value: T)
}
