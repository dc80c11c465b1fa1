/** The "nothing" value that the queues' `get` and the input's `getLastButton` return. */
module Wrappers {
  datatype Option<T> = None | Some(value: T)
}
