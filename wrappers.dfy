/** Option type used for the queues' "pop returns nullptr when empty". */
module Wrappers {
  datatype Option<+T> = None | Some(value: T)
}
