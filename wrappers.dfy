/** The optional value used for "a datagram arrived this cycle, or none did". */
module Wrappers {

  datatype Option<+T> = None | Some(value: T)
}
