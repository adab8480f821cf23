/** The optional value used for the engine's nullable results and its error slot. */
module Wrappers {

  datatype Option<+T> = None | Some(value: T)
}
