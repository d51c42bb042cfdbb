/** The optional value used for the source's `None` results and omitted arguments. */
module Wrappers {
  datatype Option<+T> = None | Some(value: T)
}
