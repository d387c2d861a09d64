/** The usual Some/None datatype, used for the hook's nullable references. */
module Wrappers {

  datatype Option<+T> = None | Some(value: T)
}
