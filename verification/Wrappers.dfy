/** The absent-or-present value the components share. */
module Wrappers {

  datatype Option<+T> = None | Some(value: T)
}
