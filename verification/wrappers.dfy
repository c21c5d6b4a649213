/** The absent-or-present value that the engine uses for "null" results. */
module Wrappers {
  datatype Option<+T> = None | Some(value: T)
}
