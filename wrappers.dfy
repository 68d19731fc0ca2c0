/** The optional value used for Swift's `Optional` (a selection that may be absent,
    a failable raw-value initialiser). */
module Wrappers {

  datatype Option<+T> = None | Some(value: T)
}
