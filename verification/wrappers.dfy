/** The absent sentinel: Java's `null` for a missing type or a missing child. */
module Wrappers {

  datatype Option<+T> = None | Some(value: T)
}
