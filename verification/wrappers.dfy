/**
 * An optional value: a lookup that may find nothing, a field that may be
 * absent, a message that may not be shown.
 */
module Wrappers {

  datatype Option<+T> = None | Some(value: T)
}
