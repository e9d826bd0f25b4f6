/** The optional value the components use where a component holds
    `T | null` or a lookup may find nothing. */
module Wrappers {
  datatype Option<+T> = None | Some(value: T)
}
