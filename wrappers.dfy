/** An optional value, standing for a reference the scene may leave unassigned. */
module Wrappers {
  datatype Option<+T> = None | Some(value: T)
}
