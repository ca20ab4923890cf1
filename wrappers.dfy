/** An optional value: a ROS parameter that may be unset, a factory that may throw. */
module Wrappers {
  datatype Option<+T> = None | Some(value: T)
}
