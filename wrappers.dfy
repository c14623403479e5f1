/** The optional value used for sensor readings (None is a read that raised)
    and for the source's attributes that may hold None. */
module Wrappers {
  datatype Option<+T> = None | Some(value: T)
}
