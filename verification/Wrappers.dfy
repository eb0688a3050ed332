module Wrappers {
  /** A value that may be missing. */
  datatype Option<T> = None | Some(value: T)

  /** How a Redis command ends: answered; failed with no effect; applied with its answer lost. */
  datatype Fault = NoFault | Dropped | Applied
}
