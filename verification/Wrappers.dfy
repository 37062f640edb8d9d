// The optional value used throughout the model for absent map entries and failed decodes.
module Wrappers {
  datatype Option<+T> = None | Some(value: T)
}
