/** The optional value used throughout the model in place of C++'s
    "no value" conventions (a missing fallback, a handler with no target). */
module Wrappers {

  datatype Option<+T> = None | Some(value: T)
}
