/** The optional value used throughout the model (a JSON field that may be absent,
    a round-trip time that may be unknown, a parse that may fail). */
module Wrappers {

  datatype Option<+T> = None | Some(value: T)
}
