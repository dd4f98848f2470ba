/** An optional value: the microphone loop and the event stream both either
    produce something or nothing at each step. */
module Wrappers {
  datatype Option<+T> = None | Some(value: T)
}
