/** The optional-value datatype used throughout the model: a JavaScript value that
    may be `undefined`/absent, or a session that may be missing. */
module Wrappers {

  datatype Option<+T> = None | Some(value: T)
}
