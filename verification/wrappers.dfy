/** The optional-value datatype used for the nullable fields of the session
    state (`User | null`, the message, the storage slot's `string | null`). */
module Wrappers {

  datatype Option<+T> = None | Some(value: T)
}
