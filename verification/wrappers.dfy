/** Small failure-carrying types shared by the whole model. */
module Wrappers {

  /** An optional value: a registry lookup that may find nothing, a separator that may be absent. */
  datatype Option<+T> = None | Some(value: T)

  /** The outcome of a foreign decoder (binary or JSON): the decoded value, or the decoder's error text. */
  datatype Decoded<+T> = Decoded(value: T) | DecodeError(message: string)
}
