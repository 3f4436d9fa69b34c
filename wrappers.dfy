/** The optional value used for a collaborator call that may raise instead of answering. */
module Wrappers {
  datatype Option<+T> = None | Some(value: T)
}
