/** The optional value used for the resolver's "no more pages" answer. */
module Wrappers {

  /** `None` stands for both `null` and `undefined`: the engine treats them alike. */
  datatype Option<+T> = None | Some(value: T)
}
