/** The optional-value datatype shared by the other modules. */
module Wrappers {

  /** `None` stands for an absent value (a missing registry entry, or a number that parsed to NaN). */
  datatype Option<+T> = None | Some(value: T)
}
