/** Option and Outcome: a value that may be missing (a NaN, a KeyError), and
    the result of a library call that may raise instead of returning. */
module Outcomes {

  datatype Option<+T> = None | Some(value: T)

  /** `Raised` stands for any exception escaping the call. */
  datatype Outcome<+T> = Ok(value: T) | Raised
}
