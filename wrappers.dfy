/** Outcomes of the checks the scripts perform implicitly (a failed lookup aborts a script). */
module Wrappers {
  datatype Option<+T> = None | Some(value: T)

  datatype Outcome<+E> = Pass | Fail(error: E)
}
