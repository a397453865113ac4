/** The optional values the engine's early exits and guarded steps produce. */
module Outcomes {

  datatype Option<T> = None | Some(value: T)
}
