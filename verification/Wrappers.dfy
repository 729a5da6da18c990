/** Optional values and results that may fail, in the shape the services use
    nullable columns and thrown exceptions. */
module Wrappers {
  datatype Option<+T> = None | Some(value: T)

  datatype Result<+T, +E> = Ok(value: T) | Err(error: E)

  /** A call either ends in the state of its outcome or reports the outcome's fault and changes nothing. */
  predicate Reflects<S(==), E(==)>(before: S, outcome: Result<S, E>, fault: Option<E>, after: S) {
    match outcome
    case Ok(s) => fault == None && after == s
    case Err(f) => fault == Some(f) && after == before
  }
}
