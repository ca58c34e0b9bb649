/** The outcome of a dispatchable: a value, or an error that leaves storage unchanged. */
module Results {

  datatype Result<+T, +E> = Ok(value: T) | Err(error: E)

  datatype Option<+T> = None | Some(value: T)

  /** A call succeeds into the outcome's state, or fails with its error and leaves storage alone. */
  ghost predicate Reflects<S, E>(outcome: Result<S, E>, was: S, r: Result<(), E>, now: S) {
    match outcome
    case Ok(s) => r.Ok? && now == s
    case Err(e) => r == Err(e) && now == was
  }
}
