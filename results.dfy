/** Outcome types shared by the three containers: the program reports failures
    by raising an exception or by printing a "fail: ..." line; here every
    failure is a returned value. */
module Results {

  datatype Option<+T> = None | Some(value: T)

  /** A computed value, or the reason it could not be computed. */
  datatype Result<+T, +E> = Ok(value: T) | Err(error: E) {

    /** Drops the value, keeping only whether the step succeeded and why not. */
    function ToStatus(): Status<E>
    {
      match this
      case Ok(_) => Done
      case Err(e) => Failed(e)
    }
  }

  /** The outcome of an operation that returns nothing on success. */
  datatype Status<+E> = Done | Failed(error: E)

  /** `st` reports `outcome`, and `after` is the state it leaves behind:
      the computed state on success, `before` itself on failure. */
  ghost predicate Settled<T, E>(outcome: Result<T, E>, before: T, after: T, st: Status<E>)
  {
    match outcome
    case Ok(s) => st == Done && after == s
    case Err(e) => st == Failed(e) && after == before
  }
}
