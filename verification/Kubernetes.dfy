/** Vocabulary shared by the models: optional values, and the answers of the Kubernetes API. */
module Kubernetes {

  datatype Option<+T> = None | Some(value: T)

  /** The kinds of error the operator tells apart. `Unavailable` stands for every other failure:
      a timeout, a refused connection, or the operator process dying during the call. */
  datatype ApiError = NotFound | Conflict | AlreadyExists | Invalid | Unavailable

  datatype Result<+T> = Success(value: T) | Failure(error: ApiError)

  /** `client.IgnoreNotFound(err) != nil` */
  predicate IsOtherError<T>(r: Result<T>) {
    r.Failure? && r.error != NotFound
  }

  /** How one call of the operator ends. `Lost`: it takes effect but its answer does not arrive.
      `Crashed`: the operator process dies. A rejection is a conflict only in models that leave
      object versions out; where versions are tracked, conflicts follow from them. */
  datatype Fate = Served | Rejected(conflict: bool) | Lost | Crashed(applied: bool)

  predicate TakesEffect(fate: Fate) {
    fate.Served? || fate.Lost? || (fate.Crashed? && fate.applied)
  }
}
