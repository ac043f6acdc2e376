/** Failure-compatible wrappers shared by the prediction adapter.

    Every `predict*` operation either resolves with a typed result or rejects.
    A rejection is modelled as `Err(f)`, with `f` naming which step failed. */
module Results {

  /** `None` stands for an absent or not-a-number value. */
  datatype Option<+T> = None | Some(value: T)

  /** Why a prediction call rejects. */
  datatype Failure =
    | NetworkError          // `fetch` itself rejects: no response at all
    | HttpError(status: int) // the response is not ok; carries its status code
    | InvalidJson           // `response.json()` rejects: the body is not JSON
    | TypeError             // a property is read on a `null` or `undefined` body

  datatype Result<+T> = Ok(value: T) | Err(failure: Failure) {

    predicate IsFailure() {
      Err?
    }

    function PropagateFailure<U>(): Result<U>
      requires Err?
    {
      Err(failure)
    }

    function Extract(): T
      requires Ok?
    {
      value
    }
  }
}
