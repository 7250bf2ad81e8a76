/** Failure-carrying results shared by the bank, the backup plugin contract
    and the restore flow. Each `Error` names the Python exception the
    corresponding source path raises. */
module Results {

  datatype Option<+T> = None | Some(value: T)

  datatype Error =
    /** `get_object` raises a bare `Exception` for a missing or `None` value. */
    | ObjectNotFound(key: string)
    /** `dict.pop` / `dict[...]` without a default raise `KeyError`. */
    | KeyError(key: string)
    /** A tick that saw an unexpected stack status reads an unbound local. */
    | UnboundStatus(stackStatus: string)
    /** The orchestration service raised while being polled. */
    | FetchFailed

  datatype Result<+T> = Success(value: T) | Failure(error: Error) {
    predicate IsFailure() { Failure? }

    function PropagateFailure<U>(): Result<U>
      requires Failure?
    {
      Failure(error)
    }

    function Extract(): T
      requires Success?
    {
      value
    }
  }
}
