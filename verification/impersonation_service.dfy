/** The impersonation endpoints (src/api/impersonationService.js): how the
    outcome of each HTTP call becomes the outcome of the service function. A
    missing endpoint on the server (HTTP 404) is taken as success when starting
    or stopping, so that impersonation still works in the client alone. */
module ImpersonationService {
  import opened Wrappers
  import opened Outcomes

  /** The status the service reads as "the endpoint does not exist". */
  const NotFound: int := 404

  /** What start and stop resolve with: the server's `response.data`, or the
      stand-in `{ success: true }` when the server has no such endpoint. */
  datatype Reply<+T> = ServerData(data: T) | AssumedSuccess

  /** `error.response?.status === 404` */
  predicate IsMissingEndpoint(f: Failure) {
    f.status == Some(NotFound)
  }

  /** `startImpersonation(userId)` */
  function StartImpersonation<T>(res: ServiceResult<T>): (c: Completion<Reply<T>>)
    ensures c.Throw? <==> res.Err? && !IsMissingEndpoint(res.failure)
    ensures c.Throw? ==> c.failure == res.failure
    ensures c == Return(AssumedSuccess) <==> res.Err? && IsMissingEndpoint(res.failure)
    ensures res.Ok? ==> c == Return(ServerData(res.value))
  {
    match res
    case Ok(data) => Return(ServerData(data))
    case Err(f) => if f.status == Some(NotFound) then Return(AssumedSuccess) else Throw(f)
  }

  /** `stopImpersonation()` */
  function StopImpersonation<T>(res: ServiceResult<T>): (c: Completion<Reply<T>>)
    ensures c.Throw? <==> res.Err? && !IsMissingEndpoint(res.failure)
    ensures c.Throw? ==> c.failure == res.failure
    ensures c == Return(AssumedSuccess) <==> res.Err? && IsMissingEndpoint(res.failure)
    ensures res.Ok? ==> c == Return(ServerData(res.value))
  {
    match res
    case Ok(data) => Return(ServerData(data))
    case Err(f) => if f.status == Some(NotFound) then Return(AssumedSuccess) else Throw(f)
  }

  /** Starting and stopping follow one policy: for the same call outcome they
      resolve or reject alike. */
  lemma StartAndStopAgree<T>(res: ServiceResult<T>)
    ensures StartImpersonation(res) == StopImpersonation(res)
  {
  }

  /** `getUserForImpersonation(userId)`: the user the server sends, or its
      failure rethrown. */
  function GetUserForImpersonation<T>(res: ServiceResult<T>): (c: Completion<T>)
    ensures c.Throw? <==> res.Err?
    ensures res.Err? ==> c == Throw(res.failure)
    ensures res.Ok? ==> c == Return(res.value)
  {
    match res
    case Ok(u) => Return(u)
    case Err(f) => Throw(f)
  }

  /** A 404 is forgiven by start and stop but not by the user lookup, and a
      server error such as 500 is forgiven by none of them. */
  lemma OnlyStartAndStopForgiveNotFound<T>(message: string)
    ensures var missing := Failure(Some(404), message);
      && StartImpersonation<T>(Err(missing)) == Return(AssumedSuccess)
      && StopImpersonation<T>(Err(missing)) == Return(AssumedSuccess)
      && GetUserForImpersonation<T>(Err(missing)) == Throw(missing)
    ensures var broken := Failure(Some(500), message);
      && StartImpersonation<T>(Err(broken)) == Throw(broken)
      && StopImpersonation<T>(Err(broken)) == Throw(broken)
      && GetUserForImpersonation<T>(Err(broken)) == Throw(broken)
    ensures var offline := Failure(None, message);
      StartImpersonation<T>(Err(offline)) == Throw(offline)
  {
  }
}
