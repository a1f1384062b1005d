/** `submitTask`'s handling of the submission reply (the request itself is
    made by the transport, which is not modelled). */
module TaskSubmitter {

  import opened Wrappers
  import opened Errors
  import opened JsString
  import opened ModelScopeApi
  import opened ErrorClassifier

  const NoTaskIdMessage := "No task_id returned"

  /** The task handle the reply carries, or the error `submitTask` raises. */
  function SubmitTask(reply: Reply<TaskPayload>): (r: Result<string, ProviderFailure>)
    ensures reply.NotOk? ==> r == Failure(Classify(reply.status, ErrorPayloadOf(reply.errorBody)))
    ensures reply.Ok? && reply.body.None? ==> r == Failure(MalformedResponse)
    ensures reply.Ok? && reply.body.Some? && !IsTruthy(reply.body.value.taskId)
            ==> r == Failure(GenerationFailed(NoTaskIdMessage))
    ensures r.Success? <==> reply.Ok? && reply.body.Some? && IsTruthy(reply.body.value.taskId)
    ensures r.Success? ==> r.value != "" && reply.body.value.taskId == Some(r.value)
  {
    match reply
    case NotOk(status, errorBody) => Failure(Classify(status, ErrorPayloadOf(errorBody)))
    case Ok(None) => Failure(MalformedResponse)
    case Ok(Some(data)) =>
      if !IsTruthy(data.taskId) then Failure(GenerationFailed(NoTaskIdMessage))
      else Success(data.taskId.value)
  }

  /** A submission never fails with a missing token or a timeout: its errors
      are the classifier's, the missing-handle error, or a body that is not
      JSON. */
  lemma SubmitFailures(reply: Reply<TaskPayload>)
    requires SubmitTask(reply).Failure?
    ensures var e := SubmitTask(reply).error;
      IsClassifiedKind(e) || e == GenerationFailed(NoTaskIdMessage) || e == MalformedResponse
  {
  }

  /** A rejected submission whose body is not JSON is classified by its
      status alone; a 429 is then a rate-limit error. */
  lemma RejectedWithoutBody(status: int)
    ensures SubmitTask(NotOk(status, None)) == Failure(Classify(status, EmptyPayload))
    ensures status == 429 ==> SubmitTask(NotOk(status, None)) == Failure(RateLimited)
  {
    ClassifyWithoutPayload(status);
  }
}
