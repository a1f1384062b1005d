/** The shapes of what the ModelScope service sends back, already parsed:
    the transport and JSON decoding are not modelled, only their outcome. */
module ModelScopeApi {

  import opened Wrappers

  /** The nested `errors` object of an error reply. */
  datatype NestedError = NestedError(message: Option<string>)

  /** An error reply: every field optional. */
  datatype ErrorPayload = ErrorPayload(
    message: Option<string>,
    error: Option<string>,
    errors: Option<NestedError>,
    code: Option<string>)

  /** What an error body that is not JSON is read as: `{}`. */
  const EmptyPayload: ErrorPayload := ErrorPayload(None, None, None, None)

  /** The reply to a task submission. */
  datatype TaskPayload = TaskPayload(taskId: Option<string>)

  /** The reply to a status query; `taskStatus` is whatever text the
      service sent. */
  datatype TaskStatusPayload = TaskStatusPayload(
    taskStatus: Option<string>,
    outputImages: Option<seq<string>>,
    errorMessage: Option<string>)

  /** One HTTP reply as the adapter sees it. `Ok` is a 2xx status, whose body
      is `None` when it is not JSON; `NotOk` is any other status, with the
      error body when it is JSON. */
  datatype Reply<T> =
    | Ok(body: Option<T>)
    | NotOk(status: int, errorBody: Option<ErrorPayload>)

  /** The error payload of a reply that is not ok: an unparseable body
      counts as the empty payload (`.catch(() => ({}))`). */
  function ErrorPayloadOf(errorBody: Option<ErrorPayload>): (p: ErrorPayload)
    ensures errorBody.None? ==> p == EmptyPayload
    ensures errorBody.Some? ==> p == errorBody.value
  {
    errorBody.GetOr(EmptyPayload)
  }
}
