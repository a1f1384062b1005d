/** `pollForResult`: at most 35 status queries, with a fixed delay after
    each one that does not settle the task. */
module ResultPoller {

  import opened Wrappers
  import opened Errors
  import opened JsString
  import opened ModelScopeApi
  import opened ErrorClassifier

  const MaxPollAttempts: nat := 35
  const PollIntervalMs: nat := 3000

  const SucceedStatus := "SUCCEED"
  const FailedStatus := "FAILED"
  const NoImageMessage := "No image in result"
  const TaskFailedMessage := "Task failed"

  /** What one status reply means: keep polling, or stop with a result. */
  datatype Step = Continue | Stop(outcome: Result<string, ProviderFailure>)

  /** `data.output_images?.[0]`. */
  function FirstImage(images: Option<seq<string>>): (r: Option<string>)
    ensures r.Some? <==> images.Some? && images.value != []
    ensures r.Some? ==> r.value == images.value[0]
  {
    match images
    case None => None
    case Some(list) => if list == [] then None else Some(list[0])
  }

  /** One iteration of the polling loop, for the reply it receives. */
  function PollStep(reply: Reply<TaskStatusPayload>): (s: Step)
    ensures s.Continue? <==>
      reply.Ok? && reply.body.Some?
      && reply.body.value.taskStatus != Some(SucceedStatus)
      && reply.body.value.taskStatus != Some(FailedStatus)
    ensures s.Stop? ==> s.outcome != Failure(Timeout) && s.outcome != Failure(AuthRequired)
    ensures reply.NotOk? ==> s == Stop(Failure(Classify(reply.status, ErrorPayloadOf(reply.errorBody))))
    ensures reply == Ok(None) ==> s == Stop(Failure(MalformedResponse))
    // SUCCEED settles the task with its first image, or fails when there is none
    ensures s.Stop? && s.outcome.Success? <==>
      && reply.Ok? && reply.body.Some?
      && reply.body.value.taskStatus == Some(SucceedStatus)
      && IsTruthy(FirstImage(reply.body.value.outputImages))
    ensures s.Stop? && s.outcome.Success? ==>
      s.outcome.value != "" && FirstImage(reply.body.value.outputImages) == Some(s.outcome.value)
    ensures reply.Ok? && reply.body.Some? && reply.body.value.taskStatus == Some(SucceedStatus)
            && !IsTruthy(FirstImage(reply.body.value.outputImages)) ==>
      s == Stop(Failure(GenerationFailed(NoImageMessage)))
    // FAILED carries the reply's error message, or "Task failed" when it has none
    ensures reply.Ok? && reply.body.Some? && reply.body.value.taskStatus == Some(FailedStatus) ==>
      var m := reply.body.value.errorMessage;
      && (IsTruthy(m) ==> s == Stop(Failure(GenerationFailed(m.value))))
      && (!IsTruthy(m) ==> s == Stop(Failure(GenerationFailed(TaskFailedMessage))))
    ensures s.Stop? && s.outcome.Failure? && s.outcome.error.GenerationFailed? ==>
      s.outcome.error.message != ""
  {
    match reply
    case NotOk(status, errorBody) => Stop(Failure(Classify(status, ErrorPayloadOf(errorBody))))
    case Ok(None) => Stop(Failure(MalformedResponse))
    case Ok(Some(data)) =>
      if data.taskStatus == Some(SucceedStatus) then
        var imageUrl := FirstImage(data.outputImages);
        if !IsTruthy(imageUrl) then Stop(Failure(GenerationFailed(NoImageMessage)))
        else Stop(Success(imageUrl.value))
      else if data.taskStatus == Some(FailedStatus) then
        Stop(Failure(GenerationFailed(FirstTruthy([data.errorMessage], TaskFailedMessage))))
      else
        Continue
  }

  /** What a run of the polling loop over the scripted replies looks like:
      `queries` replies were consumed, all but the last of them kept the
      loop going, and either the last one settled the outcome after
      `queries - 1` delays, or all 35 kept it going and the loop timed out
      after 35 delays. */
  predicate PollRun(script: seq<Reply<TaskStatusPayload>>, outcome: Result<string, ProviderFailure>,
                    queries: nat, delays: nat)
  {
    && 1 <= queries <= MaxPollAttempts && queries <= |script|
    && (forall k :: 0 <= k < queries - 1 ==> PollStep(script[k]).Continue?)
    && (PollStep(script[queries - 1]).Stop? ==>
          outcome == PollStep(script[queries - 1]).outcome && delays == queries - 1)
    && (PollStep(script[queries - 1]).Continue? ==>
          queries == MaxPollAttempts && outcome == Failure(Timeout) && delays == MaxPollAttempts)
  }

  /** The polling loop. The k-th status query receives `script[k]`; the
      transport answers every query, so the script covers all 35. The wait
      after each unsettled reply is counted in `delays`, and `waitedMs` is
      the time those waits take. */
  method PollForResult(script: seq<Reply<TaskStatusPayload>>)
    returns (outcome: Result<string, ProviderFailure>, queries: nat, delays: nat, waitedMs: nat)
    requires |script| >= MaxPollAttempts
    ensures PollRun(script, outcome, queries, delays)
    ensures waitedMs == delays * PollIntervalMs
  {
    queries, delays, waitedMs := 0, 0, 0;
    var attempt := 0;
    while attempt < MaxPollAttempts
      invariant 0 <= attempt <= MaxPollAttempts
      invariant queries == attempt && delays == attempt
      invariant waitedMs == delays * PollIntervalMs
      invariant forall k :: 0 <= k < attempt ==> PollStep(script[k]).Continue?
    {
      var step := PollStep(script[attempt]);
      queries := queries + 1;
      if step.Stop? {
        outcome := step.outcome;
        return;
      }
      delays, waitedMs := delays + 1, waitedMs + PollIntervalMs;
      attempt := attempt + 1;
    }
    outcome := Failure(Timeout);
  }

  /** The run is determined by the script: outcome, number of queries and
      number of delays are the same for any two runs. */
  lemma PollRunDeterministic(script: seq<Reply<TaskStatusPayload>>,
                             o1: Result<string, ProviderFailure>, q1: nat, d1: nat,
                             o2: Result<string, ProviderFailure>, q2: nat, d2: nat)
    requires PollRun(script, o1, q1, d1) && PollRun(script, o2, q2, d2)
    ensures o1 == o2 && q1 == q2 && d1 == d2
  {
  }

  /** The first settling reply within the budget ends the run: it is the
      last one queried, after one delay per earlier reply. */
  lemma FirstSettlingReplyEndsRun(script: seq<Reply<TaskStatusPayload>>, i: nat,
                                  outcome: Result<string, ProviderFailure>, queries: nat, delays: nat)
    requires i < MaxPollAttempts && i < |script|
    requires PollStep(script[i]).Stop?
    requires forall k :: 0 <= k < i ==> PollStep(script[k]).Continue?
    requires PollRun(script, outcome, queries, delays)
    ensures queries == i + 1 && delays == i && outcome == PollStep(script[i]).outcome
  {
  }

  /** The run times out exactly when none of the first 35 replies settles
      the task; it then made 35 queries and 35 delays, and no 36th query. */
  lemma TimeoutIffNothingSettles(script: seq<Reply<TaskStatusPayload>>,
                                 outcome: Result<string, ProviderFailure>, queries: nat, delays: nat)
    requires |script| >= MaxPollAttempts
    requires PollRun(script, outcome, queries, delays)
    ensures outcome == Failure(Timeout) <==>
      forall k :: 0 <= k < MaxPollAttempts ==> PollStep(script[k]).Continue?
    ensures outcome == Failure(Timeout) ==> queries == MaxPollAttempts && delays == MaxPollAttempts
  {
    if forall k :: 0 <= k < MaxPollAttempts ==> PollStep(script[k]).Continue? {
      assert PollStep(script[queries - 1]).Continue?;
    }
  }

  /** A reply that reports the task as still pending. */
  const PendingReply: Reply<TaskStatusPayload> := Ok(Some(TaskStatusPayload(Some("PENDING"), None, None)))

  /** PENDING, PENDING, then SUCCEED with one image: the image after exactly
      three queries and two delays. */
  lemma TwoPendingThenSucceed(script: seq<Reply<TaskStatusPayload>>,
                              outcome: Result<string, ProviderFailure>, queries: nat, delays: nat)
    requires |script| >= 3
    requires script[0] == PendingReply && script[1] == PendingReply
    requires script[2] == Ok(Some(TaskStatusPayload(Some("SUCCEED"), Some(["http://x/img.png"]), None)))
    requires PollRun(script, outcome, queries, delays)
    ensures outcome == Success("http://x/img.png") && queries == 3 && delays == 2
  {
    assert PollStep(script[2]) == Stop(Success("http://x/img.png"));
    FirstSettlingReplyEndsRun(script, 2, outcome, queries, delays);
  }

  /** Thirty-five PENDING replies: a timeout after exactly 35 queries. */
  lemma AllPendingTimesOut(script: seq<Reply<TaskStatusPayload>>,
                           outcome: Result<string, ProviderFailure>, queries: nat, delays: nat)
    requires forall k :: 0 <= k < |script| ==> script[k] == PendingReply
    requires PollRun(script, outcome, queries, delays)
    ensures outcome == Failure(Timeout) && queries == MaxPollAttempts && delays == MaxPollAttempts
  {
    assert script[queries - 1] == PendingReply;
  }
}
