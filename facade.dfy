/** `ModelScopeProvider.generate`: checks the token, assembles the request
    body, submits the task and polls for its result. */
module ProviderFacade {

  import opened Wrappers
  import opened Errors
  import opened JsString
  import opened Decimal
  import opened ModelScopeApi
  import opened TaskSubmitter
  import opened ResultPoller

  const DefaultModel := "Tongyi-MAI/Z-Image-Turbo"
  const DefaultSteps := 9
  const MinTokenLength := 8
  const TokenTooShortMessage := "Token is too short"
  /** Generated seeds lie in [0, SeedBound). */
  const SeedBound := 2147483647

  /** A JSON value, as the request body holds them. */
  datatype Json =
    | Null
    | Bool(b: bool)
    | Number(n: real)
    | Str(s: string)
    | Array(items: seq<Json>)
    | Object(fields: map<string, Json>)

  /** JavaScript truthiness of a value (NaN is not modelled). */
  predicate IsTruthyValue(v: Json): (b: bool)
    ensures !b <==> v == Null || v == Bool(false) || v == Number(0.0) || v == Str("")
  {
    match v
    case Null => false
    case Bool(b) => b
    case Number(n) => n != 0.0
    case Str(s) => s != ""
    case Array(_) => true
    case Object(_) => true
  }

  /** What the caller asks for. `loras` is passed through untouched. */
  datatype GenerateRequest = GenerateRequest(
    prompt: string,
    negativePrompt: Option<string>,
    width: int,
    height: int,
    model: Option<string>,
    seed: Option<int>,
    steps: Option<int>,
    guidanceScale: Option<real>,
    loras: Option<Json>,
    authToken: Option<string>)

  datatype GenerationResult = GenerationResult(url: string, seed: int)

  /** The token checks made before any network call: a missing or empty
      token is `AuthRequired`; a token whose trimmed UTF-16 length is below
      8 is `AuthInvalid`; otherwise the trimmed token is used. */
  function CheckToken(authToken: Option<string>): (r: Result<string, ProviderFailure>)
    ensures r == Failure(AuthRequired) <==> !IsTruthy(authToken)
    ensures r == Failure(AuthInvalid(TokenTooShortMessage)) <==>
      IsTruthy(authToken) && Utf16Length(Trim(authToken.value)) < MinTokenLength
    ensures r.Success? <==>
      IsTruthy(authToken) && Utf16Length(Trim(authToken.value)) >= MinTokenLength
    ensures r.Success? ==> r.value == Trim(authToken.value)
  {
    if !IsTruthy(authToken) then Failure(AuthRequired)
    else
      var token := Trim(authToken.value);
      if Utf16Length(token) < MinTokenLength then Failure(AuthInvalid(TokenTooShortMessage))
      else Success(token)
  }

  /** A token of white space only is present but too short. */
  lemma WhiteSpaceTokenIsTooShort(token: string)
    requires token != [] && AllWhiteSpace(token)
    ensures CheckToken(Some(token)) == Failure(AuthInvalid(TokenTooShortMessage))
  {
    TrimAllWhiteSpace(token);
  }

  /** White space around a token is dropped before the length check and
      before the token is used. */
  lemma PaddedTokenIsTrimmed(lead: string, token: string, trail: string)
    requires AllWhiteSpace(lead) && AllWhiteSpace(trail)
    requires token != [] && !IsWhiteSpace(token[0]) && !IsWhiteSpace(token[|token| - 1])
    ensures CheckToken(Some(lead + token + trail)) ==
      if Utf16Length(token) < MinTokenLength then Failure(AuthInvalid(TokenTooShortMessage))
      else Success(token)
  {
    TrimPadding(lead, token, trail);
  }

  /** The length is counted in UTF-16 code units: four characters outside
      the Basic Multilingual Plane make a long enough token. */
  lemma FourAstralCharactersAreLongEnough(token: string)
    requires |token| == 4
    requires forall k :: 0 <= k < 4 ==> token[k] as int > 0xFFFF
    ensures CheckToken(Some(token)) == Success(token)
  {
    assert !IsWhiteSpace(token[0]) && !IsWhiteSpace(token[3]);
    TrimUnchanged(token);
    Utf16LengthOfAstral(token);
  }

  /** `${width}x${height}`. */
  function SizeString(width: int, height: int): (s: string)
    ensures 'x' in s
    ensures forall k :: 0 <= k < |s| ==> IsNumeral(s[k]) || s[k] == 'x'
  {
    IntToString(width) + "x" + IntToString(height)
  }

  /** The size string holds one 'x', and the numbers on either side of it
      read back as the width and the height. */
  lemma SizeStringReadsBack(width: int, height: int)
    ensures var s := SizeString(width, height); var i := |IntToString(width)|;
      && i < |s| && s[i] == 'x'
      && (forall k :: 0 <= k < |s| && s[k] == 'x' ==> k == i)
      && ParseInt(s[..i]) == width
      && ParseInt(s[i + 1..]) == height
  {
    var w, h := IntToString(width), IntToString(height);
    var s := SizeString(width, height);
    var i := |w|;
    assert s[..i] == w;
    assert s[i + 1..] == h;
    forall k | 0 <= k < |s| && k != i ensures s[k] != 'x' {
      if k < i {
        assert s[k] == w[k];
      } else {
        assert s[k] == h[k - i - 1];
      }
    }
    IntToStringRoundTrip(width);
    IntToStringRoundTrip(height);
  }

  /** `request.seed ?? <random>`: the caller's seed, even 0, else the
      generated one. */
  function ResolveSeed(seed: Option<int>, randomSeed: int): (r: int)
    requires 0 <= randomSeed < SeedBound
    ensures seed.Some? ==> r == seed.value
    ensures seed.None? ==> r == randomSeed && 0 <= r < SeedBound
  {
    seed.GetOr(randomSeed)
  }

  /** The keys a request body may hold. */
  const RequiredKeys: set<string> := {"prompt", "model", "size", "seed", "steps"}
  const OptionalKeys: set<string> := {"negative_prompt", "guidance", "loras"}

  /** The body submitted for `req` with seed `seed`: the five required keys
      always, each optional key exactly when the caller's field is truthy
      (negative prompt, loras) or defined (guidance), and nothing else. */
  predicate IsRequestBody(req: GenerateRequest, seed: int, body: map<string, Json>) {
    && RequiredKeys <= body.Keys
    && body.Keys <= RequiredKeys + OptionalKeys
    && ("negative_prompt" in body <==> IsTruthy(req.negativePrompt))
    && ("guidance" in body <==> req.guidanceScale.Some?)
    && ("loras" in body <==> req.loras.Some? && IsTruthyValue(req.loras.value))
    && body["prompt"] == Str(req.prompt)
    && body["model"] == Str(if IsTruthy(req.model) then req.model.value else DefaultModel)
    && body["size"] == Str(SizeString(req.width, req.height))
    && body["seed"] == Number(seed as real)
    && body["steps"] == Number(req.steps.GetOr(DefaultSteps) as real)
    && ("negative_prompt" in body ==> body["negative_prompt"] == Str(req.negativePrompt.value))
    && ("guidance" in body ==> body["guidance"] == Number(req.guidanceScale.value))
    && ("loras" in body ==> body["loras"] == req.loras.value)
  }

  /** At most one body fits a request and a seed. */
  lemma RequestBodyUnique(req: GenerateRequest, seed: int, b1: map<string, Json>, b2: map<string, Json>)
    requires IsRequestBody(req, seed, b1) && IsRequestBody(req, seed, b2)
    ensures b1 == b2
  {
    assert b1.Keys == b2.Keys;
    forall k | k in b1 ensures b1[k] == b2[k] {
      assert k in RequiredKeys + OptionalKeys;
    }
  }

  /** Builds the body as the source does: the required keys first, then
      each optional key added in place when its condition holds. */
  method AssembleBody(req: GenerateRequest, seed: int) returns (body: map<string, Json>)
    ensures IsRequestBody(req, seed, body)
  {
    body := map[
      "prompt" := Str(req.prompt),
      "model" := Str(if IsTruthy(req.model) then req.model.value else DefaultModel),
      "size" := Str(SizeString(req.width, req.height)),
      "seed" := Number(seed as real),
      "steps" := Number(req.steps.GetOr(DefaultSteps) as real)
    ];
    if IsTruthy(req.negativePrompt) {
      body := body["negative_prompt" := Str(req.negativePrompt.value)];
    }
    if req.guidanceScale.Some? {
      body := body["guidance" := Number(req.guidanceScale.value)];
    }
    if req.loras.Some? && IsTruthyValue(req.loras.value) {
      body := body["loras" := req.loras.value];
    }
  }

  /** What went over the wire: the bearer token of every request, the
      submitted body, the task whose status was queried, how many status
      queries were made and how many delays followed the queries that did
      not settle the task. */
  datatype Trace = Trace(
    bearer: Option<string>,
    submitted: Option<map<string, Json>>,
    polledTask: Option<string>,
    pollQueries: nat,
    delays: nat)

  const NoTraffic := Trace(None, None, None, 0, 0)

  /** The outcome of the polling loop that a generation result reflects. */
  function PollOutcomeOf(result: Result<GenerationResult, ProviderFailure>): Result<string, ProviderFailure> {
    match result
    case Success(r) => Success(r.url)
    case Failure(e) => Failure(e)
  }

  /** `generate`, with the transport replaced by its scripted replies:
      `submitReply` answers the submission and `pollScript[k]` the k-th
      status query; `randomSeed` is the generated seed. */
  method Generate(req: GenerateRequest, randomSeed: int, submitReply: Reply<TaskPayload>,
                  pollScript: seq<Reply<TaskStatusPayload>>)
    returns (result: Result<GenerationResult, ProviderFailure>, trace: Trace)
    requires 0 <= randomSeed < SeedBound
    requires |pollScript| >= MaxPollAttempts
    // token checks come before any traffic
    ensures CheckToken(req.authToken).Failure? ==>
      result == Failure(CheckToken(req.authToken).error) && trace == NoTraffic
    // otherwise the trimmed token is the bearer and the body is submitted
    ensures CheckToken(req.authToken).Success? ==>
      && trace.bearer == Some(CheckToken(req.authToken).value)
      && trace.submitted.Some?
      && IsRequestBody(req, ResolveSeed(req.seed, randomSeed), trace.submitted.value)
    // a failed submission is raised as it is, and nothing is polled
    ensures CheckToken(req.authToken).Success? && SubmitTask(submitReply).Failure? ==>
      && result == Failure(SubmitTask(submitReply).error)
      && trace.polledTask == None && trace.pollQueries == 0 && trace.delays == 0
    // a submitted task is polled, and the result is the poll's
    ensures CheckToken(req.authToken).Success? && SubmitTask(submitReply).Success? ==>
      && trace.polledTask == Some(SubmitTask(submitReply).value)
      && PollRun(pollScript, PollOutcomeOf(result), trace.pollQueries, trace.delays)
    // the seed returned is the one submitted
    ensures result.Success? ==>
      && result.value.seed == ResolveSeed(req.seed, randomSeed)
      && trace.submitted.Some? && trace.submitted.value["seed"] == Number(result.value.seed as real)
  {
    var checked := CheckToken(req.authToken);
    if checked.Failure? {
      return Failure(checked.error), NoTraffic;
    }
    var token := checked.value;
    var seed := ResolveSeed(req.seed, randomSeed);
    var body := AssembleBody(req, seed);
    var submitted := SubmitTask(submitReply);
    if submitted.Failure? {
      return Failure(submitted.error), Trace(Some(token), Some(body), None, 0, 0);
    }
    var taskId := submitted.value;
    var outcome, queries, delays, _ := PollForResult(pollScript);
    trace := Trace(Some(token), Some(body), Some(taskId), queries, delays);
    if outcome.Failure? {
      return Failure(outcome.error), trace;
    }
    result := Success(GenerationResult(outcome.value, seed));
  }

  // ---------------------------------------------------------------------
  // Whole runs of `generate` against scripted replies.

  const AcceptedReply: Reply<TaskPayload> := Ok(Some(TaskPayload(Some("task-1"))))

  /** A valid token, an accepted submission, then PENDING, PENDING and
      SUCCEED: the image and the resolved seed, after exactly three status
      queries of the submitted task. */
  method SucceedsOnThirdQuery(req: GenerateRequest, randomSeed: int, script: seq<Reply<TaskStatusPayload>>)
    returns (result: Result<GenerationResult, ProviderFailure>, trace: Trace)
    requires 0 <= randomSeed < SeedBound
    requires CheckToken(req.authToken).Success?
    requires |script| >= MaxPollAttempts
    requires script[0] == PendingReply && script[1] == PendingReply
    requires script[2] == Ok(Some(TaskStatusPayload(Some("SUCCEED"), Some(["http://x/img.png"]), None)))
    ensures result == Success(GenerationResult("http://x/img.png", ResolveSeed(req.seed, randomSeed)))
    ensures trace.polledTask == Some("task-1") && trace.pollQueries == 3 && trace.delays == 2
  {
    assert SubmitTask(AcceptedReply) == Success("task-1");
    result, trace := Generate(req, randomSeed, AcceptedReply, script);
    TwoPendingThenSucceed(script, PollOutcomeOf(result), trace.pollQueries, trace.delays);
  }

  /** A valid token, an accepted submission, then only PENDING: a timeout
      after exactly 35 status queries. */
  method TimesOutAfterThirtyFiveQueries(req: GenerateRequest, randomSeed: int, script: seq<Reply<TaskStatusPayload>>)
    returns (result: Result<GenerationResult, ProviderFailure>, trace: Trace)
    requires 0 <= randomSeed < SeedBound
    requires CheckToken(req.authToken).Success?
    requires |script| >= MaxPollAttempts
    requires forall k :: 0 <= k < |script| ==> script[k] == PendingReply
    ensures result == Failure(Timeout)
    ensures trace.pollQueries == MaxPollAttempts && trace.delays == MaxPollAttempts
  {
    assert SubmitTask(AcceptedReply) == Success("task-1");
    result, trace := Generate(req, randomSeed, AcceptedReply, script);
    AllPendingTimesOut(script, PollOutcomeOf(result), trace.pollQueries, trace.delays);
  }
}
