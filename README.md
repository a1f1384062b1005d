# ModelScope image-generation adapter, modelled in Dafny

This project models the ModelScope provider of the image-generation API. The
provider drives a task-based remote service. `generate` checks the caller's
token and builds the request body. `submitTask` creates a task and returns its
handle. `pollForResult` queries the task's status up to 35 times, waiting
3000 ms after each query that does not settle the task. `parseModelScopeError`
turns every error reply into one error of a fixed taxonomy
(`AuthRequired`, `AuthInvalid`, `AuthExpired`, `RateLimited`, `QuotaExceeded`,
`GenerationFailed`, `Timeout`, `ProviderError`).

The transport is replaced by scripted replies that are already parsed. One
`submitReply` answers the submission, and `pollScript[k]` answers the k-th status
query. The random seed is passed in as a parameter. Each wait between queries
is counted instead of performed. `Generate` returns a `Trace` of what went over
the wire: the bearer token, the body submitted, the task polled, how many
status queries were made and how many delays followed the queries that did not settle the task.

Modules, one per component:

- `Wrappers`: `Option` and `Result`.
- `Errors`: the error taxonomy.
- `JsString`: `toLowerCase`, `includes`, `trim` and UTF-16 `length`.
- `Decimal`: how `${n}` prints an integer.
- `ModelScopeApi`: the reply shapes.
- `ErrorClassifier`: `parseModelScopeError`.
- `TaskSubmitter`: `submitTask`.
- `ResultPoller`: `pollForResult`.
- `ProviderFacade`: `generate`.

Facts about the source that shape the model:

- The success status is the literal `SUCCEED` (lines 13, 157).
- The delay comes after each status query that does not settle the task
  (line 169). A timed-out run therefore made 35 queries and 35 delays.
- Rate-limit and quota errors carry no message from the payload (lines 46, 54).
- Status 429 gives `RateLimited` only when the authentication rule does not
  match first (lines 31-47). For example, a 429 whose message says "unauthorized"
  gives `AuthInvalid`.

## Model

| member | source | states |
|---|---|---|
| `JsString.LowerKeepsOccurrence` | apps/api/src/providers/modelscope.ts:34-58 | a word occurring in a message in any letter case occurs lower-cased in the lower-cased message, so matching ignores letter case |
| `JsString.IsTruthy` | apps/api/src/providers/modelscope.ts:28 | an optional string is falsy exactly when it is absent or empty; this truthiness also decides lines 75, 89, 95, 131, 159 and 166 |
| `JsString.Lower` | apps/api/src/providers/modelscope.ts:34-58 | `toLowerCase` never shortens a string and leaves no upper-case ASCII letter in it |
| `JsString.Contains` | apps/api/src/providers/modelscope.ts:34-58 | `includes` finds the empty word in every message, and never a word longer than the message |
| `JsString.Trim` | apps/api/src/providers/modelscope.ts:79 | `trim()` yields a contiguous run of the token whose removed ends are all JavaScript white space or line terminators and which neither starts nor ends with one |
| `JsString.TrimAllWhiteSpace` | apps/api/src/providers/modelscope.ts:79 | a token of white space only trims to the empty string |
| `JsString.TrimPadding` | apps/api/src/providers/modelscope.ts:79 | trimming removes exactly the white space padding around a text whose ends are not white space |
| `JsString.TrimIdempotent` | apps/api/src/providers/modelscope.ts:79 | trimming an already trimmed token changes nothing |
| `JsString.Utf16Length` | apps/api/src/providers/modelscope.ts:81 | `length` counts UTF-16 code units, between one and two per character |
| `JsString.Utf16LengthOfAstral` | apps/api/src/providers/modelscope.ts:81 | characters outside the Basic Multilingual Plane count two code units each |
| `Decimal.IntToStringRoundTrip` | apps/api/src/providers/modelscope.ts:85 | the decimal text `${n}` of an integer reads back as the same integer |
| `Decimal.IntToString` | apps/api/src/providers/modelscope.ts:28 | `${n}` is a non-empty run of digits, led by a minus sign exactly when n is negative |
| `ModelScopeApi.ErrorPayloadOf` | apps/api/src/providers/modelscope.ts:125 | an error body that is not JSON counts as the empty payload `{}`; a parsed one is used as it is |
| `ErrorClassifier.FirstTruthy` | apps/api/src/providers/modelscope.ts:28 | a chain of `\|\|` over optional strings yields the first present, non-empty candidate, or the fallback when there is none |
| `ErrorClassifier.NestedMessage` | apps/api/src/providers/modelscope.ts:28 | `errors?.message` is absent when `errors` is, and is the nested `message` otherwise |
| `ErrorClassifier.ResolveMessage` | apps/api/src/providers/modelscope.ts:28 | the message an error is classified by is never empty, and is one of the three payload candidates or "HTTP <status>" |
| `ErrorClassifier.MessageResolution` | apps/api/src/providers/modelscope.ts:28 | the message is `errors.message`, else `error`, else `message`, else "HTTP <status>"; empty strings fall through; the message is never empty |
| `ErrorClassifier.Classify` | apps/api/src/providers/modelscope.ts:26-64 | the classifier is total and yields only AuthInvalid, RateLimited, QuotaExceeded, AuthExpired or ProviderError; AuthInvalid and ProviderError carry the resolved message verbatim |
| `ErrorClassifier.FirstMatch` | apps/api/src/providers/modelscope.ts:31-60 | finds the first rule of a priority list that matches the status or the lower-cased message; no earlier rule matches |
| `ErrorClassifier.ClassifyFollowsRules` | apps/api/src/providers/modelscope.ts:31-63 | for every status and payload, the classifier equals the priority table auth, rate limit, quota, expiry, with ProviderError as the fallback |
| `ErrorClassifier.FirstMatchingRuleDecides` | apps/api/src/providers/modelscope.ts:31-60 | first match wins: the earliest matching rule decides the error, whatever later rules would match |
| `ErrorClassifier.NoMatchingRuleGivesProviderError` | apps/api/src/providers/modelscope.ts:62-63 | when no rule matches, the error is ProviderError with the resolved message verbatim |
| `ErrorClassifier.WordInAnyLetterCase` | apps/api/src/providers/modelscope.ts:34-58 | a rule's word written in any letter case decides by that rule, unless an earlier rule matches |
| `ErrorClassifier.TooManyRequestsIsRateLimited` | apps/api/src/providers/modelscope.ts:41-47 | status 429 gives RateLimited whenever the authentication rule does not match |
| `ErrorClassifier.ForbiddenIsAuthInvalid` | apps/api/src/providers/modelscope.ts:31-38 | status 401 or 403 always gives AuthInvalid with the resolved message, whatever the message says |
| `ErrorClassifier.ClassifyWithoutPayload` | apps/api/src/providers/modelscope.ts:28-63 | with an empty payload, 401 and 403 give AuthInvalid("HTTP <status>"), 429 gives RateLimited, and every other status gives ProviderError("HTTP <status>") |
| `ErrorClassifier.InsufficientQuotaIsQuotaExceeded` | apps/api/src/providers/modelscope.ts:49-55 | a 400 reply with `error` "insufficient quota" gives QuotaExceeded |
| `TaskSubmitter.SubmitTask` | apps/api/src/providers/modelscope.ts:124-135 | a non-ok reply raises the classifier's error for its status and payload; an ok reply without a truthy `task_id` raises GenerationFailed("No task_id returned"); otherwise the non-empty `task_id` is returned |
| `TaskSubmitter.SubmitFailures` | apps/api/src/providers/modelscope.ts:124-135 | a submission fails only with a classified error, the missing-handle error, or a body that is not JSON |
| `TaskSubmitter.RejectedWithoutBody` | apps/api/src/providers/modelscope.ts:124-127 | a rejected submission with a body that is not JSON is classified by its status alone; a 429 is then RateLimited |
| `ResultPoller.FirstImage` | apps/api/src/providers/modelscope.ts:158 | `output_images?.[0]` is present exactly when the list is present and non-empty, and is then its first element |
| `ResultPoller.PollStep` | apps/api/src/providers/modelscope.ts:149-169 | one status reply continues the loop exactly when it is ok, parsed, and neither SUCCEED nor FAILED; a non-ok reply stops with the classified error and an ok reply that is not JSON with MalformedResponse; it succeeds exactly on SUCCEED with a truthy first image, which it returns; SUCCEED without one fails with "No image in result"; FAILED fails with the reply's truthy `error_message`, else "Task failed" |
| `ResultPoller.PollForResult` | apps/api/src/providers/modelscope.ts:138-173 | at most 35 queries; every reply before the last continued the loop; the last one settles the outcome after one delay per earlier query, or all 35 continued and the outcome is Timeout after 35 delays |
| `ResultPoller.PollRunDeterministic` | apps/api/src/providers/modelscope.ts:138-173 | the script determines the outcome, the number of queries and the number of delays |
| `ResultPoller.FirstSettlingReplyEndsRun` | apps/api/src/providers/modelscope.ts:139-169 | the number of queries is the index of the first settling reply plus one, and its outcome is the run's |
| `ResultPoller.TimeoutIffNothingSettles` | apps/api/src/providers/modelscope.ts:139-172 | the run times out exactly when none of the first 35 replies settles the task, after 35 queries and 35 delays, with no 36th query |
| `ResultPoller.TwoPendingThenSucceed` | apps/api/src/providers/modelscope.ts:157-169 | PENDING, PENDING, SUCCEED with one image gives that image after exactly 3 queries and 2 delays |
| `ResultPoller.AllPendingTimesOut` | apps/api/src/providers/modelscope.ts:139-172 | only PENDING replies give Timeout after exactly 35 queries |
| `ProviderFacade.CheckToken` | apps/api/src/providers/modelscope.ts:75-83 | a missing or empty token is AuthRequired; a token whose trimmed UTF-16 length is below 8 is AuthInvalid("Token is too short"); otherwise the trimmed token is used, in each case exactly |
| `ProviderFacade.WhiteSpaceTokenIsTooShort` | apps/api/src/providers/modelscope.ts:75-83 | a non-empty token of white space only passes the presence check and fails as too short |
| `ProviderFacade.PaddedTokenIsTrimmed` | apps/api/src/providers/modelscope.ts:79-83 | white space around a token is ignored by the length check and dropped from the token used |
| `ProviderFacade.FourAstralCharactersAreLongEnough` | apps/api/src/providers/modelscope.ts:81 | four characters outside the Basic Multilingual Plane pass the 8-unit length check |
| `ProviderFacade.SizeStringReadsBack` | apps/api/src/providers/modelscope.ts:85 | the size string has exactly one 'x', with the width before it and the height after it, both readable |
| `ProviderFacade.SizeString` | apps/api/src/providers/modelscope.ts:85 | `${width}x${height}` holds an 'x' and is made of numerals and 'x' only |
| `ProviderFacade.IsTruthyValue` | apps/api/src/providers/modelscope.ts:103 | in `if (request.loras)`, a JSON value is falsy exactly when it is null, false, 0 or the empty string |
| `ProviderFacade.ResolveSeed` | apps/api/src/providers/modelscope.ts:86 | the caller's seed, even 0, wins; otherwise the generated seed, which lies in [0, 2147483647) |
| `ProviderFacade.RequestBodyUnique` | apps/api/src/providers/modelscope.ts:87-105 | the body description fixes the body: two bodies that fit one request and seed are equal |
| `ProviderFacade.AssembleBody` | apps/api/src/providers/modelscope.ts:87-105 | prompt, model, size, seed and steps are always present; model defaults when absent or empty, steps only when absent; negative_prompt is present iff truthy, guidance iff defined, loras iff truthy; no other key |
| `ProviderFacade.Generate` | apps/api/src/providers/modelscope.ts:74-111 | token failures raise with no traffic; otherwise the trimmed token is the bearer and the described body is submitted; a failed submission is raised with no polling; a submitted task is polled as PollRun describes; a success returns the submitted seed |
| `ProviderFacade.SucceedsOnThirdQuery` | apps/api/src/providers/modelscope.ts:107-110 | a valid token, an accepted task, then any script starting PENDING, PENDING, SUCCEED returns the image and the resolved seed after exactly 3 queries of that task |
| `ProviderFacade.TimesOutAfterThirtyFiveQueries` | apps/api/src/providers/modelscope.ts:107-108 | a valid token, an accepted task, then a script of only PENDING replies gives Timeout after exactly 35 queries |

## Left out

- HTTP transport: `fetch`, the base URL, the request headers, `JSON.stringify` and `response.json()` (lines 114-122, 140-147). Replies come in already parsed. A JSON body of the wrong shape is not modelled, such as `null` or a number where a string is expected. Neither is a rejected `fetch`.
- Time and concurrency: `async`/`await` and the real 3000 ms `setTimeout` (lines 175-177). `PollForResult` counts the delays. Its `waitedMs` output is their total duration.
- `Math.random()` (line 86): the generated seed is the `randomSeed` parameter. It is required to lie in [0, 2147483647), the range `Math.floor(Math.random() * 2147483647)` yields.
- `ResultPoller.PollForResult`: requires 35 scripted replies, since a transport answers every query. Replies past the last query are never read.
- The shared `Errors` factory and the `./types` module are not part of this model. Errors are a local datatype, and none carries the provider name "ModelScope". `MalformedResponse` stands for the JSON syntax error that an ok reply with a non-JSON body throws uncaught (lines 129, 154). The request's `loras` field is an opaque JSON value.
- The module-level singleton `modelscopeProvider` and the `id`, `name` and `baseUrl` fields: they have no behaviour.
- `JsString.Lower`: models `toLowerCase` only for A-Z, KELVIN SIGN and LATIN CAPITAL LETTER I WITH DOT ABOVE. Every other character stays as it is. This matters for nothing but matching the classifier's ASCII words, because those are the only lower-case mappings that produce ASCII.
- `Decimal.IntToString`: prints every integer in plain decimal. JavaScript switches to exponent notation at 10^21 and up. Widths, heights and statuses that are not integers are not modelled.
- `ProviderFacade.IsTruthyValue`: treats every number other than 0 as truthy, because NaN is not modelled.
- Lone UTF-16 surrogates: JavaScript strings, `trim()` and `length` accept them, but a Dafny `char` is a Unicode scalar value and cannot hold one. Every string in the model is a sequence of scalar values, so a token or message holding a lone surrogate is not modelled.
- Seeds and steps that are not integers: `GenerateRequest` types `seed` and `steps` as `int`. A fractional or NaN seed or step count, which JavaScript would pass through into the body, is not modelled.
