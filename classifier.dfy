/** `parseModelScopeError`: maps a status code and an error payload to
    exactly one error of the taxonomy. */
module ErrorClassifier {

  import opened Wrappers
  import opened Errors
  import opened JsString
  import opened Decimal
  import opened ModelScopeApi

  /** `data.errors?.message`: absent when `errors` is, else the nested
      `message`. */
  function NestedMessage(data: ErrorPayload): (r: Option<string>)
    ensures data.errors.None? ==> r.None?
    ensures data.errors.Some? ==> r == data.errors.value.message
    ensures r.Some? ==> data.errors.Some? && data.errors.value.message == r
  {
    match data.errors
    case None => None
    case Some(nested) => nested.message
  }

  /** Candidate `k` is the first truthy one. */
  predicate IsFirstTruthy(candidates: seq<Option<string>>, k: int) {
    && 0 <= k < |candidates|
    && IsTruthy(candidates[k])
    && forall j :: 0 <= j < k ==> !IsTruthy(candidates[j])
  }

  /** `a || b || … || fallback` over optional strings. */
  function FirstTruthy(candidates: seq<Option<string>>, fallback: string): (r: string)
    ensures || (exists k :: IsFirstTruthy(candidates, k) && r == candidates[k].value)
            || ((forall k :: 0 <= k < |candidates| ==> !IsTruthy(candidates[k])) && r == fallback)
  {
    if candidates == [] then fallback
    else if IsTruthy(candidates[0]) then
      assert IsFirstTruthy(candidates, 0);
      candidates[0].value
    else
      var r := FirstTruthy(candidates[1..], fallback);
      assert (exists k :: IsFirstTruthy(candidates[1..], k) && r == candidates[1..][k].value)
          ==> (exists k :: IsFirstTruthy(candidates, k) && r == candidates[k].value) by {
        if k :| IsFirstTruthy(candidates[1..], k) && r == candidates[1..][k].value {
          assert IsFirstTruthy(candidates, k + 1);
        }
      }
      r
  }

  /** The text an error is classified by: never empty, and either one of
      the payload's three candidate messages or "HTTP <status>". */
  function ResolveMessage(status: int, data: ErrorPayload): (r: string)
    ensures r != ""
    ensures || Some(r) == NestedMessage(data) || Some(r) == data.error || Some(r) == data.message
            || r == "HTTP " + IntToString(status)
  {
    FirstTruthy([NestedMessage(data), data.error, data.message], "HTTP " + IntToString(status))
  }

  /** Line 28 as the source writes it: `errors.message`, else `error`, else
      `message`, else "HTTP <status>"; an empty string falls through. The
      result is never empty. */
  lemma MessageResolution(status: int, data: ErrorPayload)
    ensures var m := ResolveMessage(status, data);
      && m != ""
      && (IsTruthy(NestedMessage(data)) ==> m == NestedMessage(data).value)
      && (!IsTruthy(NestedMessage(data)) && IsTruthy(data.error) ==> m == data.error.value)
      && (!IsTruthy(NestedMessage(data)) && !IsTruthy(data.error) && IsTruthy(data.message)
          ==> m == data.message.value)
      && (!IsTruthy(NestedMessage(data)) && !IsTruthy(data.error) && !IsTruthy(data.message)
          ==> m == "HTTP " + IntToString(status))
  {
    var c := [NestedMessage(data), data.error, data.message];
    assert c[0] == NestedMessage(data) && c[1] == data.error && c[2] == data.message;
    var m := ResolveMessage(status, data);
    if k :| IsFirstTruthy(c, k) && m == c[k].value {
      assert k == 0 || !IsTruthy(c[0]);
      assert k <= 1 || !IsTruthy(c[1]);
    } else {
      assert !IsTruthy(c[0]) && !IsTruthy(c[1]) && !IsTruthy(c[2]);
    }
  }

  /** The source's classifier, branch by branch (lines 26-64). */
  function Classify(status: int, data: ErrorPayload): (e: ProviderFailure)
    ensures IsClassifiedKind(e)
    ensures e.AuthInvalid? ==> e.message == ResolveMessage(status, data)
    ensures e.ProviderError? ==> e.message == ResolveMessage(status, data)
  {
    var message := ResolveMessage(status, data);
    var lowered := Lower(message);
    if || status == 401 || status == 403
       || Contains(lowered, "unauthorized") || Contains(lowered, "invalid token") then
      AuthInvalid(message)
    else if || status == 429
            || Contains(lowered, "rate limit") || Contains(lowered, "too many") then
      RateLimited
    else if || Contains(lowered, "quota") || Contains(lowered, "exceeded")
            || Contains(lowered, "insufficient") then
      QuotaExceeded
    else if Contains(lowered, "expired") then
      AuthExpired
    else
      ProviderError(message)
  }

  // ---------------------------------------------------------------------
  // The same classification stated as a priority table: the first rule
  // whose status set holds the status, or one of whose words occurs in
  // the lower-cased message, decides the kind.

  datatype Kind = AuthInvalidKind | RateLimitedKind | QuotaExceededKind | AuthExpiredKind | ProviderErrorKind

  datatype Rule = Rule(statuses: set<int>, words: seq<string>, kind: Kind)

  const Rules: seq<Rule> := [
    Rule({401, 403}, ["unauthorized", "invalid token"], AuthInvalidKind),
    Rule({429}, ["rate limit", "too many"], RateLimitedKind),
    Rule({}, ["quota", "exceeded", "insufficient"], QuotaExceededKind),
    Rule({}, ["expired"], AuthExpiredKind)
  ]

  predicate RuleMatches(rule: Rule, status: int, lowered: string) {
    status in rule.statuses || exists w :: w in rule.words && Contains(lowered, w)
  }

  /** The index of the first matching rule, or `|rules|` when none matches. */
  function FirstMatch(rules: seq<Rule>, status: int, lowered: string): (i: nat)
    ensures i <= |rules|
    ensures i < |rules| ==> RuleMatches(rules[i], status, lowered)
    ensures forall j :: 0 <= j < i ==> !RuleMatches(rules[j], status, lowered)
  {
    if rules == [] then 0
    else if RuleMatches(rules[0], status, lowered) then 0
    else 1 + FirstMatch(rules[1..], status, lowered)
  }

  /** The error of a kind; rate-limit, quota and expiry errors carry no
      message of the service's. */
  function Build(kind: Kind, message: string): ProviderFailure {
    match kind
    case AuthInvalidKind => AuthInvalid(message)
    case RateLimitedKind => RateLimited
    case QuotaExceededKind => QuotaExceeded
    case AuthExpiredKind => AuthExpired
    case ProviderErrorKind => ProviderError(message)
  }

  function KindByRules(status: int, message: string): Kind {
    var i := FirstMatch(Rules, status, Lower(message));
    if i < |Rules| then Rules[i].kind else ProviderErrorKind
  }

  /** One rule of the table, read as the condition the source tests. */
  lemma RuleConditions(status: int, l: string)
    ensures RuleMatches(Rules[0], status, l) <==>
      (status == 401 || status == 403 || Contains(l, "unauthorized") || Contains(l, "invalid token"))
    ensures RuleMatches(Rules[1], status, l) <==>
      (status == 429 || Contains(l, "rate limit") || Contains(l, "too many"))
    ensures RuleMatches(Rules[2], status, l) <==>
      (Contains(l, "quota") || Contains(l, "exceeded") || Contains(l, "insufficient"))
    ensures RuleMatches(Rules[3], status, l) <==> Contains(l, "expired")
  {
    assert Rules[0].words == ["unauthorized", "invalid token"];
    assert Rules[1].words == ["rate limit", "too many"];
    assert Rules[2].words == ["quota", "exceeded", "insufficient"];
    assert Rules[3].words == ["expired"];
  }

  /** The table has four rules, so `FirstMatch` stops at the first of them
      that matches. */
  lemma FirstMatchOfRules(status: int, l: string)
    ensures FirstMatch(Rules, status, l) ==
      if RuleMatches(Rules[0], status, l) then 0
      else if RuleMatches(Rules[1], status, l) then 1
      else if RuleMatches(Rules[2], status, l) then 2
      else if RuleMatches(Rules[3], status, l) then 3
      else 4
  {
    var i := FirstMatch(Rules, status, l);
    assert |Rules| == 4;
  }

  /** The classifier is the priority table, for every status and payload. */
  lemma ClassifyFollowsRules(status: int, data: ErrorPayload)
    ensures Classify(status, data) == Build(KindByRules(status, ResolveMessage(status, data)), ResolveMessage(status, data))
  {
    var m := ResolveMessage(status, data);
    RuleConditions(status, Lower(m));
    FirstMatchOfRules(status, Lower(m));
  }

  /** First match wins: the earliest rule that matches decides the error,
      whatever later rules would also match. */
  lemma FirstMatchingRuleDecides(status: int, data: ErrorPayload, i: int)
    requires 0 <= i < |Rules|
    requires RuleMatches(Rules[i], status, Lower(ResolveMessage(status, data)))
    requires forall j :: 0 <= j < i ==> !RuleMatches(Rules[j], status, Lower(ResolveMessage(status, data)))
    ensures Classify(status, data) == Build(Rules[i].kind, ResolveMessage(status, data))
  {
    ClassifyFollowsRules(status, data);
  }

  /** When no rule matches, the error is a generic one carrying the
      resolved message verbatim. */
  lemma NoMatchingRuleGivesProviderError(status: int, data: ErrorPayload)
    requires forall j :: 0 <= j < |Rules| ==> !RuleMatches(Rules[j], status, Lower(ResolveMessage(status, data)))
    ensures Classify(status, data) == ProviderError(ResolveMessage(status, data))
  {
    ClassifyFollowsRules(status, data);
  }

  /** Words are matched in any letter case: a message holding a rule's word
      written in upper or mixed case is classified by that rule, unless an
      earlier rule matches. */
  lemma WordInAnyLetterCase(status: int, data: ErrorPayload, i: int, word: string)
    requires 0 <= i < |Rules|
    requires Lower(word) in Rules[i].words
    requires Contains(ResolveMessage(status, data), word)
    requires forall j :: 0 <= j < i ==> !RuleMatches(Rules[j], status, Lower(ResolveMessage(status, data)))
    ensures Classify(status, data) == Build(Rules[i].kind, ResolveMessage(status, data))
  {
    LowerKeepsOccurrence(ResolveMessage(status, data), word);
    FirstMatchingRuleDecides(status, data, i);
  }

  /** Status 429 is a rate-limit error unless the authentication rule
      matches first. */
  lemma TooManyRequestsIsRateLimited(data: ErrorPayload)
    requires !RuleMatches(Rules[0], 429, Lower(ResolveMessage(429, data)))
    ensures Classify(429, data) == RateLimited
  {
    FirstMatchingRuleDecides(429, data, 1);
  }

  /** Status 401 and 403 are always an invalid-token error carrying the
      resolved message, whatever the message says. */
  lemma ForbiddenIsAuthInvalid(status: int, data: ErrorPayload)
    requires status == 401 || status == 403
    ensures Classify(status, data) == AuthInvalid(ResolveMessage(status, data))
  {
    FirstMatchingRuleDecides(status, data, 0);
  }

  /** The characters of "http <status>". */
  predicate IsStatusTextChar(c: char) {
    c == 'h' || c == 't' || c == 'p' || c == ' ' || IsNumeral(c)
  }

  /** Text made of the characters of "http <status>" holds none of the
      rules' words. */
  lemma StatusTextHoldsNoRuleWord(l: string)
    requires forall k :: 0 <= k < |l| ==> IsStatusTextChar(l[k])
    ensures !Contains(l, "unauthorized") && !Contains(l, "invalid token")
    ensures !Contains(l, "rate limit") && !Contains(l, "too many")
    ensures !Contains(l, "quota") && !Contains(l, "exceeded") && !Contains(l, "insufficient")
    ensures !Contains(l, "expired")
  {
    NotContainsMissingChar(l, "unauthorized", 'u');
    NotContainsMissingChar(l, "invalid token", 'i');
    NotContainsMissingChar(l, "rate limit", 'r');
    NotContainsMissingChar(l, "too many", 'o');
    NotContainsMissingChar(l, "quota", 'q');
    NotContainsMissingChar(l, "exceeded", 'e');
    NotContainsMissingChar(l, "insufficient", 'i');
    NotContainsMissingChar(l, "expired", 'e');
  }

  /** The lower-cased message of a reply without a usable payload. */
  lemma LowerStatusText(status: int)
    ensures Lower(ResolveMessage(status, EmptyPayload)) == "http " + IntToString(status)
  {
    var d := IntToString(status);
    MessageResolution(status, EmptyPayload);
    LowerAppend("HTTP ", d);
    LowerOfLowerFixed(d);
    assert Lower("HTTP ") == "http ";
  }

  /** With no usable payload the message is "HTTP <status>", which holds
      none of the rules' words: only the status decides. */
  lemma ClassifyWithoutPayload(status: int)
    ensures Classify(status, EmptyPayload) ==
      if status == 401 || status == 403 then AuthInvalid("HTTP " + IntToString(status))
      else if status == 429 then RateLimited
      else ProviderError("HTTP " + IntToString(status))
  {
    var d := IntToString(status);
    MessageResolution(status, EmptyPayload);
    LowerStatusText(status);
    var l := "http " + d;
    forall k | 0 <= k < |l| ensures IsStatusTextChar(l[k]) {
      if k >= 5 {
        assert l[k] == d[k - 5];
      }
    }
    StatusTextHoldsNoRuleWord(l);
  }

  /** The message of the quota example. */
  const QuotaMessage := "insufficient quota"

  /** "insufficient quota" is its own lower case. */
  lemma QuotaMessageIsLower()
    ensures Lower(QuotaMessage) == QuotaMessage
  {
    assert forall k :: 0 <= k < |QuotaMessage| ==> IsLowerFixed(QuotaMessage[k]);
    LowerOfLowerFixed(QuotaMessage);
  }

  /** "insufficient quota" lacks the letters h, v, r and m, one from each
      word of the authentication and rate-limit rules. */
  lemma QuotaMessageLacksLetters()
    ensures 'h' !in QuotaMessage && 'v' !in QuotaMessage && 'r' !in QuotaMessage && 'm' !in QuotaMessage
  {
  }

  /** "insufficient quota" holds none of the words of the authentication
      and rate-limit rules. */
  lemma QuotaMessageHoldsNoEarlierWord()
    ensures !Contains(QuotaMessage, "unauthorized") && !Contains(QuotaMessage, "invalid token")
    ensures !Contains(QuotaMessage, "rate limit") && !Contains(QuotaMessage, "too many")
  {
    QuotaMessageLacksLetters();
    NotContainsMissingChar(QuotaMessage, "unauthorized", 'h');
    NotContainsMissingChar(QuotaMessage, "invalid token", 'v');
    NotContainsMissingChar(QuotaMessage, "rate limit", 'r');
    NotContainsMissingChar(QuotaMessage, "too many", 'm');
  }

  /** "insufficient quota" holds the word "quota", at index 13. */
  lemma QuotaMessageHasQuotaWord()
    ensures Contains(QuotaMessage, "quota")
  {
    assert OccursAt(QuotaMessage, "quota", 13);
  }

  /** A message holding a quota word and no word of an earlier rule, with a
      status the earlier rules do not name, is a quota error. */
  lemma QuotaWordDecides(status: int, data: ErrorPayload, l: string)
    requires l == Lower(ResolveMessage(status, data))
    requires status != 401 && status != 403 && status != 429
    requires !Contains(l, "unauthorized") && !Contains(l, "invalid token")
    requires !Contains(l, "rate limit") && !Contains(l, "too many")
    requires Contains(l, "quota") || Contains(l, "exceeded") || Contains(l, "insufficient")
    ensures Classify(status, data) == QuotaExceeded
  {
  }

  /** The quota example's payload resolves to its `error` field. */
  lemma QuotaPayloadMessage(data: ErrorPayload)
    requires data == ErrorPayload(None, Some(QuotaMessage), None, None)
    ensures ResolveMessage(400, data) == QuotaMessage
  {
    MessageResolution(400, data);
  }

  /** A 400 reply whose `error` reads "insufficient quota" is a quota error. */
  lemma InsufficientQuotaIsQuotaExceeded(data: ErrorPayload)
    requires data == ErrorPayload(None, Some(QuotaMessage), None, None)
    ensures Classify(400, data) == QuotaExceeded
  {
    QuotaPayloadMessage(data);
    QuotaMessageIsLower();
    QuotaMessageHoldsNoEarlierWord();
    QuotaMessageHasQuotaWord();
    QuotaWordDecides(400, data, QuotaMessage);
  }
}
