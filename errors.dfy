/** The uniform error taxonomy the adapter raises. Every error the adapter
    raises names the provider "ModelScope"; that constant is not carried. */
module Errors {

  datatype ProviderFailure =
    | AuthRequired                  // no token supplied
    | AuthInvalid(message: string)  // malformed or rejected token
    | AuthExpired                   // the service reports an expired token
    | RateLimited                   // burst limit hit
    | QuotaExceeded                 // account-level usage limit hit
    | GenerationFailed(message: string)
    | Timeout                       // the polling budget ran out
    | ProviderError(message: string)
      /** Not one of the shared error kinds: the runtime's JSON syntax error,
          thrown when a successful reply's body is not JSON and nothing
          catches it. */
    | MalformedResponse

  /** The kinds the error classifier can produce. */
  predicate IsClassifiedKind(e: ProviderFailure) {
    e.AuthInvalid? || e.RateLimited? || e.QuotaExceeded? || e.AuthExpired? || e.ProviderError?
  }
}
