/** Pure bounded classification of upstream failures (execution/failures.py). */
module Failures {
  import opened Prelude
  import opened Domain
  import opened HealthModels

  datatype FailureDecision = FailureDecision(
    failureClass: FailureClass, routerError: RouterError, retryAfter: Option<real>)

  const PROVIDER_TRANSIENT_STATUS := {500, 502, 503, 504, 529}

  function ClassifyHttpStatus(status: int): FailureClass {
    if 200 <= status < 300 then Success
    else if status == 401 then ProviderPermanent
    else if status == 404 then TargetPermanent
    else if status == 429 then TargetTransient
    else if status in PROVIDER_TRANSIENT_STATUS then ProviderTransient
    else RequestRejected
  }

  function RouterErrorForFailure(failureClass: FailureClass): RouterError {
    match failureClass
    case ClientCancelled => CancelledError()
    case ProviderTransient => PlainError("router_upstream_retryable", 503, true)
    case TargetTransient => PlainError("router_upstream_retryable", 503, true)
    case PostCommitStreamFailure => PlainError("router_upstream_read_failed", 502, false)
    case Success => PlainError("router_internal_error", 500, false)
    case _ => UpstreamRejected()
  }

  /** The decision for a classified failure with its parsed, bounded Retry-After. */
  function DecisionForClass(failureClass: FailureClass, retryAfter: Option<real>): FailureDecision {
    FailureDecision(failureClass, RouterErrorForFailure(failureClass).(retryAfter := retryAfter), retryAfter)
  }

  function DecisionForHttp(status: int, retryAfter: Option<real>): FailureDecision {
    DecisionForClass(ClassifyHttpStatus(status), retryAfter)
  }

  const TRANSIENT_CODES := {
    "router_upstream_empty_stream", "router_upstream_header_timeout",
    "router_upstream_invalid_stream", "router_upstream_read_failed"}

  function DecisionForRouterError(error: RouterError): FailureDecision {
    FailureDecision(if error.code in TRANSIENT_CODES then ProviderTransient else RequestRejected, error, None)
  }

  /** Failures after which the health machine counts towards a cooldown and execution may try another target. */
  predicate Transient(failureClass: FailureClass) {
    failureClass == ProviderTransient || failureClass == TargetTransient
  }

  // The pre-commit errors that the router itself raises around a Provider call.
  function EmptyStream(): RouterError { PlainError("router_upstream_empty_stream", 503, true) }
  function ReadFailed(): RouterError { PlainError("router_upstream_read_failed", 503, true) }
  function InvalidStream(): RouterError { PlainError("router_upstream_invalid_stream", 502, true) }

  const OWN_ERRORS := {
    ResponseHeaderTimeout(), EmptyStream(), ReadFailed(), InvalidStream(), TimeoutError(), UpstreamRejected()}

  /** What execution decides and what health is told agree: a fallback is allowed exactly
      when the recorded class is transient, for every HTTP status, every class a Provider
      adapter reports, and every error the router raises itself. */
  lemma FallbackAgreesWithHealth(status: int, failureClass: FailureClass, retryAfter: Option<real>, error: RouterError)
    requires error in OWN_ERRORS
    ensures DecisionForHttp(status, retryAfter).routerError.fallbackAllowed
      <==> Transient(DecisionForHttp(status, retryAfter).failureClass)
    ensures DecisionForClass(failureClass, retryAfter).routerError.fallbackAllowed <==> Transient(failureClass)
    ensures DecisionForRouterError(error).routerError.fallbackAllowed
      <==> Transient(DecisionForRouterError(error).failureClass)
  {}

  /** For any router error the two agree exactly when the code is one of the transient
      codes just if fallback is allowed; nothing guarantees it for an error that a
      Provider adapter makes up. */
  lemma ForeignErrorsMayDisagree(error: RouterError)
    ensures (error.fallbackAllowed <==> Transient(DecisionForRouterError(error).failureClass))
      <==> (error.fallbackAllowed <==> error.code in TRANSIENT_CODES)
    ensures var made := PlainError("router_provider_busy", 503, true);
      made.fallbackAllowed && DecisionForRouterError(made).failureClass == RequestRejected
  {}
}
