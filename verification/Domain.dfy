/** Immutable values shared by routing and execution (domain.py, errors.py). */
module Domain {
  import opened Prelude

  datatype Capability =
    | Streaming | Tools | Thinking | Vision | PromptCache | Reasoning
    | StructuredOutput | ResponseState | ProviderManagedTools

  datatype Protocol = AnthropicMessages | OpenAIResponses

  datatype Tier = Fast | Balanced | Deep

  datatype OutcomeSignal = SignalSuccess | SignalFailure | SignalUnknown

  datatype TaskSignals = TaskSignals(
    complexPlanning: bool, debugging: bool, review: bool, multiFileRefactor: bool)

  datatype RoutingRequest = RoutingRequest(
    requestedProfile: string,
    requiredCapabilities: set<Capability>,
    estimatedInputTokens: int,
    messageCount: int,
    toolRounds: int,
    systemSizeBucket: string,
    taskSignals: TaskSignals,
    outcomeSignal: OutcomeSignal,
    stream: bool,
    countOnly: bool,
    protocol: Protocol,
    responseStateRequested: bool,
    providerManagedToolsRequested: bool)

  datatype ModelTarget = ModelTarget(
    alias: string,
    provider: string,
    upstreamModel: string,
    tier: Tier,
    capabilities: set<Capability>,
    maxInputTokens: int,
    inputPricePerMillion: Option<real>,
    outputPricePerMillion: Option<real>,
    protocol: Protocol,
    stateScope: Option<string>)

  datatype ExecutionTimeouts = ExecutionTimeouts(
    connectSeconds: real,
    responseHeaderSeconds: real,
    nonStreamDeadlineSeconds: real,
    streamIdleSeconds: real,
    streamMaxSeconds: real)

  datatype ExecutionPlan = ExecutionPlan(
    primary: ModelTarget,
    fallbacks: seq<ModelTarget>,
    attemptLimit: nat,
    timeouts: ExecutionTimeouts,
    routeReason: string,
    auxiliaryReasons: seq<string>,
    profile: string,
    policyVersion: string,
    healthSnapshotRevision: nat,
    healthFilteredCount: nat,
    healthReason: Option<string>)
  {
    /** The bounded, ordered attempt sequence. */
    function Targets(): seq<ModelTarget> {
      var all := [primary] + fallbacks;
      all[..if attemptLimit <= |all| then attemptLimit else |all|]
    }
  }

  /** The fields of RouterError that routing, execution and replay look at. */
  datatype RouterError = RouterError(
    code: string,
    httpStatus: int,
    fallbackAllowed: bool,
    retryAfter: Option<real>,
    healthSnapshotRevision: nat,
    healthFilteredCount: nat,
    healthSkippedCount: nat,
    healthReason: Option<string>)

  function PlainError(code: string, status: int, fallback: bool): RouterError {
    RouterError(code, status, fallback, None, 0, 0, 0, None)
  }

  function NoCapableModel(): RouterError { PlainError("router_no_capable_model", 422, false) }
  function NoAvailableTarget(retryAfter: Option<real>): RouterError {
    PlainError("router_no_available_target", 503, false).(retryAfter := retryAfter)
  }
  function UnknownModel(): RouterError { PlainError("router_unknown_model", 400, false) }
  function UpstreamExhausted(): RouterError { PlainError("router_upstream_exhausted", 503, false) }
  function TimeoutError(): RouterError { PlainError("router_timeout", 504, false) }
  function ResponseHeaderTimeout(): RouterError { PlainError("router_upstream_header_timeout", 503, true) }
  function CancelledError(): RouterError { PlainError("router_cancelled", 499, false) }
  function UpstreamRejected(): RouterError { PlainError("router_upstream_rejected", 502, false) }
}
