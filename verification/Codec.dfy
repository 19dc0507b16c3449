/** Codecs of the facts kept for replay (evaluation/codec.py): each decoder inverts its encoder. */
module Codec {
  import opened Prelude
  import opened Domain
  import opened HealthModels
  import opened RoutingPolicies
  import opened JsonValues

  // --------------------------------------------------------------------- targets

  function TargetFields(v: seq<Json>): Fields
    requires |v| == 9
  {
    map[
      "provider" := v[0],
      "upstream_model" := v[1],
      "tier" := v[2],
      "capabilities" := v[3],
      "max_input_tokens" := v[4],
      "input_price_per_million" := v[5],
      "output_price_per_million" := v[6],
      "protocol" := v[7],
      "state_scope" := v[8]]
  }

  function TargetValues(t: ModelTarget): (v: seq<Json>)
    ensures |v| == 9
  {
    [JText(t.provider), JText(t.upstreamModel), JText(TierText(t.tier)), EncodeCapabilities(t.capabilities),
     JInt(t.maxInputTokens), FromOptionalReal(t.inputPricePerMillion), FromOptionalReal(t.outputPricePerMillion),
     JText(ProtocolText(t.protocol)), FromOptionalText(t.stateScope)]
  }

  /** A target's fields other than its alias. */
  function TargetBody(t: ModelTarget): Fields {
    TargetFields(TargetValues(t))
  }

  function EncodeTarget(t: ModelTarget): Json {
    JObject(map["alias" := JText(t.alias)] + TargetBody(t))
  }

  const TARGET_KEYS := {
    "alias", "provider", "upstream_model", "tier", "capabilities", "max_input_tokens", "input_price_per_million",
    "output_price_per_million", "protocol", "state_scope"}

  function DecodeTarget(f: Fields): Result<ModelTarget, CodecError> {
    var alias :- Text(f, "alias");
    var provider :- Text(f, "provider");
    var upstreamModel :- Text(f, "upstream_model");
    var tier :- TierField(f, "tier");
    var capabilities :- CapabilitiesField(f, "capabilities");
    var maxInputTokens :- Integer(f, "max_input_tokens");
    var inputPrice :- OptionalReal(f, "input_price_per_million");
    var outputPrice :- OptionalReal(f, "output_price_per_million");
    var protocol :- ProtocolField(f, "protocol");
    var stateScope :- OptionalText(f, "state_scope");
    Ok(ModelTarget(alias, provider, upstreamModel, tier, capabilities, maxInputTokens, inputPrice, outputPrice,
                   protocol, stateScope))
  }

  /** f holds the fields of t, whatever else it holds. */
  ghost predicate HoldsTarget(f: Fields, t: ModelTarget) {
    && Text(f, "alias") == Ok(t.alias)
    && Text(f, "provider") == Ok(t.provider)
    && Text(f, "upstream_model") == Ok(t.upstreamModel)
    && TierField(f, "tier") == Ok(t.tier)
    && CapabilitiesField(f, "capabilities") == Ok(t.capabilities)
    && Integer(f, "max_input_tokens") == Ok(t.maxInputTokens)
    && OptionalReal(f, "input_price_per_million") == Ok(t.inputPricePerMillion)
    && OptionalReal(f, "output_price_per_million") == Ok(t.outputPricePerMillion)
    && ProtocolField(f, "protocol") == Ok(t.protocol)
    && OptionalText(f, "state_scope") == Ok(t.stateScope)
  }

  lemma DecodesHeldTarget(f: Fields, t: ModelTarget)
    requires HoldsTarget(f, t)
    ensures DecodeTarget(f) == Ok(t)
  {}

  lemma TargetLookups(alias: Json, v: seq<Json>, f: Fields)
    requires |v| == 9 && f == map["alias" := alias] + TargetFields(v)
    ensures f.Keys == TARGET_KEYS
    ensures f["alias"] == alias && f["provider"] == v[0] && f["upstream_model"] == v[1] && f["tier"] == v[2]
    ensures f["capabilities"] == v[3] && f["max_input_tokens"] == v[4] && f["input_price_per_million"] == v[5]
    ensures f["output_price_per_million"] == v[6] && f["protocol"] == v[7] && f["state_scope"] == v[8]
  {}

  lemma EncodedTargetHolds(alias: string, t: ModelTarget, f: Fields)
    requires t.alias == alias && f == map["alias" := JText(alias)] + TargetBody(t)
    ensures HoldsTarget(f, t)
  {
    TargetLookups(JText(alias), TargetValues(t), f);
    EnumeratedFields(f, "tier");
    EnumeratedFields(f, "capabilities");
    EnumeratedFields(f, "protocol");
  }

  lemma TargetRoundTrip(t: ModelTarget)
    ensures DecodeTarget(EncodeTarget(t).fields) == Ok(t)
  {
    EncodedTargetHolds(t.alias, t, EncodeTarget(t).fields);
    DecodesHeldTarget(EncodeTarget(t).fields, t);
  }

  function EncodeTargets(ts: seq<ModelTarget>): seq<Json> {
    seq(|ts|, i requires 0 <= i < |ts| => EncodeTarget(ts[i]))
  }

  function DecodeTargets(items: seq<Json>): Result<seq<ModelTarget>, CodecError> {
    if items == [] then Ok([])
    else
      var f :- ObjectOf(items[0]);
      var first :- DecodeTarget(f);
      var rest :- DecodeTargets(items[1..]);
      Ok([first] + rest)
  }

  lemma {:induction false} TargetsRoundTrip(ts: seq<ModelTarget>)
    ensures DecodeTargets(EncodeTargets(ts)) == Ok(ts)
  {
    if ts != [] {
      TargetRoundTrip(ts[0]);
      assert EncodeTarget(ts[0]).JObject?;
      hide EncodeTarget, DecodeTarget;
      TargetsRoundTrip(ts[1..]);
      EncodedTail(ts);
      hide EncodeTargets;
      assert ts == [ts[0]] + ts[1..];
    }
  }

  lemma EncodedTail(ts: seq<ModelTarget>)
    requires ts != []
    ensures EncodeTargets(ts) != [] && EncodeTargets(ts)[0] == EncodeTarget(ts[0])
    ensures EncodeTargets(ts)[1..] == EncodeTargets(ts[1..])
  {}

  // -------------------------------------------------------------------- requests

  function EncodeSignals(s: TaskSignals): Json {
    JObject(map[
      "complex_planning" := JBool(s.complexPlanning),
      "debugging" := JBool(s.debugging),
      "review" := JBool(s.review),
      "multi_file_refactor" := JBool(s.multiFileRefactor)])
  }

  function DecodeSignals(j: Json): Result<TaskSignals, CodecError> {
    var f :- CheckedObject(j, {"complex_planning", "debugging", "review", "multi_file_refactor"});
    var complexPlanning :- Flag(f, "complex_planning");
    var debugging :- Flag(f, "debugging");
    var review :- Flag(f, "review");
    var multiFileRefactor :- Flag(f, "multi_file_refactor");
    Ok(TaskSignals(complexPlanning, debugging, review, multiFileRefactor))
  }

  function RequestFields(v: seq<Json>): Fields
    requires |v| == 13
  {
    map[
      "requested_profile" := v[0],
      "required_capabilities" := v[1],
      "estimated_input_tokens" := v[2],
      "message_count" := v[3],
      "tool_rounds" := v[4],
      "system_size_bucket" := v[5],
      "task_signals" := v[6],
      "outcome_signal" := v[7],
      "stream" := v[8],
      "count_only" := v[9],
      "protocol" := v[10],
      "response_state_requested" := v[11],
      "provider_managed_tools_requested" := v[12]]
  }

  function RequestValues(r: RoutingRequest): (v: seq<Json>)
    ensures |v| == 13
  {
    [JText(r.requestedProfile), EncodeCapabilities(r.requiredCapabilities), JInt(r.estimatedInputTokens),
     JInt(r.messageCount), JInt(r.toolRounds), JText(r.systemSizeBucket), EncodeSignals(r.taskSignals),
     JText(SignalText(r.outcomeSignal)), JBool(r.stream), JBool(r.countOnly), JText(ProtocolText(r.protocol)),
     JBool(r.responseStateRequested), JBool(r.providerManagedToolsRequested)]
  }

  function EncodeRequest(r: RoutingRequest): Json {
    JObject(RequestFields(RequestValues(r)))
  }

  const REQUEST_KEYS := {
    "requested_profile", "required_capabilities", "estimated_input_tokens", "message_count", "tool_rounds",
    "system_size_bucket", "task_signals", "outcome_signal", "stream", "count_only", "protocol",
    "response_state_requested", "provider_managed_tools_requested"}

  function DecodeRequest(j: Json): Result<RoutingRequest, CodecError> {
    var f :- CheckedObject(j, REQUEST_KEYS);
    var requestedProfile :- Text(f, "requested_profile");
    var requiredCapabilities :- CapabilitiesField(f, "required_capabilities");
    var estimatedInputTokens :- Integer(f, "estimated_input_tokens");
    var messageCount :- Integer(f, "message_count");
    var toolRounds :- Integer(f, "tool_rounds");
    var systemSizeBucket :- Text(f, "system_size_bucket");
    var taskSignals :- DecodeSignals(f["task_signals"]);
    var outcomeSignal :- SignalField(f, "outcome_signal");
    var stream :- Flag(f, "stream");
    var countOnly :- Flag(f, "count_only");
    var protocol :- ProtocolField(f, "protocol");
    var responseState :- Flag(f, "response_state_requested");
    var managedTools :- Flag(f, "provider_managed_tools_requested");
    Ok(RoutingRequest(requestedProfile, requiredCapabilities, estimatedInputTokens, messageCount, toolRounds,
                      systemSizeBucket, taskSignals, outcomeSignal, stream, countOnly, protocol, responseState,
                      managedTools))
  }

  lemma SignalsRoundTrip(s: TaskSignals)
    ensures DecodeSignals(EncodeSignals(s)) == Ok(s)
  {
    assert EncodeSignals(s).fields.Keys == {"complex_planning", "debugging", "review", "multi_file_refactor"};
  }

  ghost predicate HoldsRequest(f: Fields, r: RoutingRequest) {
    && f.Keys == REQUEST_KEYS
    && Text(f, "requested_profile") == Ok(r.requestedProfile)
    && CapabilitiesField(f, "required_capabilities") == Ok(r.requiredCapabilities)
    && Integer(f, "estimated_input_tokens") == Ok(r.estimatedInputTokens)
    && Integer(f, "message_count") == Ok(r.messageCount)
    && Integer(f, "tool_rounds") == Ok(r.toolRounds)
    && Text(f, "system_size_bucket") == Ok(r.systemSizeBucket)
    && DecodeSignals(f["task_signals"]) == Ok(r.taskSignals)
    && SignalField(f, "outcome_signal") == Ok(r.outcomeSignal)
    && Flag(f, "stream") == Ok(r.stream)
    && Flag(f, "count_only") == Ok(r.countOnly)
    && ProtocolField(f, "protocol") == Ok(r.protocol)
    && Flag(f, "response_state_requested") == Ok(r.responseStateRequested)
    && Flag(f, "provider_managed_tools_requested") == Ok(r.providerManagedToolsRequested)
  }

  lemma RequestLookups(v: seq<Json>, f: Fields)
    requires |v| == 13 && f == RequestFields(v)
    ensures f.Keys == REQUEST_KEYS
    ensures f["requested_profile"] == v[0] && f["required_capabilities"] == v[1] && f["estimated_input_tokens"] == v[2]
    ensures f["message_count"] == v[3] && f["tool_rounds"] == v[4] && f["system_size_bucket"] == v[5]
    ensures f["task_signals"] == v[6] && f["outcome_signal"] == v[7] && f["stream"] == v[8] && f["count_only"] == v[9]
    ensures f["protocol"] == v[10] && f["response_state_requested"] == v[11]
    ensures f["provider_managed_tools_requested"] == v[12]
  {}

  lemma EncodedRequestHolds(r: RoutingRequest, f: Fields)
    requires f == RequestFields(RequestValues(r))
    ensures HoldsRequest(f, r)
  {
    RequestLookups(RequestValues(r), f);
    EnumeratedFields(f, "required_capabilities");
    EnumeratedFields(f, "outcome_signal");
    EnumeratedFields(f, "protocol");
    SignalsRoundTrip(r.taskSignals);
  }

  lemma DecodesHeldRequest(f: Fields, r: RoutingRequest)
    requires HoldsRequest(f, r)
    ensures DecodeRequest(JObject(f)) == Ok(r)
  {}

  lemma RequestRoundTrip(r: RoutingRequest)
    ensures DecodeRequest(EncodeRequest(r)) == Ok(r)
  {
    EncodedRequestHolds(r, EncodeRequest(r).fields);
    DecodesHeldRequest(EncodeRequest(r).fields, r);
  }

  // -------------------------------------------------------------------- sessions

  function EncodeSession(s: Option<SessionSnapshot>): Option<Json> {
    if s.None? then None
    else Some(JObject(map[
      "last_tier" := JText(TierText(s.value.lastTier)),
      "last_outcome" := JText(SignalText(s.value.lastOutcome)),
      "consecutive_failures" := JInt(s.value.consecutiveFailures),
      "requests_since_failure" := JInt(s.value.requestsSinceFailure)]))
  }

  function DecodeSession(payload: Option<Json>): Result<Option<SessionSnapshot>, CodecError> {
    if payload.None? then Ok(None)
    else
      var f :- CheckedObject(payload.value,
        {"last_tier", "last_outcome", "consecutive_failures", "requests_since_failure"});
      var tier :- TierField(f, "last_tier");
      var outcome :- SignalField(f, "last_outcome");
      var failures :- Integer(f, "consecutive_failures");
      var since :- Integer(f, "requests_since_failure");
      Ok(Some(SessionSnapshot(tier, outcome, failures, since)))
  }

  lemma SessionRoundTrip(s: Option<SessionSnapshot>)
    ensures DecodeSession(EncodeSession(s)) == Ok(s)
  {
    if s.Some? {
      assert EncodeSession(s).value.fields.Keys ==
        {"last_tier", "last_outcome", "consecutive_failures", "requests_since_failure"};
    }
  }

  // ---------------------------------------------------------------- availability

  function EncodeTargetState(s: TargetAvailability): Json {
    JObject(map[
      "eligible" := JBool(s.eligible),
      "state" := JText(StateText(s.state)),
      "reason" := JText(ReasonText(s.reason)),
      "retry_at" := FromOptionalInstant(s.retryAt),
      "probe_scope" := if s.probeScope.Some? then JText(ScopeText(s.probeScope.value)) else JNull,
      "probe_key" := FromOptionalText(s.probeKey)])
  }

  function DecodeTargetState(j: Json): Result<TargetAvailability, CodecError> {
    var f :- ObjectOf(j);
    var eligible :- Flag(f, "eligible");
    var stateText :- Text(f, "state");
    var state :- ParseState(stateText);
    var reasonText :- Text(f, "reason");
    var reason :- ParseReason(reasonText);
    var retryAt :- OptionalInstant(f, "retry_at");
    var scopeText :- OptionalText(f, "probe_scope");
    var probeKey :- OptionalText(f, "probe_key");
    if scopeText.None? then Ok(TargetAvailability(eligible, state, reason, retryAt, None, probeKey))
    else
      var scope :- ParseScope(scopeText.value);
      Ok(TargetAvailability(eligible, state, reason, retryAt, Some(scope), probeKey))
  }

  lemma TargetStateRoundTrip(s: TargetAvailability)
    ensures DecodeTargetState(EncodeTargetState(s)) == Ok(s)
  {
    assert ParseState(StateText(s.state)) == Ok(s.state);
    assert ParseReason(ReasonText(s.reason)) == Ok(s.reason);
    assert s.probeScope.Some? ==> ParseScope(ScopeText(s.probeScope.value)) == Ok(s.probeScope.value);
    hide ParseState, StateText, ParseReason, ReasonText, ParseScope, ScopeText;
  }

  function DecodeStateEntry(alias: string, j: Json): Result<TargetAvailability, CodecError> {
    DecodeTargetState(j)
  }

  function EncodeAvailability(a: AvailabilitySnapshot): Json {
    JObject(map[
      "revision" := JInt(a.revision),
      "observed_at" := JInstant(a.observedAt),
      "earliest_recovery_at" := FromOptionalInstant(a.earliestRecoveryAt),
      "target_states" := JObject(map alias | alias in a.targetStates :: EncodeTargetState(a.targetStates[alias]))])
  }

  function DecodeAvailability(j: Json): Result<AvailabilitySnapshot, CodecError> {
    var f :- CheckedObject(j, {"revision", "observed_at", "earliest_recovery_at", "target_states"});
    var states :- Object(f, "target_states");
    var targetStates :- DecodeMap(states, DecodeStateEntry);
    var revision :- Natural(f, "revision");
    var observedAt :- Instant(f, "observed_at");
    var earliest :- OptionalInstant(f, "earliest_recovery_at");
    Ok(AvailabilitySnapshot(revision, observedAt, targetStates, earliest))
  }

  lemma TargetStatesRoundTrip(states: map<string, TargetAvailability>)
    ensures DecodeMap(map alias | alias in states :: EncodeTargetState(states[alias]), DecodeStateEntry) == Ok(states)
  {
    var f := map alias | alias in states :: EncodeTargetState(states[alias]);
    forall alias | alias in f
      ensures DecodeStateEntry(alias, f[alias]) == Ok(states[alias])
    {
      TargetStateRoundTrip(states[alias]);
    }
    MapRoundTrip(f, DecodeStateEntry, states);
  }

  lemma AvailabilityRoundTrip(a: AvailabilitySnapshot)
    ensures DecodeAvailability(EncodeAvailability(a)) == Ok(a)
  {
    TargetStatesRoundTrip(a.targetStates);
    assert EncodeAvailability(a).fields.Keys == {"revision", "observed_at", "earliest_recovery_at", "target_states"};
  }

  // ----------------------------------------------------------------------- plans

  function EncodeTimeouts(t: ExecutionTimeouts): Json {
    JObject(map[
      "connect_seconds" := JReal(t.connectSeconds),
      "response_header_seconds" := JReal(t.responseHeaderSeconds),
      "non_stream_deadline_seconds" := JReal(t.nonStreamDeadlineSeconds),
      "stream_idle_seconds" := JReal(t.streamIdleSeconds),
      "stream_max_seconds" := JReal(t.streamMaxSeconds)])
  }

  const TIMEOUT_KEYS := {
    "connect_seconds", "response_header_seconds", "non_stream_deadline_seconds", "stream_idle_seconds",
    "stream_max_seconds"}

  /** ExecutionTimeouts(**value): unknown and missing names are rejected. */
  function DecodeTimeouts(f: Fields, k: string): Result<ExecutionTimeouts, CodecError> {
    if k !in f then Err(Incompatible)
    else
      var g :- CheckedObject(f[k], TIMEOUT_KEYS);
      var connect :- Real(g, "connect_seconds");
      var header :- Real(g, "response_header_seconds");
      var nonStream :- Real(g, "non_stream_deadline_seconds");
      var idle :- Real(g, "stream_idle_seconds");
      var stream :- Real(g, "stream_max_seconds");
      Ok(ExecutionTimeouts(connect, header, nonStream, idle, stream))
  }

  lemma TimeoutsRoundTrip(f: Fields, k: string, t: ExecutionTimeouts)
    requires k in f && f[k] == EncodeTimeouts(t)
    ensures DecodeTimeouts(f, k) == Ok(t)
  {
    assert EncodeTimeouts(t).fields.Keys == TIMEOUT_KEYS;
  }

  function PlanFields(v: seq<Json>): Fields
    requires |v| == 11
  {
    map[
      "primary" := v[0],
      "fallbacks" := v[1],
      "attempt_limit" := v[2],
      "timeouts" := v[3],
      "route_reason" := v[4],
      "auxiliary_reasons" := v[5],
      "profile" := v[6],
      "policy_version" := v[7],
      "health_snapshot_revision" := v[8],
      "health_filtered_count" := v[9],
      "health_reason" := v[10]]
  }

  function PlanValues(p: ExecutionPlan): (v: seq<Json>)
    ensures |v| == 11
  {
    [EncodeTarget(p.primary), JArray(EncodeTargets(p.fallbacks)), JInt(p.attemptLimit), EncodeTimeouts(p.timeouts),
     JText(p.routeReason), JArray(EncodeTexts(p.auxiliaryReasons)), JText(p.profile), JText(p.policyVersion),
     JInt(p.healthSnapshotRevision), JInt(p.healthFilteredCount), FromOptionalText(p.healthReason)]
  }

  function EncodePlan(p: ExecutionPlan): Json {
    JObject(PlanFields(PlanValues(p)))
  }

  const PLAN_KEYS := {
    "primary", "fallbacks", "attempt_limit", "timeouts", "route_reason", "auxiliary_reasons", "profile",
    "policy_version", "health_snapshot_revision", "health_filtered_count", "health_reason"}

  function DecodePlan(j: Json): Result<ExecutionPlan, CodecError> {
    var f :- CheckedObject(j, PLAN_KEYS);
    var primaryFields :- Object(f, "primary");
    var primary :- DecodeTarget(primaryFields);
    var items :- Items(f, "fallbacks");
    var fallbacks :- DecodeTargets(items);
    var attemptLimit :- Natural(f, "attempt_limit");
    var timeouts :- DecodeTimeouts(f, "timeouts");
    var routeReason :- Text(f, "route_reason");
    var reasonItems :- Items(f, "auxiliary_reasons");
    var auxiliaryReasons :- DecodeTexts(reasonItems);
    var profile :- Text(f, "profile");
    var policyVersion :- Text(f, "policy_version");
    var revision :- Natural(f, "health_snapshot_revision");
    var filtered :- Natural(f, "health_filtered_count");
    var healthReason :- OptionalText(f, "health_reason");
    Ok(ExecutionPlan(primary, fallbacks, attemptLimit, timeouts, routeReason, auxiliaryReasons, profile, policyVersion,
                     revision, filtered, healthReason))
  }

  ghost predicate HoldsPlanParts(f: Fields, p: ExecutionPlan)
    requires f.Keys == PLAN_KEYS
  {
    && Object(f, "primary") == Ok(EncodeTarget(p.primary).fields)
    && Items(f, "fallbacks") == Ok(EncodeTargets(p.fallbacks))
    && f["timeouts"] == EncodeTimeouts(p.timeouts)
    && Items(f, "auxiliary_reasons") == Ok(EncodeTexts(p.auxiliaryReasons))
  }

  ghost predicate HoldsPlanScalars(f: Fields, p: ExecutionPlan) {
    && Natural(f, "attempt_limit") == Ok(p.attemptLimit)
    && Text(f, "route_reason") == Ok(p.routeReason)
    && Text(f, "profile") == Ok(p.profile)
    && Text(f, "policy_version") == Ok(p.policyVersion)
    && Natural(f, "health_snapshot_revision") == Ok(p.healthSnapshotRevision)
    && Natural(f, "health_filtered_count") == Ok(p.healthFilteredCount)
    && OptionalText(f, "health_reason") == Ok(p.healthReason)
  }

  ghost predicate HoldsPlan(f: Fields, p: ExecutionPlan) {
    f.Keys == PLAN_KEYS && HoldsPlanParts(f, p) && HoldsPlanScalars(f, p)
  }

  lemma PlanLookups(v: seq<Json>, f: Fields)
    requires |v| == 11 && f == PlanFields(v)
    ensures f.Keys == PLAN_KEYS
    ensures f["primary"] == v[0] && f["fallbacks"] == v[1] && f["attempt_limit"] == v[2] && f["timeouts"] == v[3]
    ensures f["route_reason"] == v[4] && f["auxiliary_reasons"] == v[5] && f["profile"] == v[6]
    ensures f["policy_version"] == v[7] && f["health_snapshot_revision"] == v[8]
    ensures f["health_filtered_count"] == v[9] && f["health_reason"] == v[10]
  {}

  lemma EncodedPartsHold(p: ExecutionPlan, f: Fields)
    requires f == EncodePlan(p).fields
    ensures f.Keys == PLAN_KEYS && HoldsPlanParts(f, p)
  {
    PlanLookups(PlanValues(p), f);
    assert EncodeTarget(p.primary).JObject?;
    hide PlanFields, EncodeTarget, EncodeTargets, EncodeTexts, EncodeTimeouts;
  }

  lemma EncodedScalarsHold(p: ExecutionPlan, f: Fields)
    requires f == EncodePlan(p).fields
    ensures HoldsPlanScalars(f, p)
  {
    PlanLookups(PlanValues(p), f);
    hide PlanFields, EncodeTarget, EncodeTargets, EncodeTexts, EncodeTimeouts;
  }

  lemma EncodedPlanHolds(p: ExecutionPlan)
    ensures HoldsPlan(EncodePlan(p).fields, p)
  {
    hide PlanFields, PlanValues, HoldsPlanParts, HoldsPlanScalars;
    EncodedPartsHold(p, EncodePlan(p).fields);
    EncodedScalarsHold(p, EncodePlan(p).fields);
  }

  lemma DecodesHeldPlan(f: Fields, p: ExecutionPlan)
    requires HoldsPlan(f, p)
    requires DecodeTarget(EncodeTarget(p.primary).fields) == Ok(p.primary)
    requires DecodeTargets(EncodeTargets(p.fallbacks)) == Ok(p.fallbacks)
    requires DecodeTexts(EncodeTexts(p.auxiliaryReasons)) == Ok(p.auxiliaryReasons)
    requires DecodeTimeouts(f, "timeouts") == Ok(p.timeouts)
    ensures DecodePlan(JObject(f)) == Ok(p)
  {}

  lemma PlanRoundTrip(p: ExecutionPlan)
    ensures DecodePlan(EncodePlan(p)) == Ok(p)
  {
    EncodedPlanHolds(p);
    TargetRoundTrip(p.primary);
    TargetsRoundTrip(p.fallbacks);
    TextsRoundTrip(p.auxiliaryReasons);
    TimeoutsRoundTrip(EncodePlan(p).fields, "timeouts", p.timeouts);
    DecodesHeldPlan(EncodePlan(p).fields, p);
  }

  // ---------------------------------------------------------------------- errors

  /** The persisted shape of a routing error. */
  datatype RouterErrorSnapshot = RouterErrorSnapshot(
    code: string,
    httpStatus: int,
    fallbackAllowed: bool,
    retryAfter: Option<real>,
    healthSnapshotRevision: nat,
    healthFilteredCount: nat,
    healthReason: Option<string>)

  function SnapshotOfError(e: RouterError): RouterErrorSnapshot {
    RouterErrorSnapshot(e.code, e.httpStatus, e.fallbackAllowed, e.retryAfter,
                        e.healthSnapshotRevision, e.healthFilteredCount, e.healthReason)
  }

  function EncodeError(e: RouterErrorSnapshot): Json {
    JObject(map[
      "code" := JText(e.code),
      "http_status" := JInt(e.httpStatus),
      "fallback_allowed" := JBool(e.fallbackAllowed),
      "retry_after" := FromOptionalReal(e.retryAfter),
      "health_snapshot_revision" := JInt(e.healthSnapshotRevision),
      "health_filtered_count" := JInt(e.healthFilteredCount),
      "health_reason" := FromOptionalText(e.healthReason)])
  }

  const ERROR_KEYS := {
    "code", "http_status", "fallback_allowed", "retry_after", "health_snapshot_revision", "health_filtered_count",
    "health_reason"}

  function DecodeError(j: Json): Result<RouterErrorSnapshot, CodecError> {
    var f :- CheckedObject(j, ERROR_KEYS);
    var code :- Text(f, "code");
    var httpStatus :- Integer(f, "http_status");
    var fallbackAllowed :- Flag(f, "fallback_allowed");
    var retryAfter :- OptionalReal(f, "retry_after");
    var revision :- Natural(f, "health_snapshot_revision");
    var filtered :- Natural(f, "health_filtered_count");
    var healthReason :- OptionalText(f, "health_reason");
    Ok(RouterErrorSnapshot(code, httpStatus, fallbackAllowed, retryAfter, revision, filtered, healthReason))
  }

  lemma ErrorRoundTrip(e: RouterErrorSnapshot)
    ensures DecodeError(EncodeError(e)) == Ok(e)
  {
    assert EncodeError(e).fields.Keys == ERROR_KEYS;
  }

  // --------------------------------------------------------------- consequences

  /** Comparing encodings is comparing values. */
  lemma EncodingsAreFaithful(p1: ExecutionPlan, p2: ExecutionPlan, e1: RouterErrorSnapshot, e2: RouterErrorSnapshot)
    ensures EncodePlan(p1) == EncodePlan(p2) <==> p1 == p2
    ensures EncodeError(e1) == EncodeError(e2) <==> e1 == e2
  {
    PlanRoundTrip(p1);
    PlanRoundTrip(p2);
    ErrorRoundTrip(e1);
    ErrorRoundTrip(e2);
  }

  /** Persisted facts with a missing or an unknown field are refused, not migrated. */
  lemma SchemasAreClosed(j: Json)
    ensures DecodeRequest(j).Ok? ==>
      && j.JObject?
      && j.fields.Keys == {
           "requested_profile", "required_capabilities", "estimated_input_tokens", "message_count", "tool_rounds",
           "system_size_bucket", "task_signals", "outcome_signal", "stream", "count_only", "protocol",
           "response_state_requested", "provider_managed_tools_requested"}
      && j.fields["task_signals"].JObject?
      && j.fields["task_signals"].fields.Keys == {"complex_planning", "debugging", "review", "multi_file_refactor"}
    ensures DecodeSession(Some(j)).Ok? ==>
      && j.JObject?
      && j.fields.Keys == {"last_tier", "last_outcome", "consecutive_failures", "requests_since_failure"}
    ensures DecodeAvailability(j).Ok? ==>
      j.JObject? && j.fields.Keys == {"revision", "observed_at", "earliest_recovery_at", "target_states"}
    ensures DecodePlan(j).Ok? ==>
      && j.JObject?
      && j.fields.Keys == {
           "primary", "fallbacks", "attempt_limit", "timeouts", "route_reason", "auxiliary_reasons", "profile",
           "policy_version", "health_snapshot_revision", "health_filtered_count", "health_reason"}
    ensures DecodeError(j).Ok? ==>
      && j.JObject?
      && j.fields.Keys == {
           "code", "http_status", "fallback_allowed", "retry_after", "health_snapshot_revision",
           "health_filtered_count", "health_reason"}
  {}
}
