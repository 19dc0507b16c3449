/** The deterministic routing kernel (routing/kernel.py). */
module RoutingKernel {
  import opened Prelude
  import opened Domain
  import opened HealthModels
  import opened RoutingPolicies
  import opened Aliases

  // ----------------------------------------------------------------- capability

  predicate Capable(target: ModelTarget, request: RoutingRequest) {
    && target.protocol == request.protocol
    && request.requiredCapabilities <= target.capabilities
    && request.estimatedInputTokens <= target.maxInputTokens
    && (request.responseStateRequested ==> ResponseState in target.capabilities && target.stateScope.Some?)
    && (request.providerManagedToolsRequested ==> ProviderManagedTools in target.capabilities)
  }

  const COMPLEX_CAPABILITIES := {Tools, Thinking, Vision, Reasoning, StructuredOutput, ProviderManagedTools}

  function AutoTier(policy: RoutingPolicy, request: RoutingRequest, session: Option<SessionSnapshot>): (Tier, string) {
    if request.outcomeSignal == SignalFailure
       || (session.Some? && session.value.consecutiveFailures >= policy.failureEscalationRequests) then
      (Deep, "failure_escalation")
    else if request.toolRounds >= policy.deepToolRoundsThreshold then
      (Deep, "deep_tool_loop")
    else if request.estimatedInputTokens > policy.balancedMaxInputTokens then
      (Deep, "large_context")
    else if request.requiredCapabilities * COMPLEX_CAPABILITIES != {}
            || request.taskSignals.complexPlanning || request.taskSignals.debugging
            || request.taskSignals.review || request.taskSignals.multiFileRefactor then
      (Balanced, "task_capability_or_complexity")
    else if request.estimatedInputTokens <= policy.fastMaxInputTokens then
      (Fast, "short_simple_request")
    else
      (Balanced, "uncertain_default_balanced")
  }

  // ------------------------------------------------------------------- ordering

  function TierRank(tier: Tier): nat {
    match tier
    case Fast => 0
    case Balanced => 1
    case Deep => 2
  }

  function CapableAt(targets: map<string, ModelTarget>, tier: Tier, request: RoutingRequest): set<string> {
    set a | a in targets && targets[a].tier == tier && Capable(targets[a], request)
  }

  function Lookup(targets: map<string, ModelTarget>, aliases: seq<string>): seq<ModelTarget>
    requires forall a | a in aliases :: a in targets
  {
    seq(|aliases|, i requires 0 <= i < |aliases| => targets[aliases[i]])
  }

  ghost function TierList(targets: map<string, ModelTarget>, tier: Tier, request: RoutingRequest): seq<ModelTarget> {
    Lookup(targets, InOrder(CapableAt(targets, tier, request)))
  }

  /** The capable targets of the given tiers, each tier in alias order. */
  ghost function TierLists(targets: map<string, ModelTarget>, tiers: seq<Tier>, request: RoutingRequest)
    : seq<ModelTarget>
    decreases |tiers|
  {
    if tiers == [] then []
    else TierLists(targets, tiers[..|tiers| - 1], request) + TierList(targets, tiers[|tiers| - 1], request)
  }

  const TIER_ORDER := [Fast, Balanced, Deep]

  ghost function OrderedAuto(targets: map<string, ModelTarget>, desired: Tier, request: RoutingRequest)
    : seq<ModelTarget>
  {
    TierLists(targets, TIER_ORDER[TierRank(desired)..], request)
  }

  /** order is an iteration order of the catalog. */
  ghost predicate Enumerates(order: seq<string>, targets: map<string, ModelTarget>) {
    && (forall a :: a in order <==> a in targets)
    && (forall i, j | 0 <= i < j < |order| :: order[i] != order[j])
  }

  /** Python's sorted() over one tier, by insertion. */
  method SortedTier(targets: map<string, ModelTarget>, order: seq<string>, tier: Tier, request: RoutingRequest)
    returns (sorted: seq<string>)
    requires Enumerates(order, targets)
    ensures sorted == InOrder(CapableAt(targets, tier, request))
  {
    sorted := [];
    for i := 0 to |order|
      invariant StrictlySorted(sorted)
      invariant forall a :: a in sorted <==> a in order[..i] && a in CapableAt(targets, tier, request)
    {
      var alias := order[i];
      if targets[alias].tier == tier && Capable(targets[alias], request) {
        sorted := Insert(sorted, alias);
      }
    }
    assert order[..|order|] == order;
    SortedIsInOrder(sorted);
    assert (set a | a in sorted) == CapableAt(targets, tier, request);
  }

  method Insert(sorted: seq<string>, alias: string) returns (r: seq<string>)
    requires StrictlySorted(sorted) && alias !in sorted
    ensures StrictlySorted(r)
    ensures forall a :: a in r <==> a in sorted || a == alias
  {
    var k := 0;
    while k < |sorted| && StringLess(sorted[k], alias)
      invariant 0 <= k <= |sorted|
      invariant forall i | 0 <= i < k :: StringLess(sorted[i], alias)
    {
      k := k + 1;
    }
    forall j | k <= j < |sorted| ensures StringLess(alias, sorted[j]) {
      StringLessTotal(sorted[k], alias);
      if k < j { StringLessTransitive(alias, sorted[k], sorted[j]); }
    }
    r := sorted[..k] + [alias] + sorted[k..];
    assert sorted == sorted[..k] + sorted[k..];
  }

  method OrderedAutoTargets(targets: map<string, ModelTarget>, order: seq<string>, desired: Tier,
                            request: RoutingRequest)
    returns (result: seq<ModelTarget>)
    requires Enumerates(order, targets)
    ensures result == OrderedAuto(targets, desired, request)
  {
    result := [];
    var tiers := TIER_ORDER[TierRank(desired)..];
    for i := 0 to |tiers|
      invariant result == TierLists(targets, tiers[..i], request)
    {
      var sorted := SortedTier(targets, order, tiers[i], request);
      assert tiers[..i + 1][..i] == tiers[..i];
      result := result + Lookup(targets, sorted);
    }
    assert tiers[..|tiers|] == tiers;
  }

  // --------------------------------------------------------------- availability

  /** The state a snapshot gives a target, when it lets the target be called. */
  predicate Eligible(target: ModelTarget, availability: AvailabilitySnapshot) {
    target.alias in availability.targetStates && availability.targetStates[target.alias].eligible
  }

  datatype ProbeDomain = ProbeDomain(scope: FailureScope, key: string)

  /** The domain whose recovery probe an eligible half-open target would become. */
  function ProbeOf(target: ModelTarget, availability: AvailabilitySnapshot): Option<ProbeDomain> {
    if Eligible(target, availability) then
      var state := availability.targetStates[target.alias];
      if state.state == HalfOpen && state.probeScope.Some? && state.probeKey.Some?
      then Some(ProbeDomain(state.probeScope.value, state.probeKey.value)) else None
    else None
  }

  /** A target stays in the plan if it is eligible and, when half-open, names a
      probe domain that no earlier target already probes. */
  predicate Kept(earlier: seq<ModelTarget>, target: ModelTarget, availability: AvailabilitySnapshot) {
    && Eligible(target, availability)
    && (availability.targetStates[target.alias].state == HalfOpen ==>
          && ProbeOf(target, availability).Some?
          && forall t | t in earlier :: ProbeOf(t, availability) != ProbeOf(target, availability))
  }

  function Available(targets: seq<ModelTarget>, availability: AvailabilitySnapshot): seq<ModelTarget>
    decreases |targets|
  {
    if targets == [] then []
    else
      var init, last := targets[..|targets| - 1], targets[|targets| - 1];
      Available(init, availability) + if Kept(init, last, availability) then [last] else []
  }

  function FilteredReasons(targets: seq<ModelTarget>, availability: AvailabilitySnapshot): set<AvailabilityReason> {
    set t | t in targets && t.alias in availability.targetStates && !availability.targetStates[t.alias].eligible
          :: availability.targetStates[t.alias].reason
  }

  function HealthReason(targets: seq<ModelTarget>, kept: seq<ModelTarget>, availability: AvailabilitySnapshot)
    : Option<string>
  {
    var reasons := FilteredReasons(targets, availability);
    if |targets| == |kept| then None
    else if reasons != {} && reasons <= {ReasonProviderBlocked, ReasonTargetBlocked}
    then Some("health_blocked_filtered")
    else Some("health_cooldown_filtered")
  }

  function ProbeDomains(targets: seq<ModelTarget>, availability: AvailabilitySnapshot): set<ProbeDomain> {
    set t | t in targets && ProbeOf(t, availability).Some? :: ProbeOf(t, availability).value
  }

  lemma AvailableStep(targets: seq<ModelTarget>, i: nat, availability: AvailabilitySnapshot)
    requires i < |targets|
    ensures Available(targets[..i + 1], availability) ==
      Available(targets[..i], availability) + if Kept(targets[..i], targets[i], availability) then [targets[i]] else []
  {
    assert targets[..i + 1][..i] == targets[..i];
  }

  lemma FilteredStep(targets: seq<ModelTarget>, i: nat, availability: AvailabilitySnapshot)
    requires i < |targets|
    ensures FilteredReasons(targets[..i + 1], availability) == FilteredReasons(targets[..i], availability) +
      if targets[i].alias in availability.targetStates && !availability.targetStates[targets[i].alias].eligible
      then {availability.targetStates[targets[i].alias].reason} else {}
  {
    assert targets[..i + 1] == targets[..i] + [targets[i]];
  }

  lemma ProbedStep(targets: seq<ModelTarget>, i: nat, availability: AvailabilitySnapshot)
    requires i < |targets|
    ensures var probe := ProbeOf(targets[i], availability);
      && ProbeDomains(targets[..i + 1], availability) ==
         ProbeDomains(targets[..i], availability) + (if probe.Some? then {probe.value} else {})
      && (probe.Some? ==>
            (probe.value in ProbeDomains(targets[..i], availability) <==>
              exists t :: t in targets[..i] && ProbeOf(t, availability) == probe))
  {
    assert targets[..i + 1] == targets[..i] + [targets[i]];
  }

  method AvailableTargets(targets: seq<ModelTarget>, availability: AvailabilitySnapshot)
    returns (available: seq<ModelTarget>, filteredCount: int, reason: Option<string>)
    ensures available == Available(targets, availability)
    ensures filteredCount == |targets| - |available|
    ensures reason == HealthReason(targets, available, availability)
  {
    available := [];
    var filteredReasons: set<AvailabilityReason> := {};
    var retainedProbeDomains: set<ProbeDomain> := {};
    var i := 0;
    while i < |targets|
      invariant 0 <= i <= |targets|
      invariant available == Available(targets[..i], availability)
      invariant |available| <= i
      invariant filteredReasons == FilteredReasons(targets[..i], availability)
      invariant retainedProbeDomains == ProbeDomains(targets[..i], availability)
    {
      hide Available, FilteredReasons, ProbeDomains;
      var target := targets[i];
      AvailableStep(targets, i, availability);
      FilteredStep(targets, i, availability);
      ProbedStep(targets, i, availability);
      i := i + 1;
      if target.alias !in availability.targetStates || !availability.targetStates[target.alias].eligible {
        if target.alias in availability.targetStates {
          filteredReasons := filteredReasons + {availability.targetStates[target.alias].reason};
        }
        continue;
      }
      var state := availability.targetStates[target.alias];
      if state.state == HalfOpen {
        if state.probeScope.None? || state.probeKey.None? {
          continue;
        }
        var domain := ProbeDomain(state.probeScope.value, state.probeKey.value);
        assert ProbeOf(target, availability) == Some(domain);
        if domain in retainedProbeDomains {
          continue;
        }
        retainedProbeDomains := retainedProbeDomains + {domain};
      }
      available := available + [target];
    }
    assert targets[..|targets|] == targets;
    filteredCount := |targets| - |available|;
    if filteredCount == 0 {
      return available, 0, None;
    }
    var blocked := {ReasonProviderBlocked, ReasonTargetBlocked};
    reason := Some(
      if filteredReasons != {} && filteredReasons <= blocked
      then "health_blocked_filtered"
      else "health_cooldown_filtered");
  }

  /** Whole seconds until the earliest recovery. */
  function RetryAfter(availability: AvailabilitySnapshot): Option<real> {
    if availability.earliestRecoveryAt.None? then None
    else
      var remaining := Ceiling(availability.earliestRecoveryAt.value - availability.observedAt);
      Some(if remaining > 0 then remaining as real else 0.0)
  }

  // ----------------------------------------------------------------------- plan

  function RequestedProfile(policy: RoutingPolicy, request: RoutingRequest): string {
    if request.requestedProfile != "" then request.requestedProfile else policy.defaultProfile
  }

  function ReplaceSlash(s: string): string {
    seq(|s|, i requires 0 <= i < |s| => if s[i] == '/' then '_' else s[i])
  }

  function FilterCapable(targets: seq<ModelTarget>, request: RoutingRequest): seq<ModelTarget>
    decreases |targets|
  {
    if targets == [] then []
    else
      var last := targets[|targets| - 1];
      FilterCapable(targets[..|targets| - 1], request) + if Capable(last, request) then [last] else []
  }

  function SameScope(targets: seq<ModelTarget>, scope: Option<string>): seq<ModelTarget>
    decreases |targets|
  {
    if targets == [] then []
    else
      var last := targets[|targets| - 1];
      SameScope(targets[..|targets| - 1], scope) + if last.stateScope == scope then [last] else []
  }

  /** What the profile yields before health is looked at. */
  datatype Candidates = Candidates(
    capable: seq<ModelTarget>, routeReason: string, auxiliary: seq<string>, desired: Option<Tier>)

  ghost function CandidatesOf(policy: RoutingPolicy, request: RoutingRequest, session: Option<SessionSnapshot>)
    : Candidates
    requires policy.Valid() && RequestedProfile(policy, request) in policy.profiles
  {
    var name := RequestedProfile(policy, request);
    var profile := policy.profiles[name];
    if profile.automatic then
      var (tier, reason) := AutoTier(policy, request, session);
      Candidates(
        OrderedAuto(policy.targets, tier, request), reason,
        if session.Some? && session.value.consecutiveFailures != 0 then ["session_failure_state"] else [],
        Some(tier))
    else
      var configured :=
        if request.protocol in profile.targets
        then Lookup(policy.targets, profile.targets[request.protocol].Aliases())
        else [];
      var capable := FilterCapable(configured, request);
      Candidates(
        capable, "explicit_" + ReplaceSlash(name),
        if |capable| < |configured| then ["incapable_target_filtered"] else [],
        None)
  }

  /** The plan or error a profile's candidates lead to. */
  ghost function Assembled(policy: RoutingPolicy, request: RoutingRequest, availability: AvailabilitySnapshot,
                           c: Candidates)
    : Result<ExecutionPlan, RouterError>
  {
    if c.capable == [] then Err(NoCapableModel())
    else
      var available := Available(c.capable, availability);
      var filtered := HealthReason(c.capable, available, availability);
      if available == [] then
        Err(NoAvailableTarget(RetryAfter(availability)).(
            healthSnapshotRevision := availability.revision,
            healthFilteredCount := |c.capable|,
            healthReason := Some(if filtered.Some? then filtered.value else "health_no_available_target")))
      else
        var scoped :=
          if request.responseStateRequested then SameScope(available, available[0].stateScope) else available;
        if scoped == [] then Err(NoCapableModel())
        else Ok(PlanFrom(policy, request, availability, c, available, filtered, scoped))
  }

  predicate TierFallback(c: Candidates, available: seq<ModelTarget>)
    requires available != []
  {
    && c.desired.Some?
    && available[0].tier != c.desired.value
    && exists t :: t in c.capable && t.tier == c.desired.value
  }

  function AddIf(reasons: seq<string>, condition: bool, reason: string): seq<string> {
    if condition then reasons + [reason] else reasons
  }

  function Reasons(policy: RoutingPolicy, request: RoutingRequest, auxiliary: seq<string>, filtered: Option<string>,
                   fallback: bool, narrowed: bool, count: nat): seq<string> {
    var r := if filtered.Some? then auxiliary + [filtered.value] else auxiliary;
    AddIf(AddIf(AddIf(r,
      fallback, "health_tier_fallback"),
      narrowed, "state_scope_filtered"),
      request.responseStateRequested && (count < 2 || policy.attemptLimit < 2), "stateful_no_cross_scope_fallback")
  }

  function PlanFrom(policy: RoutingPolicy, request: RoutingRequest, availability: AvailabilitySnapshot, c: Candidates,
                    available: seq<ModelTarget>, filtered: Option<string>, scoped: seq<ModelTarget>): ExecutionPlan
    requires available != [] && scoped != []
  {
    var fallback := TierFallback(c, available);
    ExecutionPlan(
      scoped[0],
      scoped[1..],
      if policy.attemptLimit <= |scoped| then policy.attemptLimit else |scoped|,
      policy.timeouts,
      c.routeReason,
      Reasons(policy, request, c.auxiliary, filtered, fallback, |scoped| < |available|, |scoped|),
      RequestedProfile(policy, request),
      policy.EffectivePolicyVersion(),
      availability.revision,
      if |c.capable| >= |available| then |c.capable| - |available| else 0,
      if fallback then Some("health_tier_fallback") else filtered)
  }

  /** The plan, or the routing error, that a request gets; no catalog order appears in it. */
  ghost function PlanOf(policy: RoutingPolicy, request: RoutingRequest, session: Option<SessionSnapshot>,
                        availability: AvailabilitySnapshot): Result<ExecutionPlan, RouterError>
    requires policy.Valid()
  {
    if RequestedProfile(policy, request) !in policy.profiles then Err(UnknownModel())
    else Assembled(policy, request, availability, CandidatesOf(policy, request, session))
  }

  /** The state-scope filter never removes the first target. */
  lemma {:induction false} ScopeFilterKeepsFirst(targets: seq<ModelTarget>, scope: Option<string>)
    requires targets != [] && targets[0].stateScope == scope
    ensures SameScope(targets, scope) != [] && SameScope(targets, scope)[0] == targets[0]
    ensures |SameScope(targets, scope)| <= |targets|
    decreases |targets|
  {
    if |targets| > 1 {
      ScopeFilterKeepsFirst(targets[..|targets| - 1], scope);
    } else {
      assert SameScope(targets[..0], scope) == [];
    }
  }

  lemma {:induction false} AvailableIsShorter(targets: seq<ModelTarget>, availability: AvailabilitySnapshot)
    ensures |Available(targets, availability)| <= |targets|
    decreases |targets|
  {
    if targets != [] { AvailableIsShorter(targets[..|targets| - 1], availability); }
  }

  method FilterBy(targets: seq<ModelTarget>, request: RoutingRequest) returns (r: seq<ModelTarget>)
    ensures r == FilterCapable(targets, request)
  {
    r := [];
    for i := 0 to |targets|
      invariant r == FilterCapable(targets[..i], request)
    {
      assert targets[..i + 1][..i] == targets[..i];
      if Capable(targets[i], request) { r := r + [targets[i]]; }
    }
    assert targets[..|targets|] == targets;
  }

  method KeepScope(targets: seq<ModelTarget>, scope: Option<string>) returns (r: seq<ModelTarget>)
    ensures r == SameScope(targets, scope)
  {
    r := [];
    for i := 0 to |targets|
      invariant r == SameScope(targets[..i], scope)
    {
      assert targets[..i + 1][..i] == targets[..i];
      if targets[i].stateScope == scope { r := r + [targets[i]]; }
    }
    assert targets[..|targets|] == targets;
  }

  method Plan(policy: RoutingPolicy, order: seq<string>, request: RoutingRequest, session: Option<SessionSnapshot>,
              availability: AvailabilitySnapshot)
    returns (r: Result<ExecutionPlan, RouterError>)
    requires policy.Valid() && Enumerates(order, policy.targets)
    ensures r == PlanOf(policy, request, session, availability)
  {
    var profileName := if request.requestedProfile != "" then request.requestedProfile else policy.defaultProfile;
    if profileName !in policy.profiles {
      return Err(UnknownModel());
    }
    var profile := policy.profiles[profileName];
    var auxiliary: seq<string> := [];
    var desired: Option<Tier> := None;
    var capableTargets;
    var routeReason;
    if profile.automatic {
      var (tier, reason) := AutoTier(policy, request, session);
      desired := Some(tier);
      if session.Some? && session.value.consecutiveFailures != 0 {
        auxiliary := auxiliary + ["session_failure_state"];
      }
      capableTargets := OrderedAutoTargets(policy.targets, order, tier, request);
      routeReason := reason;
    } else {
      if request.protocol !in profile.targets {
        assert CandidatesOf(policy, request, session).capable == [];
        return Err(NoCapableModel());
      }
      var configured := Lookup(policy.targets, profile.targets[request.protocol].Aliases());
      capableTargets := FilterBy(configured, request);
      routeReason := "explicit_" + ReplaceSlash(profileName);
      if |capableTargets| < |configured| {
        auxiliary := auxiliary + ["incapable_target_filtered"];
      }
    }
    ghost var c := CandidatesOf(policy, request, session);
    assert c == Candidates(capableTargets, routeReason, auxiliary, desired);
    r := Assemble(policy, request, availability, capableTargets, routeReason, auxiliary, desired);
  }

  /** The part of plan() that follows the profile's candidates. */
  method Assemble(policy: RoutingPolicy, request: RoutingRequest, availability: AvailabilitySnapshot,
                  capable: seq<ModelTarget>, routeReason: string, auxiliary: seq<string>, desired: Option<Tier>)
    returns (r: Result<ExecutionPlan, RouterError>)
    ensures r == Assembled(policy, request, availability, Candidates(capable, routeReason, auxiliary, desired))
  {
    if capable == [] {
      return Err(NoCapableModel());
    }
    var c := Candidates(capable, routeReason, auxiliary, desired);
    AvailableIsShorter(capable, availability);
    var available, filteredCount, healthReason := AvailableTargets(capable, availability);
    if available == [] {
      var error := NoAvailableTarget(RetryAfter(availability));
      error := error.(
        healthSnapshotRevision := availability.revision,
        healthFilteredCount := |capable|,
        healthReason := Some(if healthReason.Some? then healthReason.value else "health_no_available_target"));
      return Err(error);
    }
    var reasons := auxiliary;
    if healthReason.Some? {
      reasons := reasons + [healthReason.value];
    }
    if TierFallback(c, available) {
      healthReason := Some("health_tier_fallback");
      reasons := reasons + ["health_tier_fallback"];
    }
    var targets := available;
    if request.responseStateRequested {
      targets := KeepScope(available, available[0].stateScope);
      ScopeFilterKeepsFirst(available, available[0].stateScope);
      if |targets| < |available| {
        reasons := reasons + ["state_scope_filtered"];
      }
      if |targets| < 2 || policy.attemptLimit < 2 {
        reasons := reasons + ["stateful_no_cross_scope_fallback"];
      }
    }
    if targets == [] {
      return Err(NoCapableModel());
    }
    return Ok(ExecutionPlan(
      targets[0], targets[1..],
      if policy.attemptLimit <= |targets| then policy.attemptLimit else |targets|,
      policy.timeouts, routeReason, reasons, RequestedProfile(policy, request), policy.EffectivePolicyVersion(),
      availability.revision, filteredCount, healthReason));
  }
}
