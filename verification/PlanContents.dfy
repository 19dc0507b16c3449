/** What a plan and a routing error say, told from the request, the session, the policy and the snapshot. */
module PlanContents {
  import opened Prelude
  import opened Domain
  import opened HealthModels
  import opened RoutingPolicies
  import opened Aliases
  import opened RoutingKernel
  import opened KernelTheorems

  /** The profile of a request is automatic. */
  ghost predicate Automatic(policy: RoutingPolicy, request: RoutingRequest) {
    && RequestedProfile(policy, request) in policy.profiles
    && policy.profiles[RequestedProfile(policy, request)].automatic
  }

  // ------------------------------------------------------------------------ the route

  /** Why an automatic plan starts where it does: the first of six rules that applies. */
  lemma RouteReasonExactly(policy: RoutingPolicy, request: RoutingRequest, session: Option<SessionSnapshot>,
                           availability: AvailabilitySnapshot)
    requires policy.Valid() && Automatic(policy, request) && PlanOf(policy, request, session, availability).Ok?
    ensures var reason := PlanOf(policy, request, session, availability).value.routeReason;
      var failed := FailureSeen(policy, request, session);
      var looping := request.toolRounds >= policy.deepToolRoundsThreshold;
      var large := request.estimatedInputTokens > policy.balancedMaxInputTokens;
      var complex := LooksComplex(request);
      var short := request.estimatedInputTokens <= policy.fastMaxInputTokens;
      && (reason == "failure_escalation" <==> failed)
      && (reason == "deep_tool_loop" <==> !failed && looping)
      && (reason == "large_context" <==> !failed && !looping && large)
      && (reason == "task_capability_or_complexity" <==> !failed && !looping && !large && complex)
      && (reason == "short_simple_request" <==> !failed && !looping && !large && !complex && short)
      && (reason == "uncertain_default_balanced" <==> !failed && !looping && !large && !complex && !short)
  {
    ComplexCapabilities(request);
    ReasonsDiffer();
    hide Available, OrderedAuto, SameScope, HealthReason;
  }

  const ROUTE_REASONS := [
    "failure_escalation", "deep_tool_loop", "large_context",
    "task_capability_or_complexity", "short_simple_request", "uncertain_default_balanced"]

  lemma ReasonsDiffer()
    ensures forall i, j | 0 <= i < j < 6 :: ROUTE_REASONS[i] != ROUTE_REASONS[j]
  {}

  /** One target comes before another: it is of a lower tier, or of the same with a smaller alias. */
  predicate Precedes(a: ModelTarget, b: ModelTarget) {
    match a.tier
    case Fast => b.tier == Fast ==> StringLess(a.alias, b.alias)
    case Balanced => b.tier != Fast && (b.tier == Balanced ==> StringLess(a.alias, b.alias))
    case Deep => b.tier == Deep && StringLess(a.alias, b.alias)
  }

  ghost predicate InTierOrder(list: seq<ModelTarget>) {
    forall i, j | 0 <= i < j < |list| :: Precedes(list[i], list[j])
  }

  lemma OneTierIsOrdered(targets: map<string, ModelTarget>, tier: Tier, request: RoutingRequest)
    requires forall a | a in targets :: targets[a].alias == a
    ensures var list := TierList(targets, tier, request);
      && (forall t | t in list :: t.tier == tier)
      && (forall i, j | 0 <= i < j < |list| :: StringLess(list[i].alias, list[j].alias))
  {
    var chosen := CapableAt(targets, tier, request);
    InOrderIsSorted(chosen);
    var aliases := InOrder(chosen);
    assert forall i | 0 <= i < |aliases| :: aliases[i] in aliases;
  }

  lemma {:induction false} TiersAreOrdered(targets: map<string, ModelTarget>, tiers: seq<Tier>, request: RoutingRequest)
    requires forall a | a in targets :: targets[a].alias == a
    requires forall i, j | 0 <= i < j < |tiers| :: TierRank(tiers[i]) < TierRank(tiers[j])
    ensures var list := TierLists(targets, tiers, request);
      (forall t | t in list :: t.tier in tiers) && InTierOrder(list)
    decreases |tiers|
  {
    if tiers != [] {
      var init, last := tiers[..|tiers| - 1], tiers[|tiers| - 1];
      assert tiers == init + [last];
      TiersAreOrdered(targets, init, request);
      OneTierIsOrdered(targets, last, request);
      var front, back := TierLists(targets, init, request), TierList(targets, last, request);
      forall u | u in init
        ensures TierRank(u) < TierRank(last)
      {
        var i :| 0 <= i < |init| && init[i] == u;
        assert tiers[i] == u && tiers[|tiers| - 1] == last;
      }
      JoinedInOrder(front, back, init, last);
      hide TierList, InTierOrder;
    }
  }

  lemma JoinedInOrder(front: seq<ModelTarget>, back: seq<ModelTarget>, tiers: seq<Tier>, last: Tier)
    requires forall t | t in front :: t.tier in tiers
    requires forall t | t in back :: t.tier == last
    requires forall u | u in tiers :: TierRank(u) < TierRank(last)
    requires InTierOrder(front)
    requires forall i, j | 0 <= i < j < |back| :: StringLess(back[i].alias, back[j].alias)
    ensures InTierOrder(front + back)
  {
    var list := front + back;
    forall i, j | 0 <= i < j < |list|
      ensures Precedes(list[i], list[j])
    {
      if j < |front| {
        assert list[i] == front[i] && list[j] == front[j];
      } else if i >= |front| {
        assert list[i] == back[i - |front|] && list[j] == back[j - |front|];
        assert list[i] in back && list[j] in back;
      } else {
        assert list[i] == front[i] && front[i] in front && list[j] == back[j - |front|] && list[j] in back;
      }
    }
  }

  /** An automatic profile lists its capable targets by tier and, within a tier, by alias;
      an explicit one in the order of its chain. Health only takes targets out, so a plan
      keeps that order. */
  lemma CandidatesAreOrdered(policy: RoutingPolicy, request: RoutingRequest, session: Option<SessionSnapshot>)
    requires policy.Valid() && RequestedProfile(policy, request) in policy.profiles
    ensures var profile := policy.profiles[RequestedProfile(policy, request)];
      var capable := CandidatesOf(policy, request, session).capable;
      if profile.automatic then InTierOrder(capable)
      else if request.protocol !in profile.targets then capable == []
      else Subsequence(capable, Lookup(policy.targets, profile.targets[request.protocol].Aliases()))
  {
    var profile := policy.profiles[RequestedProfile(policy, request)];
    if profile.automatic {
      var desired := AutoTier(policy, request, session).0;
      var tiers := TIER_ORDER[TierRank(desired)..];
      assert forall i | 0 <= i < |tiers| :: TierRank(tiers[i]) == TierRank(desired) + i;
      TiersAreOrdered(policy.targets, tiers, request);
      hide AutoTier;
    } else if request.protocol in profile.targets {
      FilterCapableIsSubsequence(Lookup(policy.targets, profile.targets[request.protocol].Aliases()), request);
    }
  }

  // ------------------------------------------------------------------------ the contents

  /** Every target of a plan can serve the request: its protocol, its capabilities, its
      context and, where state or managed tools are asked for, those. */
  lemma PlannedTargetsCanServe(policy: RoutingPolicy, request: RoutingRequest, session: Option<SessionSnapshot>,
                               availability: AvailabilitySnapshot, t: ModelTarget)
    requires policy.Valid() && PlanOf(policy, request, session, availability).Ok?
    requires t in AllOf(PlanOf(policy, request, session, availability).value)
    ensures t.alias in policy.targets && policy.targets[t.alias] == t
    ensures t.protocol == request.protocol
    ensures forall c | c in request.requiredCapabilities :: c in t.capabilities
    ensures request.estimatedInputTokens <= t.maxInputTokens
    ensures request.responseStateRequested ==> ResponseState in t.capabilities && t.stateScope.Some?
    ensures request.providerManagedToolsRequested ==> ProviderManagedTools in t.capabilities
    ensures t.alias in availability.targetStates && availability.targetStates[t.alias].eligible
  {
    PlanIsSound(policy, request, session, availability);
    hide PlanOf, Subsequence, Distinct, CandidatesOf;
  }

  /** And a configured target that can serve the request, and is eligible and no probe, is
      left out only of another state scope. */
  lemma UsableTargetsArePlanned(policy: RoutingPolicy, request: RoutingRequest, session: Option<SessionSnapshot>,
                                availability: AvailabilitySnapshot, t: ModelTarget)
    requires policy.Valid() && PlanOf(policy, request, session, availability).Ok?
    requires RequestedProfile(policy, request) in policy.profiles && Configured(policy, request, session, t)
    requires t.protocol == request.protocol && request.requiredCapabilities <= t.capabilities
    requires request.estimatedInputTokens <= t.maxInputTokens
    requires request.responseStateRequested ==> ResponseState in t.capabilities && t.stateScope.Some?
    requires request.providerManagedToolsRequested ==> ProviderManagedTools in t.capabilities
    requires t.alias in availability.targetStates && availability.targetStates[t.alias].eligible
    requires availability.targetStates[t.alias].state != HalfOpen
    ensures var plan := PlanOf(policy, request, session, availability).value;
      t in AllOf(plan) || (request.responseStateRequested && t.stateScope != plan.primary.stateScope)
  {
    CandidatesMeaning(policy, request, session);
    PlanListsSurvivors(policy, request, session, availability);
    var capable := CandidatesOf(policy, request, session).capable;
    var available := Available(capable, availability);
    AvailableMeaning(capable, availability);
    assert t in available;
    SameScopeIsSubsequence(available, available[0].stateScope);
    ScopeFilterKeepsFirst(available, available[0].stateScope);
    hide PlanOf, CandidatesOf, Available, SameScope, Subsequence;
  }

  // --------------------------------------------------------------------- the plain fields

  /** The plan names its profile, policy and snapshot, and attempts as many of its targets
      as the policy allows. */
  lemma PlanFieldsExactly(policy: RoutingPolicy, request: RoutingRequest, session: Option<SessionSnapshot>,
                          availability: AvailabilitySnapshot)
    requires policy.Valid() && PlanOf(policy, request, session, availability).Ok?
    ensures var plan := PlanOf(policy, request, session, availability).value;
      var count := 1 + |plan.fallbacks|;
      && plan.profile == (if request.requestedProfile == "" then policy.defaultProfile else request.requestedProfile)
      && plan.profile in policy.profiles
      && plan.attemptLimit == (if count < policy.attemptLimit then count else policy.attemptLimit)
      && plan.timeouts == policy.timeouts
      && plan.healthSnapshotRevision == availability.revision
      && (!policy.profiles[plan.profile].automatic ==> plan.routeReason == "explicit_" + ReplaceSlash(plan.profile))
  {
    hide CandidatesOf, Available, SameScope, HealthReason, Reasons, TierFallback, ReplaceSlash;
    CandidateRoute(policy, request, session);
  }

  lemma CandidateRoute(policy: RoutingPolicy, request: RoutingRequest, session: Option<SessionSnapshot>)
    requires policy.Valid() && RequestedProfile(policy, request) in policy.profiles
    ensures !policy.profiles[RequestedProfile(policy, request)].automatic ==>
      CandidatesOf(policy, request, session).routeReason
        == "explicit_" + ReplaceSlash(RequestedProfile(policy, request))
  {}

  lemma ReplaceSlashExactly(s: string)
    ensures |ReplaceSlash(s)| == |s|
    ensures forall i | 0 <= i < |s| :: ReplaceSlash(s)[i] == (if s[i] == '/' then '_' else s[i])
  {}

  /** The version of a plan is the policy's, a dash, and the first twelve characters of its hash. */
  lemma PlanVersionExactly(policy: RoutingPolicy, request: RoutingRequest, session: Option<SessionSnapshot>,
                           availability: AvailabilitySnapshot)
    requires policy.Valid() && PlanOf(policy, request, session, availability).Ok?
    ensures exists short: string ::
      && PlanOf(policy, request, session, availability).value.policyVersion == policy.policyVersion + "-" + short
      && short <= policy.routingPolicyHash
      && |short| == if |policy.routingPolicyHash| < 12 then |policy.routingPolicyHash| else 12
  {
    hide CandidatesOf, Available, SameScope, HealthReason, Reasons, TierFallback;
    var hash := policy.routingPolicyHash;
    var short := hash[..if |hash| < 12 then |hash| else 12];
    assert policy.EffectivePolicyVersion() == policy.policyVersion + "-" + short;
  }

  // -------------------------------------------------------------------- health in the plan

  /** Why targets were taken out for their health: none if none was; blocked if every one
      of them that the snapshot calls ineligible, and there is one, is blocked; else cooling. */
  ghost predicate FilterReason(capable: seq<ModelTarget>, kept: nat, availability: AvailabilitySnapshot,
                               reason: Option<string>) {
    && (reason == None <==> kept == |capable|)
    && (reason == Some("health_blocked_filtered") <==>
          && kept != |capable|
          && (exists t :: t in capable && Ineligible(t, availability))
          && (forall t | t in capable && Ineligible(t, availability) ::
                availability.targetStates[t.alias].reason in {ReasonProviderBlocked, ReasonTargetBlocked}))
    && reason in {None, Some("health_blocked_filtered"), Some("health_cooldown_filtered")}
  }

  predicate Ineligible(t: ModelTarget, availability: AvailabilitySnapshot) {
    t.alias in availability.targetStates && !availability.targetStates[t.alias].eligible
  }

  lemma HealthReasonExactly(capable: seq<ModelTarget>, kept: seq<ModelTarget>, availability: AvailabilitySnapshot)
    ensures FilterReason(capable, |kept|, availability, HealthReason(capable, kept, availability))
  {
    var reasons := FilteredReasons(capable, availability);
    forall t | t in capable && Ineligible(t, availability)
      ensures availability.targetStates[t.alias].reason in reasons
    {}
    if reasons != {} {
      var reason :| reason in reasons;
      var t :| t in capable && Ineligible(t, availability) && availability.targetStates[t.alias].reason == reason;
    }
  }

  /** Whole seconds until the earliest recovery: the least such number, and never negative. */
  lemma RetryAfterExactly(availability: AvailabilitySnapshot)
    ensures RetryAfter(availability).None? <==> availability.earliestRecoveryAt.None?
    ensures RetryAfter(availability).Some? ==>
      var seconds := RetryAfter(availability).value;
      var remaining := availability.earliestRecoveryAt.value - availability.observedAt;
      && seconds == seconds.Floor as real && seconds >= 0.0 && seconds >= remaining
      && (seconds == 0.0 || seconds - 1.0 < remaining)
  {
    if availability.earliestRecoveryAt.Some? {
      var remaining := availability.earliestRecoveryAt.value - availability.observedAt;
      var whole := Ceiling(remaining);
      assert whole as real >= remaining && whole as real - 1.0 < remaining;
    }
  }

  /** How many targets health took out, and the reason the plan gives for its choice: that
      another tier had to serve, or else why targets were taken out. */
  lemma HealthInPlanExactly(policy: RoutingPolicy, request: RoutingRequest, session: Option<SessionSnapshot>,
                            availability: AvailabilitySnapshot)
    requires policy.Valid() && PlanOf(policy, request, session, availability).Ok?
    ensures RequestedProfile(policy, request) in policy.profiles
    ensures var plan, c := PlanOf(policy, request, session, availability).value, CandidatesOf(policy, request, session);
      var kept := |Available(c.capable, availability)|;
      && kept <= |c.capable| && plan.healthFilteredCount == |c.capable| - kept
      && (plan.healthReason == Some("health_tier_fallback") <==> FellBack(policy, request, session, plan))
      && (!FellBack(policy, request, session, plan) ==> FilterReason(c.capable, kept, availability, plan.healthReason))
  {
    var c := CandidatesOf(policy, request, session);
    var available := Available(c.capable, availability);
    AvailableIsShorter(c.capable, availability);
    HealthReasonExactly(c.capable, available, availability);
    FellBackExactly(policy, request, session, availability);
    PlanListsSurvivors(policy, request, session, availability);
    hide CandidatesOf, Available, SameScope, HealthReason, Reasons, FilterReason, FellBack;
  }

  /** The plan is automatic and does not start in the lowest tier it could have started in,
      although a capable target of that tier is configured. */
  ghost predicate FellBack(policy: RoutingPolicy, request: RoutingRequest, session: Option<SessionSnapshot>,
                           plan: ExecutionPlan)
    requires policy.Valid() && RequestedProfile(policy, request) in policy.profiles
  {
    && policy.profiles[RequestedProfile(policy, request)].automatic
    && !LowestReached(policy, request, session, plan.primary.tier)
    && exists t ::
         Configured(policy, request, session, t) && Capable(t, request)
         && LowestReached(policy, request, session, t.tier)
  }

  predicate LowestReached(policy: RoutingPolicy, request: RoutingRequest, session: Option<SessionSnapshot>,
                          tier: Tier) {
    match tier
    case Fast => TierReached(policy, request, session, Fast)
    case Balanced => TierReached(policy, request, session, Balanced) && !TierReached(policy, request, session, Fast)
    case Deep => !TierReached(policy, request, session, Balanced)
  }

  lemma FellBackExactly(policy: RoutingPolicy, request: RoutingRequest, session: Option<SessionSnapshot>,
                        availability: AvailabilitySnapshot)
    requires policy.Valid() && PlanOf(policy, request, session, availability).Ok?
    ensures RequestedProfile(policy, request) in policy.profiles
    ensures var c := CandidatesOf(policy, request, session);
      var available := Available(c.capable, availability);
      && available != []
      && (TierFallback(c, available) <==>
            FellBack(policy, request, session, PlanOf(policy, request, session, availability).value))
  {
    CandidatesMeaning(policy, request, session);
    PlanListsSurvivors(policy, request, session, availability);
    var c := CandidatesOf(policy, request, session);
    SurvivorsStart(Available(c.capable, availability), request);
    DesiredIsLowest(policy, request, session);
    hide PlanOf, Available, SameScope, CandidatesOf, LowestReached, Configured, Capable;
  }

  lemma DesiredIsLowest(policy: RoutingPolicy, request: RoutingRequest, session: Option<SessionSnapshot>)
    requires policy.Valid() && RequestedProfile(policy, request) in policy.profiles
    ensures var desired := CandidatesOf(policy, request, session).desired;
      if policy.profiles[RequestedProfile(policy, request)].automatic
      then desired.Some? && forall tier :: LowestReached(policy, request, session, tier) <==> tier == desired.value
      else desired.None?
  {
    TierReachedExactly(policy, request, session, Fast);
    TierReachedExactly(policy, request, session, Balanced);
    hide AutoTier, TierReached, OrderedAuto, FilterCapable;
  }

  lemma SurvivorsStart(available: seq<ModelTarget>, request: RoutingRequest)
    requires available != []
    ensures Survivors(available, request) != [] && Survivors(available, request)[0] == available[0]
  {
    ScopeFilterKeepsFirst(available, available[0].stateScope);
  }

  // ---------------------------------------------------------------------- further reasons

  function If(condition: bool, reason: string): seq<string> {
    if condition then [reason] else []
  }

  lemma {:induction false} FilteredIsShorter(targets: seq<ModelTarget>, request: RoutingRequest)
    ensures |FilterCapable(targets, request)| <= |targets|
    ensures |FilterCapable(targets, request)| < |targets| <==> exists t :: t in targets && !Capable(t, request)
    decreases |targets|
  {
    if targets != [] {
      var init, last := targets[..|targets| - 1], targets[|targets| - 1];
      FilteredIsShorter(init, request);
      assert targets == init + [last];
    }
  }

  /** A configured target of an explicit profile cannot serve the request. */
  ghost predicate Incapable(policy: RoutingPolicy, request: RoutingRequest)
    requires policy.Valid() && RequestedProfile(policy, request) in policy.profiles
  {
    var profile := policy.profiles[RequestedProfile(policy, request)];
    && request.protocol in profile.targets
    && exists alias :: alias in profile.targets[request.protocol].Aliases() && !Capable(policy.targets[alias], request)
  }

  lemma LookedUp(targets: map<string, ModelTarget>, chain: seq<string>, request: RoutingRequest)
    requires forall a | a in chain :: a in targets
    ensures (exists t :: t in Lookup(targets, chain) && !Capable(t, request)) <==>
      exists a :: a in chain && !Capable(targets[a], request)
  {
    var list := Lookup(targets, chain);
    if t :| t in list && !Capable(t, request) {
      var i :| 0 <= i < |list| && list[i] == t;
      assert chain[i] in chain;
    }
    if a :| a in chain && !Capable(targets[a], request) {
      var i :| 0 <= i < |chain| && chain[i] == a;
      assert list[i] in list;
    }
  }

  lemma CandidateReasons(policy: RoutingPolicy, request: RoutingRequest, session: Option<SessionSnapshot>)
    requires policy.Valid() && RequestedProfile(policy, request) in policy.profiles
    ensures CandidatesOf(policy, request, session).auxiliary ==
      if policy.profiles[RequestedProfile(policy, request)].automatic
      then If(session.Some? && session.value.consecutiveFailures != 0, "session_failure_state")
      else If(Incapable(policy, request), "incapable_target_filtered")
  {
    var profile := policy.profiles[RequestedProfile(policy, request)];
    if !profile.automatic && request.protocol in profile.targets {
      var chain := profile.targets[request.protocol].Aliases();
      FilteredIsShorter(Lookup(policy.targets, chain), request);
      LookedUp(policy.targets, chain, request);
      hide Capable, FilterCapable;
    }
  }

  /** The further reasons of a plan, in order: failures of the session, or a configured
      target that cannot serve; why health took targets out; another tier; targets of
      another state scope left out; and a stateful request that cannot fall back. */
  lemma AuxiliaryReasonsExactly(policy: RoutingPolicy, request: RoutingRequest, session: Option<SessionSnapshot>,
                                availability: AvailabilitySnapshot)
    requires policy.Valid() && PlanOf(policy, request, session, availability).Ok?
    ensures RequestedProfile(policy, request) in policy.profiles
    ensures var plan := PlanOf(policy, request, session, availability).value;
      var capable := CandidatesOf(policy, request, session).capable;
      var kept := |Available(capable, availability)|;
      exists filtered :: FilterReason(capable, kept, availability, filtered)
        && plan.auxiliaryReasons ==
             (if policy.profiles[RequestedProfile(policy, request)].automatic
              then If(session.Some? && session.value.consecutiveFailures != 0, "session_failure_state")
              else If(Incapable(policy, request), "incapable_target_filtered"))
             + (if filtered.Some? then [filtered.value] else [])
             + If(FellBack(policy, request, session, plan), "health_tier_fallback")
             + If(|AllOf(plan)| < kept, "state_scope_filtered")
             + If(request.responseStateRequested && (|AllOf(plan)| < 2 || policy.attemptLimit < 2),
                  "stateful_no_cross_scope_fallback")
  {
    var c := CandidatesOf(policy, request, session);
    var available := Available(c.capable, availability);
    var filtered := HealthReason(c.capable, available, availability);
    CandidateReasons(policy, request, session);
    FellBackExactly(policy, request, session, availability);
    PlanListsSurvivors(policy, request, session, availability);
    HealthReasonExactly(c.capable, available, availability);
    hide CandidatesOf, Available, SameScope, HealthReason, FilterReason, FellBack, TierFallback, Incapable;
    var plan := PlanOf(policy, request, session, availability).value;
    var fallback, narrowed := TierFallback(c, available), |AllOf(plan)| < |available|;
    ReasonsAdded(policy, request, c.auxiliary, filtered, fallback, narrowed, |AllOf(plan)|);
    hide Reasons;
  }

  lemma ReasonsAdded(policy: RoutingPolicy, request: RoutingRequest, auxiliary: seq<string>, filtered: Option<string>,
                     fallback: bool, narrowed: bool, count: nat)
    ensures Reasons(policy, request, auxiliary, filtered, fallback, narrowed, count) ==
      auxiliary + (if filtered.Some? then [filtered.value] else [])
      + If(fallback, "health_tier_fallback")
      + If(narrowed, "state_scope_filtered")
      + If(request.responseStateRequested && (count < 2 || policy.attemptLimit < 2), "stateful_no_cross_scope_fallback")
  {}

  // ------------------------------------------------------------------------------ errors

  /** The error of a request none of whose targets may be used now says how many there
      are, why, and when to come back; the other two errors carry none of that. */
  lemma NoAvailableExactly(policy: RoutingPolicy, request: RoutingRequest, session: Option<SessionSnapshot>,
                           availability: AvailabilitySnapshot)
    requires policy.Valid() && PlanOf(policy, request, session, availability).Err?
    ensures var error := PlanOf(policy, request, session, availability).error;
      && (error.code, error.httpStatus) in {
           ("router_unknown_model", 400), ("router_no_capable_model", 422), ("router_no_available_target", 503)}
      && !error.fallbackAllowed && error.healthSkippedCount == 0
      && (if error.code == "router_no_available_target"
          then && RequestedProfile(policy, request) in policy.profiles
               && error.retryAfter == RetryAfter(availability)
               && error.healthSnapshotRevision == availability.revision
               && error.healthFilteredCount == |CandidatesOf(policy, request, session).capable|
               && FilterReason(CandidatesOf(policy, request, session).capable, 0, availability, error.healthReason)
          else error.retryAfter == None && error.healthFilteredCount == 0 && error.healthReason == None)
  {
    if RequestedProfile(policy, request) in policy.profiles {
      var c := CandidatesOf(policy, request, session);
      HealthReasonExactly(c.capable, Available(c.capable, availability), availability);
      if Available(c.capable, availability) != [] {
        SurvivorsStart(Available(c.capable, availability), request);
      }
    }
    hide CandidatesOf, Available, SameScope, HealthReason, FilterReason, RetryAfter;
  }
}
