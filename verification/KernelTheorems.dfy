/** Correctness of routing plans. */
module KernelTheorems {
  import opened Prelude
  import opened Domain
  import opened HealthModels
  import opened RoutingPolicies
  import opened Aliases
  import opened RoutingKernel

  // ------------------------------------------------------------ the three filters

  lemma {:induction false} AvailableIsSubsequence(targets: seq<ModelTarget>, availability: AvailabilitySnapshot)
    ensures Subsequence(Available(targets, availability), targets)
    decreases |targets|
  {
    if targets != [] {
      var init, last := targets[..|targets| - 1], targets[|targets| - 1];
      AvailableIsSubsequence(init, availability);
      SubsequenceAppend(Available(init, availability), init,
                        if Kept(init, last, availability) then [last] else [], [last]);
      assert init + [last] == targets;
    }
  }

  lemma {:induction false} FilterCapableIsSubsequence(targets: seq<ModelTarget>, request: RoutingRequest)
    ensures Subsequence(FilterCapable(targets, request), targets)
    ensures forall t :: t in FilterCapable(targets, request) <==> t in targets && Capable(t, request)
    decreases |targets|
  {
    if targets != [] {
      var init, last := targets[..|targets| - 1], targets[|targets| - 1];
      FilterCapableIsSubsequence(init, request);
      SubsequenceAppend(FilterCapable(init, request), init, if Capable(last, request) then [last] else [], [last]);
      assert init + [last] == targets;
    }
  }

  lemma {:induction false} SameScopeIsSubsequence(targets: seq<ModelTarget>, scope: Option<string>)
    ensures Subsequence(SameScope(targets, scope), targets)
    ensures forall t :: t in SameScope(targets, scope) <==> t in targets && t.stateScope == scope
    decreases |targets|
  {
    if targets != [] {
      var init, last := targets[..|targets| - 1], targets[|targets| - 1];
      SameScopeIsSubsequence(init, scope);
      SubsequenceAppend(SameScope(init, scope), init, if last.stateScope == scope then [last] else [], [last]);
      assert init + [last] == targets;
    }
  }

  /** Eligible, and if half-open with a probe domain to take. */
  predicate Usable(target: ModelTarget, availability: AvailabilitySnapshot) {
    && Eligible(target, availability)
    && (availability.targetStates[target.alias].state == HalfOpen ==> ProbeOf(target, availability).Some?)
  }

  predicate ProbesApart(a: ModelTarget, b: ModelTarget, availability: AvailabilitySnapshot) {
    ProbeOf(a, availability).Some? ==> ProbeOf(a, availability) != ProbeOf(b, availability)
  }

  /** Health filtering keeps only usable targets, no two of which would probe the same
      domain; it drops a usable target only if an earlier kept one probes its domain. */
  lemma {:induction false} AvailableMeaning(targets: seq<ModelTarget>, availability: AvailabilitySnapshot)
    ensures forall t | t in Available(targets, availability) :: t in targets && Usable(t, availability)
    ensures forall i, j | 0 <= i < j < |Available(targets, availability)| ::
              ProbesApart(Available(targets, availability)[i], Available(targets, availability)[j], availability)
    ensures forall t | t in targets && Usable(t, availability) && t !in Available(targets, availability) ::
              exists u :: u in Available(targets, availability)
                && ProbeOf(t, availability).Some? && ProbeOf(u, availability) == ProbeOf(t, availability)
    decreases |targets|
  {
    if targets != [] {
      var init, last := targets[..|targets| - 1], targets[|targets| - 1];
      AvailableMeaning(init, availability);
      assert init + [last] == targets;
      var kept := Available(init, availability);
      if Usable(last, availability) && !Kept(init, last, availability) {
        var t :| t in init && ProbeOf(t, availability) == ProbeOf(last, availability);
        if t !in kept {
          assert Usable(t, availability);
        }
      }
    }
  }

  /** Nothing survives health filtering exactly when nothing is usable. */
  lemma NoneAvailableIff(targets: seq<ModelTarget>, availability: AvailabilitySnapshot)
    ensures Available(targets, availability) == [] <==> forall t | t in targets :: !Usable(t, availability)
  {
    AvailableMeaning(targets, availability);
    if Available(targets, availability) != [] {
      var t := Available(targets, availability)[0];
      assert t in Available(targets, availability);
    }
  }

  // ------------------------------------------------------------------ candidates

  predicate DifferentAliases(a: ModelTarget, b: ModelTarget) {
    a.alias != b.alias
  }

  ghost predicate Distinct(list: seq<ModelTarget>) {
    forall i, j | 0 <= i < j < |list| :: DifferentAliases(list[i], list[j])
  }

  lemma DistinctAppend(front: seq<ModelTarget>, back: seq<ModelTarget>)
    requires Distinct(front) && Distinct(back)
    requires forall x, y | x in front && y in back :: DifferentAliases(x, y)
    ensures Distinct(front + back)
  {
    forall i, j | 0 <= i < j < |front + back|
      ensures DifferentAliases((front + back)[i], (front + back)[j])
    {
      if j < |front| {
        assert DifferentAliases(front[i], front[j]);
      } else if i < |front| {
        assert front[i] in front && back[j - |front|] in back;
      } else {
        assert DifferentAliases(back[i - |front|], back[j - |front|]);
      }
    }
  }

  lemma TierListIsDistinct(targets: map<string, ModelTarget>, tier: Tier, request: RoutingRequest)
    requires forall a | a in targets :: targets[a].alias == a
    ensures Distinct(TierList(targets, tier, request))
    ensures forall t :: t in TierList(targets, tier, request) <==>
      t.alias in targets && targets[t.alias] == t && t.tier == tier && Capable(t, request)
  {
    var aliases := InOrder(CapableAt(targets, tier, request));
    InOrderIsSorted(CapableAt(targets, tier, request));
    var list := TierList(targets, tier, request);
    forall i, j | 0 <= i < j < |list|
      ensures DifferentAliases(list[i], list[j])
    {
      assert aliases[i] in aliases && aliases[j] in aliases && StringLess(aliases[i], aliases[j]);
      StringLessIrreflexive(aliases[i]);
    }
    forall t: ModelTarget | t.alias in targets && targets[t.alias] == t && t.tier == tier && Capable(t, request)
      ensures t in list
    {
      assert t.alias in aliases;
      var i :| 0 <= i < |aliases| && aliases[i] == t.alias;
      assert list[i] == t;
    }
    forall t | t in list
      ensures t.alias in targets && targets[t.alias] == t && t.tier == tier && Capable(t, request)
    {
      var i :| 0 <= i < |list| && list[i] == t;
      assert aliases[i] in aliases;
    }
  }

  lemma {:induction false} TierListsMeaning(targets: map<string, ModelTarget>, tiers: seq<Tier>,
                                           request: RoutingRequest)
    requires forall a | a in targets :: targets[a].alias == a
    requires forall i, j | 0 <= i < j < |tiers| :: tiers[i] != tiers[j]
    ensures Distinct(TierLists(targets, tiers, request))
    ensures forall t :: t in TierLists(targets, tiers, request) <==>
      t.alias in targets && targets[t.alias] == t && t.tier in tiers && Capable(t, request)
    decreases |tiers|
  {
    if tiers != [] {
      var init, last := tiers[..|tiers| - 1], tiers[|tiers| - 1];
      TierListsMeaning(targets, init, request);
      TierListIsDistinct(targets, last, request);
      assert tiers == init + [last];
      var front, back := TierLists(targets, init, request), TierList(targets, last, request);
      forall x, y | x in front && y in back
        ensures DifferentAliases(x, y)
      {
        assert x.tier in init && y.tier == last && last !in init;
      }
      DistinctAppend(front, back);
    }
  }

  lemma ChainTargets(targets: map<string, ModelTarget>, chain: seq<string>)
    requires ValidChain(targets, chain) && forall a | a in targets :: targets[a].alias == a
    ensures Distinct(Lookup(targets, chain))
  {}

  /** A failure was reported with the request, or the session has seen enough of them. */
  predicate FailureSeen(policy: RoutingPolicy, request: RoutingRequest, session: Option<SessionSnapshot>) {
    || request.outcomeSignal == SignalFailure
    || (session.Some? && session.value.consecutiveFailures >= policy.failureEscalationRequests)
  }

  predicate NeedsDeep(policy: RoutingPolicy, request: RoutingRequest, session: Option<SessionSnapshot>) {
    || FailureSeen(policy, request, session)
    || request.toolRounds >= policy.deepToolRoundsThreshold
    || request.estimatedInputTokens > policy.balancedMaxInputTokens
  }

  /** The request needs a capability, or shows a signal, of more than a simple task. */
  predicate LooksComplex(request: RoutingRequest) {
    || Tools in request.requiredCapabilities
    || Thinking in request.requiredCapabilities
    || Vision in request.requiredCapabilities
    || Reasoning in request.requiredCapabilities
    || StructuredOutput in request.requiredCapabilities
    || ProviderManagedTools in request.requiredCapabilities
    || request.taskSignals.complexPlanning
    || request.taskSignals.debugging
    || request.taskSignals.review
    || request.taskSignals.multiFileRefactor
  }

  /** The tiers from which an automatic profile draws: all of them for a short and simple
      request, only the last for one that needs it, and else the upper two. */
  predicate TierReached(policy: RoutingPolicy, request: RoutingRequest, session: Option<SessionSnapshot>, tier: Tier) {
    match tier
    case Deep => true
    case Balanced => !NeedsDeep(policy, request, session)
    case Fast =>
      && !NeedsDeep(policy, request, session)
      && !LooksComplex(request)
      && request.estimatedInputTokens <= policy.fastMaxInputTokens
  }

  lemma ComplexCapabilities(request: RoutingRequest)
    ensures request.requiredCapabilities * COMPLEX_CAPABILITIES != {} <==>
      exists c | c in {Tools, Thinking, Vision, Reasoning, StructuredOutput, ProviderManagedTools} ::
        c in request.requiredCapabilities
  {
    forall c | c in {Tools, Thinking, Vision, Reasoning, StructuredOutput, ProviderManagedTools}
               && c in request.requiredCapabilities
      ensures c in request.requiredCapabilities * COMPLEX_CAPABILITIES
    {}
    if request.requiredCapabilities * COMPLEX_CAPABILITIES != {} {
      var c :| c in request.requiredCapabilities * COMPLEX_CAPABILITIES;
      assert c in {Tools, Thinking, Vision, Reasoning, StructuredOutput, ProviderManagedTools};
    }
  }

  lemma TierReachedExactly(policy: RoutingPolicy, request: RoutingRequest, session: Option<SessionSnapshot>, tier: Tier)
    ensures TierRank(tier) >= TierRank(AutoTier(policy, request, session).0) <==>
      TierReached(policy, request, session, tier)
  {
    ComplexCapabilities(request);
  }

  /** The configured targets of a request: the chain of an explicit profile, or the
      tiers that an automatic one draws from. */
  ghost predicate Configured(policy: RoutingPolicy, request: RoutingRequest, session: Option<SessionSnapshot>,
                             t: ModelTarget)
    requires policy.Valid() && RequestedProfile(policy, request) in policy.profiles
  {
    var profile := policy.profiles[RequestedProfile(policy, request)];
    && t.alias in policy.targets && policy.targets[t.alias] == t
    && (if profile.automatic then TierReached(policy, request, session, t.tier)
        else request.protocol in profile.targets && t.alias in profile.targets[request.protocol].Aliases())
  }

  lemma AutomaticCandidates(targets: map<string, ModelTarget>, desired: Tier, request: RoutingRequest)
    requires forall a | a in targets :: targets[a].alias == a
    ensures Distinct(OrderedAuto(targets, desired, request))
    ensures forall t :: t in OrderedAuto(targets, desired, request) <==>
      t.alias in targets && targets[t.alias] == t && TierRank(t.tier) >= TierRank(desired) && Capable(t, request)
  {
    var tiers := TIER_ORDER[TierRank(desired)..];
    assert TIER_ORDER[0] == Fast && TIER_ORDER[1] == Balanced && TIER_ORDER[2] == Deep;
    assert forall u: Tier :: u in tiers <==> TierRank(u) >= TierRank(desired) by {
      assert desired == Fast ==> tiers == [Fast, Balanced, Deep];
      assert desired == Balanced ==> tiers == [Balanced, Deep];
      assert desired == Deep ==> tiers == [Deep];
    }
    TierListsMeaning(targets, tiers, request);
  }

  lemma ExplicitCandidates(targets: map<string, ModelTarget>, chain: seq<string>, request: RoutingRequest)
    requires ValidChain(targets, chain) && forall a | a in targets :: targets[a].alias == a
    ensures Distinct(FilterCapable(Lookup(targets, chain), request))
    ensures forall t :: t in FilterCapable(Lookup(targets, chain), request) <==>
      t.alias in targets && targets[t.alias] == t && t.alias in chain && Capable(t, request)
  {
    var configured := Lookup(targets, chain);
    ChainTargets(targets, chain);
    FilterCapableIsSubsequence(configured, request);
    SubsequencePairs(FilterCapable(configured, request), configured, DifferentAliases);
    forall t: ModelTarget
      ensures t in configured <==> t.alias in targets && targets[t.alias] == t && t.alias in chain
    {
      if t in configured {
        var i :| 0 <= i < |configured| && configured[i] == t;
        assert chain[i] in chain;
      }
      if t.alias in targets && targets[t.alias] == t && t.alias in chain {
        var i :| 0 <= i < |chain| && chain[i] == t.alias;
        assert configured[i] == t;
      }
    }
  }

  lemma CandidatesMeaning(policy: RoutingPolicy, request: RoutingRequest, session: Option<SessionSnapshot>)
    requires policy.Valid() && RequestedProfile(policy, request) in policy.profiles
    ensures var capable := CandidatesOf(policy, request, session).capable;
      && Distinct(capable)
      && (forall t :: t in capable <==> Configured(policy, request, session, t) && Capable(t, request))
  {
    var profile := policy.profiles[RequestedProfile(policy, request)];
    if profile.automatic {
      AutomaticCandidates(policy.targets, AutoTier(policy, request, session).0, request);
      forall t: ModelTarget
        ensures TierRank(t.tier) >= TierRank(AutoTier(policy, request, session).0)
          <==> TierReached(policy, request, session, t.tier)
      {
        TierReachedExactly(policy, request, session, t.tier);
      }
    } else if request.protocol in profile.targets {
      ExplicitCandidates(policy.targets, profile.targets[request.protocol].Aliases(), request);
    }
  }

  // ----------------------------------------------------------------------- plans

  function AllOf(plan: ExecutionPlan): seq<ModelTarget> {
    [plan.primary] + plan.fallbacks
  }

  /** What is left of the available targets when a request carries response state. */
  function Survivors(available: seq<ModelTarget>, request: RoutingRequest): seq<ModelTarget> {
    if request.responseStateRequested && available != []
    then SameScope(available, available[0].stateScope)
    else available
  }

  lemma SurvivorsMeaning(available: seq<ModelTarget>, request: RoutingRequest, availability: AvailabilitySnapshot)
    requires available != []
    requires forall i, j | 0 <= i < j < |available| :: ProbesApart(available[i], available[j], availability)
    ensures var scoped := Survivors(available, request);
      && Subsequence(scoped, available)
      && scoped != [] && scoped[0] == available[0]
      && (forall i, j | 0 <= i < j < |scoped| :: ProbesApart(scoped[i], scoped[j], availability))
      && (request.responseStateRequested ==> forall t | t in scoped :: t.stateScope == available[0].stateScope)
  {
    SameScopeIsSubsequence(available, available[0].stateScope);
    SubsequenceSelf(available);
    ScopeFilterKeepsFirst(available, available[0].stateScope);
    SubsequencePairs(Survivors(available, request), available, (a, b) => ProbesApart(a, b, availability));
  }

  /** A plan lists the survivors, the first as primary. */
  lemma PlanListsSurvivors(policy: RoutingPolicy, request: RoutingRequest, session: Option<SessionSnapshot>,
                           availability: AvailabilitySnapshot)
    requires policy.Valid() && PlanOf(policy, request, session, availability).Ok?
    ensures RequestedProfile(policy, request) in policy.profiles
    ensures var plan := PlanOf(policy, request, session, availability).value;
      var available := Available(CandidatesOf(policy, request, session).capable, availability);
      && available != []
      && AllOf(plan) == Survivors(available, request)
      && 1 <= plan.attemptLimit <= policy.attemptLimit
      && plan.attemptLimit <= |AllOf(plan)|
      && plan.Targets() == AllOf(plan)[..plan.attemptLimit]
  {}

  /** Every plan is a nonempty duplicate-free subsequence of the ordered capable list:
      usable targets only, no two probing the same domain, of one state scope if the
      request carries response state; and it attempts at most the policy's limit. */
  lemma PlanIsSound(policy: RoutingPolicy, request: RoutingRequest, session: Option<SessionSnapshot>,
                    availability: AvailabilitySnapshot)
    requires policy.Valid() && PlanOf(policy, request, session, availability).Ok?
    ensures RequestedProfile(policy, request) in policy.profiles
    ensures var plan := PlanOf(policy, request, session, availability).value; var all := AllOf(plan);
      && Subsequence(all, CandidatesOf(policy, request, session).capable)
      && Distinct(all)
      && (forall t | t in all ::
         Configured(policy, request, session, t) && Capable(t, request) && Usable(t, availability))
      && (forall i, j | 0 <= i < j < |all| :: ProbesApart(all[i], all[j], availability))
      && (request.responseStateRequested ==> forall t | t in all :: t.stateScope == plan.primary.stateScope)
      && 1 <= plan.attemptLimit <= policy.attemptLimit
      && plan.attemptLimit <= |all|
      && plan.Targets() == all[..plan.attemptLimit]
  {
    PlanListsSurvivors(policy, request, session, availability);
    var capable := CandidatesOf(policy, request, session).capable;
    var available := Available(capable, availability);
    CandidatesMeaning(policy, request, session);
    AvailableIsSubsequence(capable, availability);
    AvailableMeaning(capable, availability);
    SurvivorsMeaning(available, request, availability);
    var scoped := Survivors(available, request);
    SubsequenceTransitive(scoped, available, capable);
    SubsequenceMembers(scoped, available);
    SubsequencePairs(scoped, capable, DifferentAliases);
  }

  /** Each routing error is raised for exactly one reason; the last no-capable-model
      branch of plan() is never the reason. */
  lemma ErrorsExactly(policy: RoutingPolicy, request: RoutingRequest, session: Option<SessionSnapshot>,
                      availability: AvailabilitySnapshot)
    requires policy.Valid()
    ensures var r := PlanOf(policy, request, session, availability);
      var known := RequestedProfile(policy, request) in policy.profiles;
      && (r == Err(UnknownModel()) <==> !known)
      && (r == Err(NoCapableModel()) <==>
         known && forall t | Configured(policy, request, session, t) :: !Capable(t, request))
      && (r.Err? && r.error.code == "router_no_available_target" <==>
            && known
            && (exists t :: Configured(policy, request, session, t) && Capable(t, request))
            && (forall t | Configured(policy, request, session, t) && Capable(t, request) :: !Usable(t, availability)))
  {
    if RequestedProfile(policy, request) in policy.profiles {
      var c := CandidatesOf(policy, request, session);
      CandidatesMeaning(policy, request, session);
      NoneAvailableIff(c.capable, availability);
      var available := Available(c.capable, availability);
      if c.capable != [] {
        assert c.capable[0] in c.capable;
        if available != [] {
          ScopeFilterKeepsFirst(available, available[0].stateScope);
          assert available[0] in available;
          AvailableMeaning(c.capable, availability);
        }
      }
    }
  }

  // --------------------------------------------------------------- monotonicity

  function FailuresOf(session: Option<SessionSnapshot>): int {
    if session.Some? then session.value.consecutiveFailures else 0
  }

  /** The second request asks for at least as much as the first, in every respect that routing looks at. */
  predicate AtLeastAsDemanding(r1: RoutingRequest, s1: Option<SessionSnapshot>, r2: RoutingRequest,
                               s2: Option<SessionSnapshot>) {
    && r1.protocol == r2.protocol
    && r1.requiredCapabilities <= r2.requiredCapabilities
    && r1.estimatedInputTokens <= r2.estimatedInputTokens
    && r1.toolRounds <= r2.toolRounds
    && (r1.responseStateRequested ==> r2.responseStateRequested)
    && (r1.providerManagedToolsRequested ==> r2.providerManagedToolsRequested)
    && (r1.taskSignals.complexPlanning ==> r2.taskSignals.complexPlanning)
    && (r1.taskSignals.debugging ==> r2.taskSignals.debugging)
    && (r1.taskSignals.review ==> r2.taskSignals.review)
    && (r1.taskSignals.multiFileRefactor ==> r2.taskSignals.multiFileRefactor)
    && (r1.outcomeSignal == SignalFailure ==> r2.outcomeSignal == SignalFailure)
    && FailuresOf(s1) <= FailuresOf(s2)
  }

  lemma TierIsMonotone(policy: RoutingPolicy, r1: RoutingRequest, s1: Option<SessionSnapshot>, r2: RoutingRequest,
                       s2: Option<SessionSnapshot>)
    requires policy.Valid() && AtLeastAsDemanding(r1, s1, r2, s2)
    ensures TierRank(AutoTier(policy, r1, s1).0) <= TierRank(AutoTier(policy, r2, s2).0)
  {
    assert r1.requiredCapabilities * COMPLEX_CAPABILITIES <= r2.requiredCapabilities * COMPLEX_CAPABILITIES;
  }

  lemma {:induction false} LookupSubsequence(targets: map<string, ModelTarget>, xs: seq<string>, ys: seq<string>)
    requires Subsequence(xs, ys) && (forall a | a in xs :: a in targets) && (forall a | a in ys :: a in targets)
    ensures Subsequence(Lookup(targets, xs), Lookup(targets, ys))
    decreases |ys|
  {
    if xs != [] && ys != [] {
      assert Lookup(targets, ys)[1..] == Lookup(targets, ys[1..]);
      if xs[0] == ys[0] && Subsequence(xs[1..], ys[1..]) {
        assert Lookup(targets, xs)[1..] == Lookup(targets, xs[1..]);
        LookupSubsequence(targets, xs[1..], ys[1..]);
      } else {
        LookupSubsequence(targets, xs, ys[1..]);
      }
    } else {
      assert xs == [];
    }
  }

  lemma {:induction false} TierListsShrink(targets: map<string, ModelTarget>, tiers: seq<Tier>, r1: RoutingRequest,
                                           r2: RoutingRequest)
    requires forall t :: Capable(t, r2) ==> Capable(t, r1)
    ensures Subsequence(TierLists(targets, tiers, r2), TierLists(targets, tiers, r1))
    decreases |tiers|
  {
    if tiers != [] {
      var init, last := tiers[..|tiers| - 1], tiers[|tiers| - 1];
      TierListsShrink(targets, init, r1, r2);
      InOrderMonotone(CapableAt(targets, last, r2), CapableAt(targets, last, r1));
      LookupSubsequence(targets, InOrder(CapableAt(targets, last, r2)), InOrder(CapableAt(targets, last, r1)));
      SubsequenceAppend(TierLists(targets, init, r2), TierLists(targets, init, r1),
                        TierList(targets, last, r2), TierList(targets, last, r1));
    }
  }

  lemma {:induction false} TierListsSuffix(targets: map<string, ModelTarget>, front: seq<Tier>, back: seq<Tier>,
                                           request: RoutingRequest)
    ensures Subsequence(TierLists(targets, back, request), TierLists(targets, front + back, request))
    decreases |back|
  {
    if back != [] {
      var init, last := back[..|back| - 1], back[|back| - 1];
      TierListsSuffix(targets, front, init, request);
      assert (front + back)[..|front + back| - 1] == front + init;
      SubsequenceSelf(TierList(targets, last, request));
      SubsequenceAppend(TierLists(targets, init, request), TierLists(targets, front + init, request),
                        TierList(targets, last, request), TierList(targets, last, request));
    }
  }

  /** A more demanding automatic request has its ordered capable list as a subsequence
      of a less demanding one's: demand only removes choices, it never reorders them. */
  lemma AutoRoutingIsMonotone(policy: RoutingPolicy, r1: RoutingRequest, s1: Option<SessionSnapshot>,
                              r2: RoutingRequest, s2: Option<SessionSnapshot>)
    requires policy.Valid() && AtLeastAsDemanding(r1, s1, r2, s2)
    ensures Subsequence(OrderedAuto(policy.targets, AutoTier(policy, r2, s2).0, r2),
                        OrderedAuto(policy.targets, AutoTier(policy, r1, s1).0, r1))
  {
    TierIsMonotone(policy, r1, s1, r2, s2);
    var k1, k2 := TierRank(AutoTier(policy, r1, s1).0), TierRank(AutoTier(policy, r2, s2).0);
    var wide, narrow := TIER_ORDER[k1..], TIER_ORDER[k2..];
    assert TIER_ORDER[k1..k2] + narrow == wide;
    TierListsShrink(policy.targets, narrow, r1, r2);
    TierListsSuffix(policy.targets, TIER_ORDER[k1..k2], narrow, r1);
    SubsequenceTransitive(TierLists(policy.targets, narrow, r2), TierLists(policy.targets, narrow, r1),
                          TierLists(policy.targets, wide, r1));
  }
}
