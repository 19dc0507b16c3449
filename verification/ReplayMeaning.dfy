/** Which replays are refused, how a change is called, and what the all-healthy mode answers. */
module ReplayMeaning {
  import opened Prelude
  import opened Domain
  import opened HealthModels
  import opened RoutingPolicies
  import opened RoutingKernel
  import opened KernelTheorems
  import opened PlanContents
  import opened JsonValues
  import opened Codec
  import opened PolicyCodec
  import opened ReplayEngine

  // ----------------------------------------------------------------------------- changes

  predicate SameIdentity(a: ModelTarget, b: ModelTarget) {
    a.alias == b.alias && a.provider == b.provider && a.upstreamModel == b.upstreamModel && a.protocol == b.protocol
  }

  ghost predicate SameIdentities(xs: seq<ModelTarget>, ys: seq<ModelTarget>) {
    |xs| == |ys| && forall i | 0 <= i < |xs| :: SameIdentity(xs[i], ys[i])
  }

  lemma IdentitiesExactly(xs: seq<ModelTarget>, ys: seq<ModelTarget>)
    ensures Identities(xs) == Identities(ys) <==> SameIdentities(xs, ys)
  {
    if Identities(xs) == Identities(ys) {
      assert |xs| == |Identities(xs)| == |Identities(ys)| == |ys|;
      forall i | 0 <= i < |xs|
        ensures SameIdentity(xs[i], ys[i])
      {
        assert Identities(xs)[i] == Identities(ys)[i];
      }
    }
  }

  /** Two outcomes compare as exactly one of six: plans by their primary, then by what they
      would attempt and within which limits; errors by all their fields. */
  lemma ChangeExactly(actual: Outcome, candidate: Outcome)
    ensures var change := ResultChange(actual, candidate);
      && (change == PlanToError <==> actual.Ok? && candidate.Err?)
      && (change == ErrorToPlan <==> actual.Err? && candidate.Ok?)
      && (change == ErrorChanged <==> actual.Err? && candidate.Err? && actual.error != candidate.error)
      && (change == PrimaryChanged <==>
            actual.Ok? && candidate.Ok? && !SameIdentity(actual.value.primary, candidate.value.primary))
      && (change == ChainChanged <==>
            && actual.Ok? && candidate.Ok? && SameIdentity(actual.value.primary, candidate.value.primary)
            && !(&& SameIdentities(actual.value.Targets(), candidate.value.Targets())
                 && actual.value.attemptLimit == candidate.value.attemptLimit
                 && actual.value.timeouts == candidate.value.timeouts))
  {
    if actual.Err? && candidate.Err? {
      ErrorRoundTrip(actual.error);
      ErrorRoundTrip(candidate.error);
    } else if actual.Ok? && candidate.Ok? {
      IdentitiesExactly(actual.value.Targets(), candidate.value.Targets());
    }
    hide Identities, EncodeError, DecodeError, SameIdentities;
  }

  // ---------------------------------------------------------------------------- refusals

  /** Some target that could take part in the candidate's decision has an identity that the
      historical policy does not know. */
  ghost predicate UnknownParticipant(candidate: RoutingPolicy, request: RoutingRequest, historical: RoutingPolicy) {
    exists t :: t in MayParticipate(candidate, request)
      && forall a | a in historical.targets :: !SameIdentity(historical.targets[a], t)
  }

  /** Those targets: of an explicit profile the chain for the request's protocol, whatever they
      can do; of an automatic one every target, of any tier, that can serve the request but
      for its wish for state or managed tools. Under an unknown profile there are none. */
  lemma ParticipantsExactly(candidate: RoutingPolicy, request: RoutingRequest, t: ModelTarget)
    requires candidate.Valid()
    ensures var stateless := request.(responseStateRequested := false, providerManagedToolsRequested := false);
      t in MayParticipate(candidate, request) <==>
        && RequestedProfile(candidate, request) in candidate.profiles
        && t.alias in candidate.targets && candidate.targets[t.alias] == t
        && var profile := candidate.profiles[RequestedProfile(candidate, request)];
           if profile.automatic then Capable(t, stateless)
           else request.protocol in profile.targets && t.alias in profile.targets[request.protocol].Aliases()
  {}

  /** A case is refused for the first of five reasons that holds: its schema, its algorithm,
      no policy on record, one that does not decode, another policy than the decision's, or,
      in historical mode only, a participant whose availability was never recorded. */
  lemma RefusedExactly(candidate: RoutingPolicy, mode: ReplayMode, c: ReplayCase, hash: Json -> string)
    requires candidate.Valid() && Intact(c.historicalPolicy, hash)
    ensures var r, d := Replay(candidate, mode, c, hash), c.decision;
      if d.schemaVersion != 1 && d.schemaVersion != 2 then r == NotReplayable(SchemaIncompatible)
      else if d.routingAlgorithmVersion != candidate.routingAlgorithmVersion then
        r == NotReplayable(AlgorithmIncompatible)
      else if c.historicalPolicy.None? then r == NotReplayable(PolicyMissing)
      else if DecodedPolicy(c.historicalPolicy.value, hash).Err? then r == NotReplayable(PolicyInvalid)
      else
        var historical := DecodedPolicy(c.historicalPolicy.value, hash).value;
        if historical.routingPolicyHash != d.routingPolicyHash then r == NotReplayable(PolicyMissing)
        else
          && (mode == Historical && UnknownParticipant(candidate, d.request, historical) <==>
                r == NotReplayable(AvailabilityIdentityMissing))
          && (r.NotReplayable? ==> r.reason == AvailabilityIdentityMissing)
  {
    if c.historicalPolicy.Some? && DecodedPolicy(c.historicalPolicy.value, hash).Ok? {
      var historical := DecodedPolicy(c.historicalPolicy.value, hash).value;
      forall t
        ensures !KnownIdentity(historical, t) <==>
          forall a | a in historical.targets :: !SameIdentity(historical.targets[a], t)
      {}
    }
    hide DecodedPolicy, MayParticipate, Reproduces, Decide;
  }

  // -------------------------------------------------------------------------- all healthy

  lemma EverythingIsUsable(policy: RoutingPolicy, observedAt: Time, t: ModelTarget)
    requires policy.Valid() && t.alias in policy.targets
    ensures Usable(t, AllHealthy(policy, observedAt)) && ProbeOf(t, AllHealthy(policy, observedAt)) == None
  {}

  lemma {:induction false} NothingIsFiltered(policy: RoutingPolicy, observedAt: Time, targets: seq<ModelTarget>)
    requires policy.Valid() && forall t | t in targets :: t.alias in policy.targets
    ensures Available(targets, AllHealthy(policy, observedAt)) == targets
    decreases |targets|
  {
    if targets != [] {
      var init, last := targets[..|targets| - 1], targets[|targets| - 1];
      NothingIsFiltered(policy, observedAt, init);
      EverythingIsUsable(policy, observedAt, last);
      assert targets == init + [last];
    }
  }

  /** With every target healthy a policy plans all its capable targets, or all of the first
      one's state scope if the request is stateful, gives no reason of health, and never
      answers that none is available. */
  lemma AllHealthyPlansEverything(policy: RoutingPolicy, observedAt: Time, request: RoutingRequest,
                                  session: Option<SessionSnapshot>)
    requires policy.Valid()
    ensures var answer := PlanOf(policy, request, session, AllHealthy(policy, observedAt));
      if RequestedProfile(policy, request) !in policy.profiles then answer == Err(UnknownModel())
      else
        var capable := CandidatesOf(policy, request, session).capable;
        if capable == [] then answer == Err(NoCapableModel())
        else
          && answer.Ok?
          && AllOf(answer.value) == Survivors(capable, request)
          && answer.value.healthFilteredCount == 0 && answer.value.healthSnapshotRevision == 0
          && answer.value.healthReason == None
  {
    var availability := AllHealthy(policy, observedAt);
    if RequestedProfile(policy, request) in policy.profiles {
      var capable := CandidatesOf(policy, request, session).capable;
      CandidatesMeaning(policy, request, session);
      NothingIsFiltered(policy, observedAt, capable);
      if PlanOf(policy, request, session, availability).Ok? {
        PlanListsSurvivors(policy, request, session, availability);
        HealthInPlanExactly(policy, request, session, availability);
        PlanFieldsExactly(policy, request, session, availability);
        NeverFallsBack(policy, request, session, availability);
      } else {
        NoAvailableExactly(policy, request, session, availability);
        ErrorsExactly(policy, request, session, availability);
      }
    } else {
      ErrorsExactly(policy, request, session, availability);
    }
    hide CandidatesOf, Available, AllHealthy, Configured, FellBack, Usable;
  }

  /** What a replay in all-healthy mode answers, whatever health the decision was taken in:
      an unknown model, no capable target, or a plan of all capable targets of the
      candidate, and how that differs from the recorded answer. */
  lemma AllHealthyReplayExactly(candidate: RoutingPolicy, c: ReplayCase, hash: Json -> string)
    requires candidate.Valid() && Intact(c.historicalPolicy, hash)
    requires Replay(candidate, AllHealthyMode, c, hash).Replayed?
    ensures var r := Replay(candidate, AllHealthyMode, c, hash);
      && HealthyAnswer(candidate, c.decision.request, c.decision.session, r.candidate)
      && r.change == ResultChange(c.decision.actual, r.candidate)
  {
    var d := c.decision;
    AllHealthyAnswer(candidate, d.availability.observedAt, d.request, d.session);
    hide HealthyAnswer, AllHealthy, Decide, ResultChange, DecodedPolicy, Reproduces, MayParticipate, KnownIdentity;
  }

  /** A persisted error that tells of no health. */
  function Refusal(code: string, status: int): RouterErrorSnapshot {
    RouterErrorSnapshot(code, status, false, None, 0, 0, None)
  }

  ghost predicate HealthyAnswer(policy: RoutingPolicy, request: RoutingRequest, session: Option<SessionSnapshot>,
                                answer: Outcome)
    requires policy.Valid()
  {
    if RequestedProfile(policy, request) !in policy.profiles then answer == Err(Refusal("router_unknown_model", 400))
    else
      var capable := CandidatesOf(policy, request, session).capable;
      if capable == [] then answer == Err(Refusal("router_no_capable_model", 422))
      else answer.Ok? && AllOf(answer.value) == Survivors(capable, request) && answer.value.healthReason == None
  }

  lemma AllHealthyAnswer(policy: RoutingPolicy, observedAt: Time, request: RoutingRequest,
                         session: Option<SessionSnapshot>)
    requires policy.Valid()
    ensures HealthyAnswer(policy, request, session, Decide(policy, request, session, AllHealthy(policy, observedAt)))
  {
    AllHealthyPlansEverything(policy, observedAt, request, session);
    hide AllHealthy, CandidatesOf, Survivors;
  }

  lemma NeverFallsBack(policy: RoutingPolicy, request: RoutingRequest, session: Option<SessionSnapshot>,
                       availability: AvailabilitySnapshot)
    requires policy.Valid() && PlanOf(policy, request, session, availability).Ok?
    requires RequestedProfile(policy, request) in policy.profiles
    requires Available(CandidatesOf(policy, request, session).capable, availability)
      == CandidatesOf(policy, request, session).capable
    ensures !FellBack(policy, request, session, PlanOf(policy, request, session, availability).value)
  {
    var capable := CandidatesOf(policy, request, session).capable;
    PlanListsSurvivors(policy, request, session, availability);
    SurvivorsStart(capable, request);
    hide PlanOf, CandidatesOf, Available, Capable, Survivors, Configured, LowestReached;
    assert PlanOf(policy, request, session, availability).value.primary == capable[0];
    if policy.profiles[RequestedProfile(policy, request)].automatic {
      LowestComesFirst(policy, request, session);
    }
  }

  /** If a capable target is of the lowest tier reached, the first one is. */
  lemma LowestComesFirst(policy: RoutingPolicy, request: RoutingRequest, session: Option<SessionSnapshot>)
    requires policy.Valid() && RequestedProfile(policy, request) in policy.profiles
    requires policy.profiles[RequestedProfile(policy, request)].automatic
      && CandidatesOf(policy, request, session).capable != []
    ensures (exists t ::
              Configured(policy, request, session, t) && Capable(t, request)
              && LowestReached(policy, request, session, t.tier))
      ==> LowestReached(policy, request, session, CandidatesOf(policy, request, session).capable[0].tier)
  {
    var capable := CandidatesOf(policy, request, session).capable;
    CandidatesMeaning(policy, request, session);
    CandidatesAreOrdered(policy, request, session);
    hide CandidatesOf, Capable, Distinct, Subsequence, NeedsDeep, LooksComplex;
    assert capable[0] in capable && TierReached(policy, request, session, capable[0].tier);
    if t :| Configured(policy, request, session, t) && Capable(t, request)
            && LowestReached(policy, request, session, t.tier) {
      var i :| 0 <= i < |capable| && capable[i] == t;
      assert i == 0 || Precedes(capable[0], capable[i]);
    }
  }

  // ------------------------------------------------------------------- persisted errors

  /** What is kept of a request none of whose targets could be used: how many there were,
      why, at which revision, and how long to wait. */
  lemma PersistedErrorExactly(policy: RoutingPolicy, request: RoutingRequest, session: Option<SessionSnapshot>,
                              availability: AvailabilitySnapshot)
    requires policy.Valid() && PlanOf(policy, request, session, availability).Err?
    requires RequestedProfile(policy, request) in policy.profiles
      && CandidatesOf(policy, request, session).capable != []
    ensures var answer := Decide(policy, request, session, availability);
      && answer.Err?
      && answer.error.code == "router_no_available_target" && answer.error.httpStatus == 503
      && !answer.error.fallbackAllowed
      && answer.error.retryAfter == RetryAfter(availability)
      && answer.error.healthSnapshotRevision == availability.revision
      && answer.error.healthFilteredCount == |CandidatesOf(policy, request, session).capable|
      && FilterReason(CandidatesOf(policy, request, session).capable, 0, availability, answer.error.healthReason)
  {
    NoAvailableExactly(policy, request, session, availability);
    var available := Available(CandidatesOf(policy, request, session).capable, availability);
    if available != [] {
      SurvivorsStart(available, request);
    }
    hide CandidatesOf, Available, SameScope, FilterReason, RetryAfter, HealthReason;
  }
}
