/** Side-effect-free replay of historical routing decisions (evaluation/replay.py). */
module ReplayEngine {
  import opened Prelude
  import opened Domain
  import opened HealthModels
  import opened RoutingPolicies
  import opened RoutingKernel
  import opened KernelTheorems
  import opened JsonValues
  import opened Codec
  import opened PolicyCodec

  datatype Identity = Identity(alias: string, provider: string, upstreamModel: string, protocol: Protocol)

  /** The operational identity used by historical availability. */
  function IdentityOf(t: ModelTarget): Identity {
    Identity(t.alias, t.provider, t.upstreamModel, t.protocol)
  }

  function Identities(ts: seq<ModelTarget>): seq<Identity> {
    seq(|ts|, i requires 0 <= i < |ts| => IdentityOf(ts[i]))
  }

  /** Targets that may enter a decision of the policy, conservatively. */
  function MayParticipate(policy: RoutingPolicy, request: RoutingRequest): set<ModelTarget> {
    var name := RequestedProfile(policy, request);
    if name !in policy.profiles then {}
    else
      var profile := policy.profiles[name];
      if !profile.automatic then
        if request.protocol !in profile.targets then {}
        else set a | a in profile.targets[request.protocol].Aliases() && a in policy.targets :: policy.targets[a]
      else
        set a | a in policy.targets
                && policy.targets[a].protocol == request.protocol
                && request.requiredCapabilities <= policy.targets[a].capabilities
                && request.estimatedInputTokens <= policy.targets[a].maxInputTokens
              :: policy.targets[a]
  }

  function AllHealthy(policy: RoutingPolicy, observedAt: Time): AvailabilitySnapshot {
    AvailabilitySnapshot(
      0,
      observedAt,
      map a | a in policy.targets :: TargetAvailability(true, Healthy, ReasonHealthy, None, None, None),
      None)
  }

  datatype ReplayMode = Historical | AllHealthyMode

  datatype ReplayChange = Unchanged | PrimaryChanged | ChainChanged | ErrorChanged | PlanToError | ErrorToPlan

  datatype NonReplayable =
    | SchemaIncompatible | AlgorithmIncompatible | PolicyMissing | PolicyInvalid | AvailabilityIdentityMissing

  /** One plan or one persisted error. */
  type Outcome = Result<ExecutionPlan, RouterErrorSnapshot>

  datatype Decision = Decision(
    routingAlgorithmVersion: string,
    routingPolicyHash: string,
    request: RoutingRequest,
    session: Option<SessionSnapshot>,
    availability: AvailabilitySnapshot,
    actual: Outcome,
    schemaVersion: int)

  datatype ReplayCase = ReplayCase(decision: Decision, historicalPolicy: Option<RoutingPolicySnapshot>)

  datatype ReplayResult =
    | Replayed(candidate: Outcome, change: ReplayChange)
    | NotReplayable(reason: NonReplayable)
    | Fatal  // historical_reproduction_mismatch

  function PlanChange(actual: ExecutionPlan, candidate: ExecutionPlan): ReplayChange {
    if IdentityOf(actual.primary) != IdentityOf(candidate.primary) then PrimaryChanged
    else if Identities(actual.Targets()) != Identities(candidate.Targets())
            || actual.attemptLimit != candidate.attemptLimit
            || actual.timeouts != candidate.timeouts then ChainChanged
    else Unchanged
  }

  function ResultChange(actual: Outcome, candidate: Outcome): ReplayChange {
    match (actual, candidate)
    case (Ok(_), Err(_)) => PlanToError
    case (Err(_), Ok(_)) => ErrorToPlan
    case (Ok(p), Ok(q)) => PlanChange(p, q)
    case (Err(d), Err(e)) => if EncodeError(d) == EncodeError(e) then Unchanged else ErrorChanged
  }

  /** What the production kernel answers, in persisted form. */
  ghost function Decide(policy: RoutingPolicy, request: RoutingRequest, session: Option<SessionSnapshot>,
                        availability: AvailabilitySnapshot): Outcome
    requires policy.Valid()
  {
    match PlanOf(policy, request, session, availability)
    case Ok(plan) => Ok(plan)
    case Err(error) => Err(SnapshotOfError(error))
  }

  /** Production logic reproduces the stored result. */
  ghost predicate Reproduces(decision: Decision, policy: RoutingPolicy)
    requires policy.Valid()
  {
    match (Decide(policy, decision.request, decision.session, decision.availability), decision.actual)
    case (Ok(reproduced), Ok(actual)) => EncodePlan(reproduced) == EncodePlan(actual)
    case (Err(reproduced), Err(actual)) => EncodeError(reproduced) == EncodeError(actual)
    case _ => false
  }

  /** A persisted policy that decodes also satisfies what configuration validation established when it was captured. */
  ghost predicate Intact(persisted: Option<RoutingPolicySnapshot>, hash: Json -> string) {
    persisted.Some? && DecodedPolicy(persisted.value, hash).Ok? ==> DecodedPolicy(persisted.value, hash).value.Valid()
  }

  ghost predicate Answers(candidate: RoutingPolicy, mode: ReplayMode, c: ReplayCase, hash: Json -> string,
                          r: ReplayResult)
    requires candidate.Valid()
  {
    Intact(c.historicalPolicy, hash) && Replay(candidate, mode, c, hash) == r
  }

  /** replay(), by the engine for one candidate policy. */
  ghost function Replay(candidate: RoutingPolicy, mode: ReplayMode, c: ReplayCase, hash: Json -> string): ReplayResult
    requires candidate.Valid()
    requires Intact(c.historicalPolicy, hash)
  {
    var d := c.decision;
    if d.schemaVersion !in {1, 2} then NotReplayable(SchemaIncompatible)
    else if d.routingAlgorithmVersion != candidate.routingAlgorithmVersion then NotReplayable(AlgorithmIncompatible)
    else if c.historicalPolicy.None? then NotReplayable(PolicyMissing)
    else
      var decoded := DecodedPolicy(c.historicalPolicy.value, hash);
      if decoded.Err? then NotReplayable(PolicyInvalid)
      else ReplayAgainst(candidate, mode, d, decoded.value)
  }

  /** The comparison once the historical policy is decoded. */
  ghost function ReplayAgainst(candidate: RoutingPolicy, mode: ReplayMode, d: Decision, historical: RoutingPolicy)
    : ReplayResult
    requires candidate.Valid() && historical.Valid()
  {
    if historical.routingPolicyHash != d.routingPolicyHash then NotReplayable(PolicyMissing)
    else if mode == Historical
            && exists t | t in MayParticipate(candidate, d.request) :: !KnownIdentity(historical, t)
    then NotReplayable(AvailabilityIdentityMissing)
    else if !Reproduces(d, historical) then Fatal
    else
      var availability :=
        if mode == Historical then d.availability else AllHealthy(candidate, d.availability.observedAt);
      var answer := Decide(candidate, d.request, d.session, availability);
      Replayed(answer, ResultChange(d.actual, answer))
  }

  predicate KnownIdentity(policy: RoutingPolicy, t: ModelTarget) {
    exists a | a in policy.targets :: IdentityOf(policy.targets[a]) == IdentityOf(t)
  }

  // -------------------------------------------------------------------- theorems

  /** MayParticipate covers every target that a decision can choose from. */
  lemma ParticipantsCoverCandidates(policy: RoutingPolicy, request: RoutingRequest, session: Option<SessionSnapshot>,
                                    t: ModelTarget)
    requires policy.Valid() && RequestedProfile(policy, request) in policy.profiles
    requires t in CandidatesOf(policy, request, session).capable
    ensures t in MayParticipate(policy, request)
  {
    CandidatesMeaning(policy, request, session);
    assert Configured(policy, request, session, t) && Capable(t, request);
    assert policy.targets[t.alias] == t;
  }

  /** Every target of a plan replayed in historical mode has an identity of the historical policy. */
  lemma HistoricalReplayUsesKnownTargets(candidate: RoutingPolicy, c: ReplayCase, hash: Json -> string, t: ModelTarget)
    requires candidate.Valid()
    requires Intact(c.historicalPolicy, hash)
    requires Replay(candidate, Historical, c, hash).Replayed? && Replay(candidate, Historical, c, hash).candidate.Ok?
    requires t in AllOf(Replay(candidate, Historical, c, hash).candidate.value)
    ensures KnownIdentity(DecodedPolicy(c.historicalPolicy.value, hash).value, t)
  {
    var d := c.decision;
    PlanIsSound(candidate, d.request, d.session, d.availability);
    SubsequenceMembers(AllOf(Replay(candidate, Historical, c, hash).candidate.value),
                       CandidatesOf(candidate, d.request, d.session).capable);
    ParticipantsCoverCandidates(candidate, d.request, d.session, t);
  }

  /** A decision as the coordinator captures it: the policy's identity and the kernel's own answer. */
  ghost predicate CapturedUnder(d: Decision, policy: RoutingPolicy)
    requires policy.Valid()
  {
    && d.schemaVersion == 2
    && d.routingAlgorithmVersion == policy.routingAlgorithmVersion
    && d.routingPolicyHash == policy.routingPolicyHash
    && d.actual == Decide(policy, d.request, d.session, d.availability)
  }

  lemma UnchangedBySelf(o: Outcome)
    ensures ResultChange(o, o) == Unchanged
  {}

  lemma OwnTargetsAreKnown(policy: RoutingPolicy, request: RoutingRequest)
    requires policy.Valid()
    ensures forall t | t in MayParticipate(policy, request) :: KnownIdentity(policy, t)
  {
    forall t | t in MayParticipate(policy, request)
      ensures KnownIdentity(policy, t)
    {
      assert t.alias in policy.targets;
    }
  }

  lemma EqualAnswersReproduce(d: Decision, policy: RoutingPolicy)
    requires policy.Valid()
    ensures Reproduces(d, policy) <==> Decide(policy, d.request, d.session, d.availability) == d.actual
  {
    match (Decide(policy, d.request, d.session, d.availability), d.actual)
    case (Ok(p), Ok(q)) => PlanRoundTrip(p); PlanRoundTrip(q);
    case (Err(e), Err(f)) => ErrorRoundTrip(e); ErrorRoundTrip(f);
    case _ =>
  }

  lemma ReplayAgainstItself(policy: RoutingPolicy, d: Decision)
    requires policy.Valid() && CapturedUnder(d, policy)
    ensures ReplayAgainst(policy, Historical, d, policy) == Replayed(d.actual, Unchanged)
  {
    OwnTargetsAreKnown(policy, d.request);
    EqualAnswersReproduce(d, policy);
    UnchangedBySelf(d.actual);
  }

  lemma ReplayUnderOwnPolicy(policy: RoutingPolicy, snapshot: RoutingPolicySnapshot, hash: Json -> string, d: Decision)
    requires policy.Valid() && CapturedUnder(d, policy)
    requires DecodedPolicy(snapshot, hash) == Ok(policy)
    ensures Answers(policy, Historical, ReplayCase(d, Some(snapshot)), hash, Replayed(d.actual, Unchanged))
  {
    ReplayAgainstItself(policy, d);
  }

  /** Self-replay: a decision captured under a configuration, plan or error alike, and
      replayed in historical mode against the policy compiled from that configuration
      with its persisted snapshot, is replayed and unchanged, with the same answer. */
  lemma SelfReplay(config: RouterConfig, hash: Json -> string, size: Json -> nat, createdAt: Time, d: Decision)
    requires config.Valid() && PolicySnapshotOf(config, hash, size, createdAt).Ok?
    requires CapturedUnder(d, CompiledPolicy(config, hash))
    ensures Answers(CompiledPolicy(config, hash), Historical,
                    ReplayCase(d, Some(PolicySnapshotOf(config, hash, size, createdAt).value)), hash,
                    Replayed(d.actual, Unchanged))
  {
    PolicySquare(config, hash, size, createdAt);
    ReplayUnderOwnPolicy(CompiledPolicy(config, hash), PolicySnapshotOf(config, hash, size, createdAt).value, hash, d);
  }

  /** A replayed case is called unchanged exactly when what would be executed is the
      same: the identities of primary and attempted targets, the attempt limit and the
      timeouts of two plans, or every field of two errors. */
  lemma UnchangedMeaning(actual: Outcome, candidate: Outcome)
    ensures ResultChange(actual, candidate) == Unchanged <==>
      match (actual, candidate)
      case (Ok(p), Ok(q)) =>
        && IdentityOf(p.primary) == IdentityOf(q.primary)
        && Identities(p.Targets()) == Identities(q.Targets())
        && p.attemptLimit == q.attemptLimit
        && p.timeouts == q.timeouts
      case (Err(d), Err(e)) => d == e
      case _ => false
  {
    if actual.Err? && candidate.Err? {
      ErrorRoundTrip(actual.error);
      ErrorRoundTrip(candidate.error);
    }
  }

  /** A replay is fatal exactly when the captured result differs from what the historical policy yields. */
  lemma FatalExactly(candidate: RoutingPolicy, mode: ReplayMode, c: ReplayCase, hash: Json -> string)
    requires candidate.Valid()
    requires Intact(c.historicalPolicy, hash)
    requires !Replay(candidate, mode, c, hash).NotReplayable?
    ensures Replay(candidate, mode, c, hash).Fatal? <==>
      Decide(DecodedPolicy(c.historicalPolicy.value, hash).value, c.decision.request, c.decision.session,
             c.decision.availability)
        != c.decision.actual
  {
    EqualAnswersReproduce(c.decision, DecodedPolicy(c.historicalPolicy.value, hash).value);
  }
}
