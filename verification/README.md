# LLM router: verified model

The router accepts requests in two protocols, picks an ordered list of model
targets for each, asks a health coordinator for permission to use a target,
calls its Provider, falls back before anything reached the client, and relays
the Provider's stream. This project models the parts whose state outlives a
call or crosses a component, and proves what they promise over every input and
every run.

- **Health coordinator** (`HealthMachine`, `HealthSafety`, `HealthTheorems`,
  `HealthAdmission`, `HealthBackoff`, `HealthIsolation`, `HealthRevision`,
  `HealthOutcomes`, `HealthExamples`, `HealthCoordinator`). A Provider and a
  model target are failure domains with the same four-state record.
  `HealthMachine` is the coordinator as a state machine over values; a run is
  any sequence of calls with any arguments and times, so it covers late,
  repeated, stale and forged outcomes and any interleaving of concurrent
  callers, whose calls run one at a time under the coordinator's lock.
  `HealthOutcomes` tells what each call does to each domain without the
  machine's steps. The class in `HealthCoordinator` updates record objects in
  place and is proved to take exactly those steps.
- **Routing kernel** (`Aliases`, `RoutingKernel`, `KernelTheorems`,
  `PlanContents`, `RoutingHealth`): tier choice, filtering by capability, health
  and state scope, every field of a plan or error told from the request and the
  snapshot, and the fit with admission.
- **Policy identity and replay** (`JsonValues`, `Codec`, `PolicyCodec`,
  `ReplayEngine`, `ReplayMeaning`): the direct compilation of a policy, the
  canonical document that is persisted and decoded again, and replays of
  captured decisions.
- **Execution** (`Failures`, `Exchanges`, `Attempts`, `Execution`,
  `ExecutionTheorems`, `ExecutionAnswers`, `ExecutionEffects`,
  `ExecutionLeases`, `ExecutionProbes`, `Serving`, `RoutedExecution`): the
  fallback loop over a plan, running against the coordinator class while
  scripted calls of others interleave with its own. The world is a script: for
  each target whether the deadline has passed, what the Provider does, and when.
  `ExecutionAnswers` and `ExecutionEffects` tell what each answer of a Provider
  leads to for the client and for the failure domains.
- **Streams** (`Sse`, `StreamObserver`, `FirstEvent`, `StreamRelay`, `Usage`,
  `StreamProtocols`, `StreamOutcomes`, `StreamExamples`): event framing, the two
  protocols' readings of events and what decides success and usage in each, the
  bounded observer, reading the first event, and the relay as a generator driven
  by a script of upstream and one of the consumer, who may leave at any yield
  and cancel the completion future at any suspension.
- **Sessions** (`SessionHistory`, `SessionMeaning`, `Sessions`): the bounded
  store, against a description of its contents by the calls alone, and a closed
  form of what failures, successes and unknown outcomes leave.

A method that the source writes as a loop or an in-place update is proved equal
to a function of its inputs or of the old state, and the promises are lemmas
about that function.

Behaviour kept as the code has it:

- A probe whose failure is charged to the other domain loses its token, and the
  probed domain is refused for ever after (`HealthTheorems.OrphanExactly`,
  `HealthExamples.ATokenIsOrphaned`).
- A cooldown can be extended without a new generation or revision
  (`HealthExamples.CooldownIsExtendedQuietly`), but only behind a probe whose
  token is lost in the same call (`HealthRevision.QuietExtensionOrphans`), so
  equal revisions still mean equal snapshots
  (`HealthRevision.EqualRevisionsEqualSnapshots`).
- A blank first event is never trimmed, so such a stream is never committed
  (`FirstEvent.LeadingBlankLineIsNeverTrimmed`).
- The relay observes the first event and the remainder before its error
  handling. If that raises, the lease is never recorded and the exchange never
  closed (`Serving.StreamLeaseIsRecordedExactly`, `Serving.Serve`). The
  remainder can raise in both protocols (`StreamExamples.ARemainderRaises`). The
  first event, once accepted, cannot in Anthropic's, but it can in OpenAI's,
  where a list or a mapping for its type passes validation
  (`StreamProtocols.OpenAIFirstEventIsObservedExactly`,
  `StreamExamples.AnAcceptedFirstEventRaises`).
- If the completion future was cancelled meanwhile, settling it raises and the
  client gets an error event after a recorded success
  (`StreamRelay.ErrorAfterSuccessExactly`,
  `StreamExamples.SuccessIsFollowedByAnError`).
- If normalising the usage of a delivered payload raises, success is already
  recorded, yet the next target is tried (`ExecutionTheorems.PartingWays`). Only
  JSON and Unicode decoding errors are caught there; parsing can raise others,
  such as for an integer literal beyond the interpreter's digit limit.
- An unregistered Provider counts as a transient Provider failure, and its
  event still says that upstream was invoked (`Attempts.Judge`).
- Session entries do not depend on the clock being monotone; a clock that runs
  backwards merely never ends a session (`Sessions.CallExtends`).

Preconditions are those of the validated configuration
(`src/llm_router/config.py:110-126`, `235`, `246-247`, `370-386`): threshold and
multiplier at least 1, maximum cooldown at least the cooldown, session capacity
at least 1, tier limits in order, chains without duplicates or unknown aliases.

## Model

| member | source | states |
|---|---|---|
| HealthCoordinator.InMemoryHealthCoordinator.constructor | src/llm_router/health/coordinator.py:45-63 | a fresh coordinator holds one fresh record per domain and is in the initial state of the machine |
| HealthCoordinator.InMemoryHealthCoordinator.Acquire | src/llm_router/health/coordinator.py:188-247 | one atomic step: exactly the machine's acquire, with its lease; the object then holds the state reached by the whole history of calls |
| HealthCoordinator.InMemoryHealthCoordinator.Record | src/llm_router/health/coordinator.py:349-407 | one atomic step: exactly the machine's settlement of a lease, and the history grows by this call alone |
| HealthCoordinator.InMemoryHealthCoordinator.Snapshot | src/llm_router/health/coordinator.py:132-148 | the revision, every target's availability and the earliest advertised recovery of the present state; nothing changes |
| HealthCoordinator.InMemoryHealthCoordinator.AvailabilityOf | src/llm_router/health/coordinator.py:85-130 | the first reason in order provider blocked, provider cooling, target blocked, target cooling, else eligible, as a probe of the half-open domain if there is one |
| HealthCoordinator.InMemoryHealthCoordinator.TransientFailure | src/llm_router/health/coordinator.py:289-326 | the record after one charged transient failure: counted in the anchored window, or a new cooldown |
| HealthCoordinator.InMemoryHealthCoordinator.SettleRecords | src/llm_router/health/coordinator.py:361-406 | both records of a lease move to the machine's next records, whichever order of current, stale, charged and released applies |
| HealthSafety.RunPreservesInv | src/llm_router/health/coordinator.py:188-406 | the invariant over records, tokens and active leases holds after every interleaving of calls with any times |
| HealthTheorems.AtMostOneCurrentLease | src/llm_router/health/coordinator.py:188-247 | in every reachable state a domain that is not healthy has at most one active lease of its generation, and a blocked one has none |
| HealthTheorems.BlockedForever | src/llm_router/health/coordinator.py:249-276 | no continuation of any run changes a blocked domain, although a success resets records unconditionally |
| HealthTheorems.ProbeHoldsItsToken | src/llm_router/health/coordinator.py:202-233 | every active probe holds the token of exactly one domain, which is half-open, and is the only active lease current there |
| HealthTheorems.OrphanIsPermanent | src/llm_router/health/coordinator.py:349-406 | an orphaned token keeps its domain unchanged and refused to every caller in every continuation |
| HealthTheorems.OrphanExactly | src/llm_router/health/coordinator.py:373-406 | a call leaves a token without an active lease iff it settles a probe whose failure is charged to the domain it does not probe, or discards a probe under a forged lease |
| HealthTheorems.NoOrphansIff | src/llm_router/health/coordinator.py:373-406 | over every run: no token is orphaned iff no call of the run lost a probe |
| HealthTheorems.SafeProbesLeaveNoOrphans | src/llm_router/health/coordinator.py:373-406 | if every recorded probe ended in success, neutrally or in a failure of its own domain, every held token belongs to an active lease |
| HealthExamples.ATokenIsOrphaned | src/llm_router/health/coordinator.py:379-386 | a run of four calls after which a provider's token is orphaned: its probe was rate limited |
| HealthTheorems.CooldownIsServed | src/llm_router/health/coordinator.py:73-83 | a call that changes a domain in cooldown is an admission after its end or settles a lease acquired after its end, a provider probe over an expired target cooldown included |
| HealthTheorems.StaleOutcomeIsIgnored | src/llm_router/health/coordinator.py:361-372 | an outcome leaves alone every domain whose generation its lease does not carry |
| HealthTheorems.SecondOutcomeIsIgnored | src/llm_router/health/coordinator.py:353-356 | a second outcome of a lease changes nothing, whatever happened in between |
| HealthTheorems.TokensAreNotReissued | src/llm_router/health/coordinator.py:219-245 | a settled token is never active again |
| HealthRevision.RevisionTracksAvailability | src/llm_router/health/coordinator.py:165-175 | a call that leaves the revision alone leaves every domain in its state and generation, and every target's availability at every instant as it was |
| HealthRevision.EqualRevisionsEqualSnapshots | src/llm_router/health/coordinator.py:132-148 | the revision never falls over a run, and two snapshots of it for one instant with equal revisions are equal, recovery time included |
| HealthRevision.QuietChangeExactly | src/llm_router/health/coordinator.py:314-326 | a call changes a record without moving the revision iff it charges a transient failure to that domain, in the lease's generation, that is left counted or falls on a domain already in cooldown |
| HealthRevision.QuietExtensionOrphans | src/llm_router/health/coordinator.py:314-326 | a call that changes a domain within its cooldown settles a probe of the target's provider and orphans that provider's token; a new end of the cooldown is within its bounds |
| HealthExamples.CooldownIsExtendedQuietly | src/llm_router/health/coordinator.py:314-326 | a run of six calls whose last extends the target's cooldown at the same generation and revision: both domains had cooled down and the provider's probe was rate limited |
| HealthAdmission.SnapshotAgreesWithAdmission | src/llm_router/health/coordinator.py:85-148 | eligible in a snapshot iff acquiring at that instant succeeds; the advertised probe domain is the one whose token is taken and the only one changed |
| HealthAdmission.NoRecoveryBeforeEarliest | src/llm_router/health/coordinator.py:65-71 | with no call in between, an ineligible target stays refused before the advertised recovery, and for ever if none is advertised |
| HealthBackoff.DomainsAreIndependentMachines | src/llm_router/health/coordinator.py:30-40 | after every run a domain's record is the replay of the events charged to that domain alone |
| HealthBackoff.BackoffOverRuns | src/llm_router/health/coordinator.py:278-287 | over every run the k-th cooldown since the last success lasts between the cooldown and its maximum and at least min(maximum, cooldown * multiplier^k); the level counts them; failures stay below the threshold |
| HealthBackoff.CooldownNeedsThresholdFailures | src/llm_router/health/coordinator.py:299-313 | a healthy domain enters cooldown only by the last of threshold-many charged failures, none later than the window anchored at the first |
| HealthIsolation.ProvidersAreIsolated | src/llm_router/health/coordinator.py:349-406 | deleting all calls on other providers leaves a provider's records, its targets' and its holders the same up to an injective renaming of tokens |
| HealthIsolation.AvailabilityIsIsolated | src/llm_router/health/coordinator.py:85-130 | what routing sees of a target does not depend on calls on other providers |
| HealthOutcomes.SuccessCloses | src/llm_router/health/coordinator.py:249-276 | over every run, a success settled by a genuine lease leaves each domain whose generation it carries healthy, with no failures, window, cooldown, backoff or token |
| HealthOutcomes.SuccessReopens | src/llm_router/health/coordinator.py:249-276 | after a success current in both its domains every call for the target is granted, as no probe, until a failure is charged to one of them |
| HealthOutcomes.PermanentFailureBlocks | src/llm_router/health/coordinator.py:328-347 | a permanent failure leaves the domain it is charged to blocked, its counters cleared and its backoff kept |
| HealthOutcomes.BlockedOnlyByPermanent | src/llm_router/health/coordinator.py:328-347 | of the outcomes that settle a domain exactly those block it |
| HealthOutcomes.TransientFailureOpens | src/llm_router/health/coordinator.py:289-326 | a transient failure of the domain's own probe, or the one that fills its window, starts a cooldown that ends after the exponential time or the Retry-After, the longer of them but at most the maximum |
| HealthOutcomes.CooldownIsLasting | src/llm_router/health/coordinator.py:278-287 | that duration, for every configuration, level and Retry-After |
| HealthOutcomes.TransientFailureCounts | src/llm_router/health/coordinator.py:299-326 | any other transient failure is counted in the anchored window of the domain it is charged to, and changes nothing else there |
| HealthOutcomes.NeutralOutcomeReleases | src/llm_router/health/coordinator.py:373-406 | any other outcome gives back the token its lease holds on a domain, unless it was charged to the other one, and changes nothing else there |
| HealthOutcomes.UnsettledStays | src/llm_router/health/coordinator.py:353-372 | an outcome that does not settle a domain, forged, repeated or stale, leaves it alone |
| ExecutionEffects.OutcomeTreats | src/llm_router/health/coordinator.py:349-406 | the whole table in one statement, over every run: closed, blocked, one more transient failure, or spared |
| HealthOutcomes.AcquireExactly | src/llm_router/health/coordinator.py:188-247 | a call is granted iff both domains let it through; it is a probe iff one of them wants one, the provider first, which then is half-open under the lease's token, and no other record changes |
| HealthOutcomes.RevisionCountsChanges | src/llm_router/health/coordinator.py:150-175 | a call advances the revision by one for each of its two domains whose generation or token it visibly changed |
| HealthOutcomes.AvailabilityExactly | src/llm_router/health/coordinator.py:85-130 | eligibility, state, reason, retry time and probe of a target in a snapshot, read off its two records |
| RoutingKernel.Plan | src/llm_router/routing/kernel.py:155-227 | plan() in imperative form returns the plan or error of the specification, for every order in which the catalog may be enumerated |
| RoutingKernel.OrderedAutoTargets | src/llm_router/routing/kernel.py:95-111 | capable targets of the desired tier and those above it, by alias within a tier, independent of catalog order |
| RoutingKernel.AvailableTargets | src/llm_router/routing/kernel.py:113-144 | the kept targets, how many were dropped, and the reason given for it |
| KernelTheorems.AvailableMeaning | src/llm_router/routing/kernel.py:113-144 | health filtering keeps usable targets only, no two probing one domain, and drops a usable one only in favour of an earlier target probing its domain |
| KernelTheorems.NoneAvailableIff | src/llm_router/routing/kernel.py:113-144 | nothing is left iff no target was usable |
| KernelTheorems.CandidatesMeaning | src/llm_router/routing/kernel.py:166-188 | the candidates are exactly the configured and capable targets, without duplicates |
| KernelTheorems.PlanIsSound | src/llm_router/routing/kernel.py:155-227 | every plan is a nonempty duplicate-free subsequence of the ordered capable list, all usable, probe domains distinct, one state scope for stateful requests, attempts bounded |
| KernelTheorems.ErrorsExactly | src/llm_router/routing/kernel.py:166-196 | each routing error is raised for exactly one reason; the last no-capable branch is never it |
| KernelTheorems.TierReachedExactly | src/llm_router/routing/kernel.py:64-93 | a tier is at or above the one an automatic plan starts from iff the request, the session and the limits say so: deep always, balanced unless a failure, tool rounds or size need deep, fast only if besides nothing is complex and the size is small |
| PlanContents.RouteReasonExactly | src/llm_router/routing/kernel.py:64-93 | an automatic plan names each of the six reasons iff its condition holds and none of the earlier ones does |
| PlanContents.CandidatesAreOrdered | src/llm_router/routing/kernel.py:95-111 | an automatic profile lists capable targets by tier and within a tier by alias, an explicit one in the order of its chain |
| PlanContents.PlannedTargetsCanServe | src/llm_router/routing/kernel.py:47-62 | every planned target is configured and eligible and has the protocol, capabilities and context that the request needs |
| PlanContents.UsableTargetsArePlanned | src/llm_router/routing/kernel.py:47-62 | a configured and eligible target that can serve the request, and is no probe, is left out only of another state scope |
| PlanContents.PlanFieldsExactly | src/llm_router/routing/kernel.py:216-227 | profile, attempt limit, timeouts, snapshot revision and an explicit plan's reason, from the policy, the request and the snapshot |
| PlanContents.PlanVersionExactly | src/llm_router/routing/policy.py:56-60 | the version is the policy's, a dash and the first twelve characters of its hash |
| PlanContents.HealthReasonExactly | src/llm_router/routing/kernel.py:135-144 | why health took targets out: none if it took none, blocked iff some were ineligible and all those blocked, else cooling down |
| PlanContents.HealthInPlanExactly | src/llm_router/routing/kernel.py:189-203 | the plan counts the targets taken out, and names another tier iff it fell back, else why they were taken out |
| PlanContents.FellBackExactly | src/llm_router/routing/kernel.py:199-203 | a plan fell back iff it is automatic and starts above the lowest tier reached although a capable target of that tier is configured |
| PlanContents.AuxiliaryReasonsExactly | src/llm_router/routing/kernel.py:165-215 | the further reasons of a plan, in order, each with its condition |
| PlanContents.NoAvailableExactly | src/llm_router/routing/kernel.py:189-196 | the error of a request with no usable target says how many there are, why, at which revision, and when to come back; the other two say none of it |
| PlanContents.RetryAfterExactly | src/llm_router/routing/kernel.py:147-153 | the least whole number of seconds, never negative, that reaches the earliest recovery; none without one |
| Aliases.StringLessExactly | src/llm_router/routing/kernel.py:95-110 | the order of aliases: a proper prefix comes first, else the first difference decides |
| RoutingKernel.ScopeFilterKeepsFirst | src/llm_router/routing/kernel.py:204-213 | filtering by the first target's state scope keeps that target, so the list is never emptied |
| KernelTheorems.TierIsMonotone | src/llm_router/routing/kernel.py:64-93 | more demand never lowers the desired tier |
| KernelTheorems.AutoRoutingIsMonotone | src/llm_router/routing/kernel.py:47-110 | a request at least as demanding in every coordinate has a subsequence of the other's ordered capable list |
| Aliases.SortedIsInOrder | src/llm_router/routing/kernel.py:95-110 | sorting by alias has one result, whatever the order it started from |
| RoutingHealth.AdmissionsDoNotInterfere | src/llm_router/routing/kernel.py:122-134 | admitting some targets of a filtered list leaves the domains of the later ones as they were |
| RoutingHealth.PlansAreJointlyAdmissible | src/llm_router/routing/kernel.py:112-134 | acquiring the targets of a plan in order, at the instant of its snapshot and with no call between, always yields leases |
| Codec.RequestRoundTrip | src/llm_router/evaluation/codec.py:123-208 | decoding an encoded request yields it |
| Codec.SessionRoundTrip | src/llm_router/evaluation/codec.py:211-247 | decoding an encoded session snapshot, or none, yields it |
| Codec.AvailabilityRoundTrip | src/llm_router/evaluation/codec.py:250-299 | decoding an encoded availability snapshot yields it |
| Codec.PlanRoundTrip | src/llm_router/evaluation/codec.py:302-366 | decoding an encoded plan yields it |
| Codec.ErrorRoundTrip | src/llm_router/evaluation/codec.py:369-407 | decoding an encoded error yields it |
| Codec.TargetRoundTrip | src/llm_router/evaluation/codec.py:89-120 | decoding an encoded model target yields it |
| Codec.EncodingsAreFaithful | src/llm_router/evaluation/codec.py:302-407 | encodings of plans and of errors are equal iff the values are |
| Codec.SchemasAreClosed | src/llm_router/evaluation/codec.py:52-56 | a persisted request, session, availability, plan or error with a missing or an unknown field is refused |
| PolicyCodec.CompiledPolicy | src/llm_router/routing/policy.py:119-152 | a validated configuration compiles to a valid policy |
| PolicyCodec.CompileRoutingPolicy | src/llm_router/routing/policy.py:119-152 | the loop over profiles yields exactly the compiled policy, under the hash of its document |
| PolicyCodec.DocumentPolicy | src/llm_router/routing/policy.py:63-110 | the loop over profiles yields exactly the canonical document |
| PolicyCodec.DecodePolicySnapshot | src/llm_router/evaluation/codec.py:443-478 | decoding with its loop over profiles yields the decoded policy or its error |
| PolicyCodec.PolicySquare | src/llm_router/evaluation/codec.py:427-478 | for every configuration a snapshot is refused iff its text is too large, and otherwise decodes to the directly compiled policy, identity included |
| PolicyCodec.HashIsChecked | src/llm_router/evaluation/codec.py:443-448 | a snapshot is refused as forged iff its document does not have its hash, and a decoded policy keeps that hash |
| ReplayEngine.ParticipantsCoverCandidates | src/llm_router/evaluation/replay.py:45-62 | every capable target that routing considers may participate |
| ReplayEngine.HistoricalReplayUsesKnownTargets | src/llm_router/evaluation/replay.py:146-153 | a plan replayed in historical mode uses only targets whose identity is in the historical policy |
| ReplayEngine.SelfReplay | src/llm_router/evaluation/replay.py:130-181 | a decision captured under a configuration replays as unchanged, plan or error, against the policy compiled from it with its own snapshot |
| ReplayEngine.UnchangedMeaning | src/llm_router/evaluation/replay.py:75-105 | unchanged iff primary, attempted targets, attempt limit and timeouts of two plans agree, or two errors are equal |
| ReplayEngine.FatalExactly | src/llm_router/evaluation/replay.py:198-213 | replay is fatal iff the captured result differs from what the historical policy yields |
| ReplayMeaning.ChangeExactly | src/llm_router/evaluation/replay.py:75-105 | each of the other five changes has its exact condition on the two answers |
| ReplayMeaning.RefusedExactly | src/llm_router/evaluation/replay.py:130-155 | a case is refused for the first of five reasons that holds |
| ReplayMeaning.ParticipantsExactly | src/llm_router/evaluation/replay.py:45-62 | the targets whose identity must be known: the chain of an explicit profile, or all that can serve the request but for its wish for state or managed tools |
| ReplayMeaning.AllHealthyPlansEverything | src/llm_router/evaluation/replay.py:65-72 | with every target healthy a policy plans all its capable targets, or all of the first one's state scope, gives no reason of health and never answers that none is available |
| ReplayMeaning.AllHealthyReplayExactly | src/llm_router/evaluation/replay.py:156-181 | so a replay in that mode answers an unknown model, no capable target or that plan, whatever health was recorded |
| ReplayMeaning.PersistedErrorExactly | src/llm_router/evaluation/replay.py:162-163 | what is kept of a request none of whose targets could be used |
| Failures.FallbackAgreesWithHealth | src/llm_router/execution/failures.py:24-142 | a fallback is allowed iff the recorded class is transient, for every HTTP status, every adapter class and every error the router raises itself |
| ExecutionAnswers.StatusExactly | src/llm_router/execution/failures.py:24-116 | for an answer outside 200-299: the next target may be tried iff the status is 429, 500, 502, 503, 504 or 529; which class is recorded for which status; and the parsed Retry-After reaches both outcome and error |
| ExecutionAnswers.StatusOnHealth | src/llm_router/execution/engine.py:248-265 | on the coordinator such an answer blocks the target iff 404 and the provider iff 401, is charged transiently to the target iff 429 and to the provider iff one of the five server errors, and is neutral otherwise |
| ExecutionEffects.VisitOnHealth | src/llm_router/execution/engine.py:248-430 | over every run of the engine, a visit that commits no stream settles its lease, and that closes, blocks, fails or spares each domain of the lease's generation as the Provider's answer alone calls for, with the Retry-After it carried |
| ExecutionAnswers.InvocationExactly | src/llm_router/execution/engine.py:224-247 | how an attempt ends whose Provider gives no answer, for every way it may fail |
| ExecutionAnswers.BodyExactly | src/llm_router/execution/engine.py:322-367 | how an attempt ends that is answered with success, but not by a stream |
| ExecutionAnswers.StreamExactly | src/llm_router/execution/engine.py:266-321 | and by a stream: handed over on its first event iff that exists, is not blank and is accepted, else lost for the stated error |
| Failures.ForeignErrorsMayDisagree | src/llm_router/execution/failures.py:128-142 | for any other error the two agree iff its code is a transient one just if fallback is allowed; an error for which they do not |
| Usage.NormalizeAnthropic | src/llm_router/observability/usage.py:18-45 | the loop over four counters yields the normalised usage: invalid on any malformed counter |
| Usage.NormalizationMeaning | src/llm_router/observability/usage.py:10-80 | normalised usage can always be built, has counters iff complete or partial, and OpenAI's uncached and cached input add up to the reported input |
| Usage.MergeAllMeaning | src/llm_router/observability/usage.py:83-111 | merging in stream order keeps, per counter, the latest value since the last invalid fragment; it raises iff at some fragment latest reasoning exceeds latest output |
| Sse.CutIsEarliestEnd | src/llm_router/execution/streaming.py:32-41 | delimiters do not overlap: the one that starts first is the one that ends first |
| Sse.CutIsStable | src/llm_router/execution/streaming.py:32-41 | later bytes never move the first cut |
| Sse.FramingIsUnique | src/llm_router/execution/streaming.py:43-52 | a stream has one division into events, each holding its only delimiter at its end, and a tail with none; draining finds it |
| Sse.DrainIsIncremental | src/llm_router/execution/streaming.py:43-52 | draining piece by piece, carrying the tail, is draining the whole |
| StreamObserver.SSEUsageAccumulator.Feed | src/llm_router/execution/streaming.py:43-78 | the buffer, usage, terminal outcome and overflow flag after one chunk, and whether an event raised |
| StreamObserver.ObserverSeesTheStream | src/llm_router/execution/streaming.py:43-78 | an observer that has not overflowed reports the whole stream so far and holds exactly its unfinished tail |
| StreamObserver.ChunkingInvariance | src/llm_router/execution/streaming.py:43-78 | two chunkings of one stream that never overflow agree on raising, usage and terminal outcome, and on the residual buffer |
| StreamObserver.OverflowExactly | src/llm_router/execution/streaming.py:67-78 | overflow happens iff at some chunk boundary the unfinished event exceeds the bound |
| StreamObserver.ObserverIsBounded | src/llm_router/execution/streaming.py:58-78 | the retained bytes are bounded and hold no complete event, and after an overflow usage is never called complete |
| StreamObserver.ReportMeaning | src/llm_router/execution/streaming.py:50-57 | usage is the merge of the fragments in stream order and the terminal outcome that of the last event having one; it raises iff an event is faulty or the merge fails |
| FirstEvent.ReadFirstEvent | src/llm_router/execution/streaming.py:81-110 | the opening after the fewest chunks that complete a nonblank first event, or the error of the ending |
| FirstEvent.FirstOpeningMeaning | src/llm_router/execution/streaming.py:81-110 | first and remainder are exactly the bytes read, first is one event and not blank, and no fewer chunks would do |
| FirstEvent.CommittableExactly | src/llm_router/execution/streaming.py:81-110 | whether a stream can be committed depends on its bytes alone: iff its first event exists and is not blank |
| FirstEvent.FirstEventDecides | src/llm_router/execution/streaming.py:86-95 | a stream can be committed iff some byte of its first event is none of the six that strip removes |
| FirstEvent.FirstEventIsOfTheStream | src/llm_router/execution/streaming.py:89-95 | the committed first event is the first event of the whole stream, however it is chunked |
| FirstEvent.LeadingBlankLineIsNeverTrimmed | src/llm_router/execution/streaming.py:86-95 | a stream that starts with a blank line always ends in the error of its ending, whatever follows |
| StreamRelay.RelayStream | src/llm_router/execution/streaming.py:113-230 | the whole transcript of a run, for every script of upstream and consumer |
| StreamRelay.Leave | src/llm_router/execution/streaming.py:151-230 | outcome, future and error event for each way out: normal end, cancellation, router error, other error |
| StreamRelay.RelayIsTransparent | src/llm_router/execution/streaming.py:142-183 | at every moment the bytes sent are a chunk-wise prefix of first event, remainder and upstream chunks; all of them if upstream ended by itself |
| StreamRelay.RelayFinishesOnce | src/llm_router/execution/streaming.py:133-140 | outcome recorded, upstream closed and future settled exactly once when the run is over and never before; at most one error event; the counts are of the calls that RelayStream makes |
| StreamRelay.SuccessExactly | src/llm_router/execution/streaming.py:151-181 | success is recorded iff upstream ended by itself with a success as last terminal event, of the whole stream by its own framing if no event was too long |
| StreamRelay.RunFollowsScript | src/llm_router/execution/streaming.py:142-183 | what the consumer did at the last yield, or else what upstream did at the next pull, ends the run; the future is cancelled iff somebody cancelled it at a suspension up to then |
| StreamRelay.ProviderIsChargedExactly | src/llm_router/execution/streaming.py:184-228 | neutral iff the consumer left at the last yield or the relay was cancelled at the next pull; success iff that pull was the end after a terminal success; otherwise a post-commit failure |
| ExecutionEffects.StreamOnHealth | src/llm_router/execution/streaming.py:133-228 | a committed stream whose relay comes to an end closes both domains of its lease on success, fails the provider alone on a stream failure, and spares both if the client left |
| StreamRelay.ErrorAfterSuccessExactly | src/llm_router/execution/streaming.py:172-181 | a recorded success is followed by an error event iff the future was cancelled at some yield of the run or at some pull up to the one that found the end |
| StreamExamples.SuccessIsFollowedByAnError | src/llm_router/execution/streaming.py:172-181 | an Anthropic stream of its message_stop event whose future is cancelled while the end is awaited: success recorded, then an error event |
| StreamRelay.EndIsChunkingInvariant | src/llm_router/execution/streaming.py:113-230 | two runs that reach the end of the same bytes record the same outcome and usage, however these were cut |
| StreamOutcomes.AnthropicSucceedsExactly | src/llm_router/execution/stream_semantics.py:104-116 | an Anthropic stream that comes to its end with no event too long is recorded as a success iff the last of its events of type message_stop or error has the former |
| StreamOutcomes.OpenAISucceedsExactly | src/llm_router/execution/stream_semantics.py:142-154 | an OpenAI stream, iff the last of its events of the four terminal types has response.completed |
| StreamOutcomes.CompletionExactly | src/llm_router/execution/streaming.py:147-228 | what the future is settled with and which error event is sent, read off the move or pull that ended the run and the terminal event seen |
| StreamOutcomes.UsageOfRunExactly | src/llm_router/execution/streaming.py:153-181 | the usage reported at the end is, counter by counter, the latest value of any event since the last invalid report |
| StreamOutcomes.UsageIsFoundExactly | src/llm_router/execution/stream_semantics.py:91-141 | in which object of an event each protocol looks for usage |
| StreamOutcomes.AnthropicUsageExactly | src/llm_router/observability/usage.py:18-45 | which counter each Anthropic field feeds, and when the report is invalid, missing or complete |
| StreamOutcomes.OpenAIUsageExactly | src/llm_router/observability/usage.py:48-80 | which counter each OpenAI field feeds: cached input is part of the input, reasoning part of the output |
| StreamOutcomes.OverflowDegrades | src/llm_router/execution/streaming.py:66-79 | an event that grows too long is dropped; the counters stay but count as partial from then on |
| Attempts.Attempt | src/llm_router/execution/engine.py:204-430 | the verdict of one attempt; its lease is recorded exactly once, with the verdict's outcome, and its exchange closed exactly once, unless both are handed over |
| Attempts.TryOpened | src/llm_router/execution/engine.py:248-340 | from the opening of an exchange on: what is raised or returned, recorded, and still held open |
| Serving.Deliver | src/llm_router/execution/streaming.py:113-230 | the relay of a committed stream records its lease and closes its exchange exactly once iff it comes to an end |
| Attempts.LeaseGuard.Record | src/llm_router/execution/engine.py:211-222 | at most one outcome per admitted lease reaches the coordinator |
| Attempts.TryInvoke | src/llm_router/execution/engine.py:224-367 | what the try block raises or returns, and what it has recorded by then |
| Execution.VisitTargets | src/llm_router/execution/engine.py:175-447 | the visits, counts, kept error and early answer of the loop, and every call it makes on the coordinator among those of others |
| Execution.Execute | src/llm_router/execution/engine.py:161-489 | every visit is what plan, script and coordinator dictate; the loop stops only where it must; the answer follows from the visits and the final snapshot |
| ExecutionTheorems.AttemptsAreAccounted | src/llm_router/execution/engine.py:170-201 | events are numbered 1 to n in plan order; skipped and upstream calls add up to n iff every attempted target's provider is registered; n stays within the attempt limit |
| ExecutionTheorems.ExchangesAreClosedOnce | src/llm_router/execution/engine.py:256-257 | every exchange that a run opened is closed exactly once by the end of its attempt, except that of a committed stream, the last, handed over open |
| ExecutionTheorems.AgreementExactly | src/llm_router/execution/engine.py:396-430 | for every attempt fallback is allowed iff the recorded class is transient, except exactly after a self-contradictory foreign error or unusable usage |
| ExecutionTheorems.FallbackFollowsHealth | src/llm_router/execution/engine.py:446-447 | a target is visited after an attempted one only if that was lost with a transient class, and then always, up to those exceptions, deadline and protocol |
| ExecutionTheorems.PartingWays | src/llm_router/execution/engine.py:330-341 | two attempts at which they part ways: success recorded yet the next target tried; and, as the Provider port admits it, a fallback after a rejected request |
| ExecutionTheorems.ExhaustedExactly | src/llm_router/execution/engine.py:448-489 | exhaustion is reported iff every planned target was visited, each skipped or lost with a fallback allowed, not all skipped and no foreign error passing for a timeout, or the last error is itself an exhaustion; some target was then attempted unless none was planned |
| ExecutionAnswers.EventsExactly | src/llm_router/execution/engine.py:289-445 | the event of each visited target: its status, the upstream status if there was an answer, and the error code if it was lost or cancelled |
| ExecutionAnswers.AnswerExactly | src/llm_router/execution/engine.py:448-489 | what the client gets: the last visit's answer, cancellation or final error; a refused protocol; that none was available, with the fresh snapshot's retry time and counts; a deadline; or exhaustion |
| ExecutionLeases.VisitLeavesLease | src/llm_router/execution/engine.py:187-430 | one visit leaves its lease settled, or live and handed over, whatever others call meanwhile |
| ExecutionLeases.LeasesAreConserved | src/llm_router/execution/engine.py:187-430 | over every run each acquired lease is recorded exactly once and gone at its end, except the last one if a committed stream hands it over, unrecorded and live |
| ExecutionProbes.TargetIsBlamedExactly | src/llm_router/execution/engine.py:249-265 | an attempt's outcome is charged to the target iff the answer is not found or rate limited, or the adapter reports a failure of that class |
| ExecutionProbes.ProbeIsLostExactly | src/llm_router/execution/engine.py:396-430 | an attempt loses the probe it was admitted as iff its outcome is held against the domain it does not probe, still in the lease's generation: an answer that blames the target for a provider's probe, a Provider's failure for a target's |
| ExecutionProbes.EngineOrphansExactly | src/llm_router/execution/engine.py:187-430 | over every run of the engine no token is orphaned at the end iff none was before, and neither a call of others nor an outcome of an attempt lost a probe |
| Serving.Serve | src/llm_router/execution/engine.py:279-321 | a request up to the end of its stream: the calls of the engine, of the relay and of others, and nothing else; a committed stream's exchange is closed once iff its relay runs and comes to an end |
| Serving.StreamLeaseIsRecordedExactly | src/llm_router/execution/streaming.py:126-140 | a handed-over lease is recorded exactly once, and then gone, iff the relay runs and comes to an end; otherwise nothing records it and it stays active |
| Serving.ObservableExactly | src/llm_router/execution/streaming.py:126-132 | observing what was read before the commit raises iff one of its complete events cannot be observed or their usage fragments cannot be merged |
| Serving.FirstEventIsObservedExactly | src/llm_router/execution/streaming.py:126-128 | a first event can be observed before the relay starts iff reading it does not raise |
| StreamProtocols.AnthropicIsLawful | src/llm_router/execution/stream_semantics.py:83-116 | in the Anthropic protocol every event that validation accepts can be observed |
| StreamProtocols.AnthropicFirstEventIsObserved | src/llm_router/execution/stream_semantics.py:83-116 | so an accepted first event of an Anthropic stream is always observed |
| StreamProtocols.OpenAIFirstEventIsObservedExactly | src/llm_router/execution/stream_semantics.py:119-154 | an accepted first event of an OpenAI stream is observed iff its type is neither a list nor a mapping, which a set lookup cannot hash |
| StreamProtocols.OpenAIIsLawfulExactly | src/llm_router/execution/stream_semantics.py:119-154 | in the OpenAI protocol every accepted event can be observed iff no event parses to an object with such a type |
| StreamProtocols.AnthropicHeadIsObservedExactly | src/llm_router/execution/stream_semantics.py:83-116 | observing the head of an Anthropic stream raises iff one of its complete events is JSON other than an object; merging its usage never raises |
| StreamProtocols.OpenAIHeadIsObservedExactly | src/llm_router/execution/stream_semantics.py:119-154 | for OpenAI, iff one is that or has such a type, or the usage of its completed responses cannot be merged |
| StreamExamples.ARemainderRaises | src/llm_router/execution/streaming.py:126-132 | an Anthropic stream committed on a valid first event that arrived with an event whose data is no object: its relay never runs |
| StreamExamples.AnAcceptedFirstEventRaises | src/llm_router/execution/stream_semantics.py:143-154 | an OpenAI stream committed on an accepted first event whose type is a list: its relay never runs either |
| Serving.EndToEndTransparency | src/llm_router/execution/streaming.py:81-183 | bytes sent are a prefix of the bytes upstream sent before and after the commit, all of them if it ended by itself |
| RoutedExecution.FreshPlanIsAttempted | src/llm_router/execution/engine.py:187-203 | a plan executed at the instant of its snapshot, before any other call, always gets a lease for its first target, so it never ends with no available target if that Provider is registered |
| Sessions.SessionStateStore.Get | src/llm_router/routing/session.py:32-44 | the live entry or a blank one, moved to the end; the oldest beyond capacity are gone, all others as they were |
| Sessions.SessionStateStore.Snapshot | src/llm_router/routing/session.py:46-52 | a copy of the session's fold over its own unbroken calls; nothing for an absent or empty id |
| Sessions.SessionStateStore.RoutingSnapshot | src/llm_router/routing/session.py:54-65 | the four fields that routing consumes, of that same fold |
| Sessions.SessionStateStore.Record | src/llm_router/routing/session.py:67-85 | the store again holds exactly what the longer history says |
| Sessions.SessionStateStore.EvictOldest | src/llm_router/routing/session.py:42-43 | the newest entries up to capacity stay, in order, with their states |
| SessionHistory.NewestAreRecent | src/llm_router/routing/session.py:40-43 | an id is among the newest iff fewer than capacity other ids were called since |
| SessionHistory.TouchOrderMeaning | src/llm_router/routing/session.py:40-41 | the touch order lists the called ids once each, and behind each exactly the ids called since |
| SessionHistory.NewestAfterTouch | src/llm_router/routing/session.py:40-43 | evicting commutes with touching, so a bounded store never needs what it evicted |
| Sessions.CallExtends | src/llm_router/routing/session.py:35-44 | a call extends the fold of its session if it was still kept and within the ttl, and starts a new one otherwise |
| SessionHistory.StreakIsTail | src/llm_router/routing/session.py:37-39 | what an entry is folded from is a tail of the session's own calls without a gap longer than the ttl |
| SessionHistory.EscalationIsBounded | src/llm_router/routing/session.py:73-85 | the failure count stays between zero and the failures since the last success; at most one unknown outcome is pending |
| SessionMeaning.EscalationExactly | src/llm_router/routing/session.py:67-85 | n failures reported in a row after a success, or at the start, leave exactly n; m unknown outcomes after them take away m / 2, never below zero |
| SessionMeaning.FailuresAddUp | src/llm_router/routing/session.py:75-77 | every failure in a row adds one to whatever was counted |
| SessionMeaning.SuccessClears | src/llm_router/routing/session.py:78-80 | a success leaves zero |
| SessionMeaning.UnknownsDecay | src/llm_router/routing/session.py:81-85 | every second unknown outcome in a row, a pending one included, takes one away |
| SessionMeaning.SnapshotChangesNothing | src/llm_router/routing/session.py:46-65 | a call without a report changes the time of the last access only |
| SessionMeaning.LastReportIsKept | src/llm_router/routing/session.py:73-74 | tier and outcome are those of the last report, or balanced and unknown without one |
| SessionMeaning.StreakJoinsExactly | src/llm_router/routing/session.py:32-44 | a call continues the streak of the session's call before it iff no more than the ttl lies between and fewer than capacity other ids were called in between |
| SessionMeaning.FirstCallStartsStreak | src/llm_router/routing/session.py:35-38 | the first call of a session is the whole of its streak |

## Left out

- Serving.Serve: the relay is entered only when observing what was already read does not raise; a relay that raises there is modelled as not running, which is what it amounts to for the lease and the client.
- Attempts.Attempt: closing an exchange is taken to end without raising and without being cancelled, because a cancellation inside the handlers' own close is outside every guard of the code.
- ReplayEngine.Replay: a persisted policy that decodes is taken to satisfy the validated configuration's facts, which the decoder does not check again.
- PolicyCodec.PolicySquare: hashing and the size of the canonical text are parameters; SHA-256 and JSON text are not modelled, JSON objects are maps, so key order does not exist.
- Codec.RequestRoundTrip: decoders accept a value of the field's type only, where the code coerces with `str`, `int` or `float`; instants are instants, so normalising UTC offsets is the identity.
- Aliases.SortedIsInOrder: strings compare by code unit, as Python compares by code point.
- HealthBackoff.BackoffOverRuns: seconds are reals, with no rounding to microseconds and no overflow of the power.
- StreamObserver.ChunkingInvariance: any reading of single events will do; that of the two protocols is modelled over a parameter for JSON parsing of event data, whose outcome is an object, other JSON, or an error that is caught.
- StreamRelay.RelayStream: timeouts and deadlines are choices of the script; the bytes of a rendered error event are a parameter; latencies in the statistics are left out.
- Execution.Execute: clocks, headers other than the parsed `Retry-After`, request ids and durations are left out; parsing `Retry-After` (delta seconds, HTTP dates, the cap) yields the optional number that the script supplies, and collecting a non-stream body its result.
- BaseExceptions other than cancellation and generator exit, such as a keyboard interrupt, are not modelled.
- The disabled health coordinator, transition observers and the health port's other callers' code: no effect on the state modelled here.
- HTTP serving, provider adapters, authentication and rendering: I/O and library plumbing.
- Feature extraction from request bodies: a routing request is an arbitrary value.
- SQLite storage, retention, pricing, dashboard, reports, CLI, canary selection and the shadow queue: storage and rendering, or facts of one branch.
