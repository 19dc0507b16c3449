/**
 The health coordinator as a state machine over values.

 Every failure domain, a provider or a model target, is one Record. A
 coordinator call changes a Record only by one DomainEvent, so the two-level
 coordinator is a product of identical one-domain machines plus the rule that
 decides which domain an outcome is charged to.
 */
module HealthMachine {
  import opened Prelude
  import opened Domain
  import opened HealthModels

  datatype DomainKey = ProviderDomain(name: string) | TargetDomain(alias: string)

  datatype Record = Record(
    state: HealthState,
    failures: nat,
    windowStart: Option<Time>,
    cooldownUntil: Option<Time>,
    backoff: nat,
    token: Option<nat>,
    generation: nat)

  const FRESH := Record(Healthy, 0, None, None, 0, None, 0)

  // ---------------------------------------------------------------- one domain

  datatype DomainEvent =
    | ProbeAdmitted(token: nat)
    | Succeeded
    | FailedTransiently(at: Time, retryAfter: Option<real>, token: nat)
    | FailedPermanently
    | Released(token: nat)

  function Power(base: real, n: nat): real {
    if n == 0 then 1.0 else base * Power(base, n - 1)
  }

  /** The uncapped cooldown at one backoff level. */
  function Exponential(c: HealthConfig, level: nat): real {
    c.cooldown * Power(c.backoffMultiplier, level)
  }

  function CooldownSeconds(c: HealthConfig, level: nat, retryAfter: Option<real>): real {
    var requested := if retryAfter.Some? then MaxReal(0.0, retryAfter.value) else 0.0;
    MinReal(c.maxCooldown, MaxReal(Exponential(c, level), requested))
  }

  /** A change of state starts a new generation, which makes older leases stale. */
  function EnterState(r: Record, state: HealthState): Record {
    if r.state == state then r else r.(state := state, generation := r.generation + 1)
  }

  /** Count one failure in the window anchored at the first failure of a streak. */
  function CountFailure(c: HealthConfig, r: Record, at: Time): Record {
    if r.windowStart.None? || at - r.windowStart.value > c.failureWindow
    then r.(windowStart := Some(at), failures := 1)
    else r.(failures := r.failures + 1)
  }

  function StartCooldown(c: HealthConfig, r: Record, at: Time, retryAfter: Option<real>): Record {
    EnterState(
      r.(token := None,
      cooldownUntil := Some(at + CooldownSeconds(c, r.backoff, retryAfter)),
      failures := 0,
      windowStart := None,
      backoff := r.backoff + 1),
      Cooldown)
  }

  function Apply(c: HealthConfig, r: Record, e: DomainEvent): Record {
    match e
    case ProbeAdmitted(token) =>
      EnterState(r.(token := Some(token), cooldownUntil := None), HalfOpen)
    case Succeeded =>
      var changed := r.state != Healthy || r.failures > 0 || r.windowStart.Some? || r.backoff > 0;
      Record(Healthy, 0, None, None, 0, None, if changed then r.generation + 1 else r.generation)
    case FailedTransiently(at, retryAfter, token) =>
      if r.state == HalfOpen && r.token == Some(token) then
        StartCooldown(c, r, at, retryAfter)
      else
        var counted := CountFailure(c, r, at);
        if counted.failures >= c.failureThreshold
        then StartCooldown(c, counted, at, retryAfter)
        else counted.(token := None)
    case FailedPermanently =>
      EnterState(r.(cooldownUntil := None, token := None, failures := 0, windowStart := None), Blocked)
    case Released(token) =>
      if r.token == Some(token) then r.(token := None) else r
  }

  /** How far one event advances the coordinator's revision. */
  function RevisionDelta(r: Record, r': Record, e: DomainEvent): nat {
    match e
    case ProbeAdmitted(_) => 1
    case Released(token) => if r.token == Some(token) then 1 else 0
    case _ => if r'.generation > r.generation then 1 else 0
  }

  /** Expired cooldown counts as half-open. */
  function Effective(r: Record, now: Time): HealthState {
    if r.state == Cooldown && r.cooldownUntil.Some? && r.cooldownUntil.value <= now then HalfOpen else r.state
  }

  predicate Admits(r: Record, now: Time) {
    match Effective(r, now)
    case Healthy => true
    case HalfOpen => r.token.None?
    case _ => false
  }

  // ---------------------------------------------------------- the coordinator

  datatype World = World(config: HealthConfig, catalog: map<string, ModelTarget>)
  {
    ghost predicate Valid() {
      && config.Valid()
      && forall a | a in catalog :: catalog[a].alias == a
    }

    predicate Knows(target: ModelTarget) {
      target.alias in catalog && catalog[target.alias].provider == target.provider
    }

    function Domains(): set<DomainKey> {
      (set a | a in catalog :: TargetDomain(a)) + (set a | a in catalog :: ProviderDomain(catalog[a].provider))
    }
  }

  datatype Registry = Registry(
    records: map<DomainKey, Record>,
    active: map<nat, HealthLease>,
    revision: nat,
    nextToken: nat)

  function Initial(w: World): Registry {
    Registry(map d | d in w.Domains() :: FRESH, map[], 0, 1)
  }

  function ProviderOf(lease: HealthLease): DomainKey { ProviderDomain(lease.provider) }
  function TargetOf(lease: HealthLease): DomainKey { TargetDomain(lease.targetAlias) }

  predicate Covers(lease: HealthLease, d: DomainKey) {
    d == ProviderOf(lease) || d == TargetOf(lease)
  }

  function LeaseGeneration(lease: HealthLease, d: DomainKey): nat {
    if d.ProviderDomain? then lease.providerGeneration else lease.targetGeneration
  }

  /** The lease was issued in the present generation of d. */
  predicate Current(s: Registry, lease: HealthLease, d: DomainKey) {
    Covers(lease, d) && d in s.records && s.records[d].generation == LeaseGeneration(lease, d)
  }

  // ------------------------------------------------------------------ acquire

  /** The domain whose single recovery probe an admitted call becomes. */
  function ProbedDomain(s: Registry, target: ModelTarget, now: Time): Option<DomainKey>
    requires ProviderDomain(target.provider) in s.records && TargetDomain(target.alias) in s.records
  {
    if Effective(s.records[ProviderDomain(target.provider)], now) == HalfOpen then Some(ProviderDomain(target.provider))
    else if Effective(s.records[TargetDomain(target.alias)], now) == HalfOpen then Some(TargetDomain(target.alias))
    else None
  }

  predicate Admissible(w: World, s: Registry, target: ModelTarget, now: Time)
    requires w.Domains() <= s.records.Keys
  {
    && w.Knows(target)
    && Admits(s.records[ProviderDomain(target.provider)], now)
    && Admits(s.records[TargetDomain(target.alias)], now)
  }

  function Grant(w: World, s: Registry, target: ModelTarget, now: Time): Registry
    requires w.Domains() <= s.records.Keys && Admissible(w, s, target, now)
  {
    var probed := ProbedDomain(s, target, now);
    var records :=
      if probed.Some?
      then s.records[probed.value := Apply(w.config, s.records[probed.value], ProbeAdmitted(s.nextToken))]
      else s.records;
    var revision := if probed.Some? then s.revision + 1 else s.revision;
    var lease := HealthLease(
      s.nextToken, target.provider, target.alias, revision, now, probed.Some?,
      records[ProviderDomain(target.provider)].generation,
      records[TargetDomain(target.alias)].generation);
    Registry(records, s.active[s.nextToken := lease], revision, s.nextToken + 1)
  }

  function Acquire(w: World, s: Registry, target: ModelTarget, now: Time): Registry
    requires w.Domains() <= s.records.Keys
  {
    if Admissible(w, s, target, now) then Grant(w, s, target, now) else s
  }

  function GrantedLease(w: World, s: Registry, target: ModelTarget, now: Time): Option<HealthLease>
    requires w.Domains() <= s.records.Keys
  {
    if Admissible(w, s, target, now) then Some(Grant(w, s, target, now).active[s.nextToken]) else None
  }

  // ------------------------------------------------------------------- record

  /** The domain a failure class is charged to; none for success and neutral outcomes. */
  function ChargedDomain(lease: HealthLease, failureClass: FailureClass): Option<DomainKey> {
    match failureClass
    case ProviderTransient | PostCommitStreamFailure | ProviderPermanent => Some(ProviderOf(lease))
    case TargetTransient | TargetPermanent => Some(TargetOf(lease))
    case _ => None
  }

  predicate Charges(s: Registry, lease: HealthLease, failureClass: FailureClass) {
    var charged := ChargedDomain(lease, failureClass);
    charged.Some? && Current(s, lease, charged.value)
  }

  /** What the outcome of an active lease means for one domain. */
  function EventFor(s: Registry, lease: HealthLease, outcome: AttemptOutcome, d: DomainKey): Option<DomainEvent> {
    if !Current(s, lease, d) then None
    else if outcome.failureClass == Success then Some(Succeeded)
    else if Charges(s, lease, outcome.failureClass) then
      if ChargedDomain(lease, outcome.failureClass) != Some(d) then None
      else if outcome.failureClass.ProviderPermanent? || outcome.failureClass.TargetPermanent?
      then Some(FailedPermanently)
      else Some(FailedTransiently(outcome.observedAt, outcome.retryAfter, lease.token))
    else Some(Released(lease.token))
  }

  function Evolved(w: World, s: Registry, lease: HealthLease, outcome: AttemptOutcome, d: DomainKey): Record
    requires d in s.records
  {
    var e := EventFor(s, lease, outcome, d);
    if e.Some? then Apply(w.config, s.records[d], e.value) else s.records[d]
  }

  function Advance(w: World, s: Registry, lease: HealthLease, outcome: AttemptOutcome, d: DomainKey): nat {
    var e := EventFor(s, lease, outcome, d);
    if e.Some? then RevisionDelta(s.records[d], Apply(w.config, s.records[d], e.value), e.value) else 0
  }

  predicate Genuine(s: Registry, lease: HealthLease) {
    lease.token in s.active && s.active[lease.token] == lease
  }

  function Settle(w: World, s: Registry, lease: HealthLease, outcome: AttemptOutcome): Registry {
    var popped := s.(active := s.active - {lease.token});
    if !Genuine(s, lease) then popped
    else popped.(
      records := map d | d in s.records :: Evolved(w, s, lease, outcome, d),
      revision := s.revision + Advance(w, s, lease, outcome, ProviderOf(lease))
                             + Advance(w, s, lease, outcome, TargetOf(lease)))
  }

  // --------------------------------------------------------------------- runs

  datatype Op =
    | AcquireOp(target: ModelTarget, now: Time)
    | RecordOp(lease: HealthLease, outcome: AttemptOutcome)

  function Step(w: World, s: Registry, op: Op): Registry
    requires w.Domains() <= s.records.Keys
    ensures Step(w, s, op).records.Keys == s.records.Keys
  {
    match op
    case AcquireOp(target, now) => Acquire(w, s, target, now)
    case RecordOp(lease, outcome) => Settle(w, s, lease, outcome)
  }

  /** The state after a run: any interleaving of calls, with any arguments and times. */
  function Run(w: World, s: Registry, ops: seq<Op>): (s': Registry)
    requires w.Domains() <= s.records.Keys
    ensures s'.records.Keys == s.records.Keys
    decreases |ops|
  {
    if ops == [] then s else Step(w, Run(w, s, ops[..|ops| - 1]), ops[|ops| - 1])
  }

  lemma {:induction false} RunConcat(w: World, s: Registry, xs: seq<Op>, ys: seq<Op>)
    requires w.Domains() <= s.records.Keys
    ensures Run(w, s, xs + ys) == Run(w, Run(w, s, xs), ys)
    decreases |ys|
  {
    if ys == [] {
      assert xs + ys == xs;
    } else {
      assert (xs + ys)[..|xs + ys| - 1] == xs + ys[..|ys| - 1];
      RunConcat(w, s, xs, ys[..|ys| - 1]);
    }
  }

  // ----------------------------------------------------------------- snapshot

  function RetryAt(r: Record, now: Time): Option<Time> {
    if r.state == Cooldown && r.cooldownUntil.Some? && r.cooldownUntil.value > now then r.cooldownUntil else None
  }

  function Availability(s: Registry, target: ModelTarget, now: Time): TargetAvailability
    requires ProviderDomain(target.provider) in s.records && TargetDomain(target.alias) in s.records
  {
    var p := s.records[ProviderDomain(target.provider)];
    var t := s.records[TargetDomain(target.alias)];
    var ps, ts := Effective(p, now), Effective(t, now);
    if ps == Blocked then
      TargetAvailability(false, ps, ReasonProviderBlocked, None, None, None)
    else if ps == Cooldown || (ps == HalfOpen && p.token.Some?) then
      TargetAvailability(false, ps, ReasonProviderCooldown, RetryAt(p, now), None, None)
    else if ts == Blocked then
      TargetAvailability(false, ts, ReasonTargetBlocked, None, None, None)
    else if ts == Cooldown || (ts == HalfOpen && t.token.Some?) then
      TargetAvailability(false, ts, ReasonTargetCooldown, RetryAt(t, now), None, None)
    else if ps == HalfOpen then
      TargetAvailability(true, HalfOpen, ReasonProbeEligible, None, Some(ProviderScope), Some(target.provider))
    else if ts == HalfOpen then
      TargetAvailability(true, HalfOpen, ReasonProbeEligible, None, Some(TargetScope), Some(target.alias))
    else
      TargetAvailability(true, Healthy, ReasonHealthy, None, None, None)
  }

  /** The recovery times a snapshot advertises. */
  ghost predicate Advertised(states: map<string, TargetAvailability>, at: Time) {
    exists a :: a in states && states[a].retryAt == Some(at)
  }

  ghost predicate EarliestOf(states: map<string, TargetAvailability>, earliest: Option<Time>) {
    && (earliest.Some? ==> Advertised(states, earliest.value))
    && (forall a | a in states && states[a].retryAt.Some? ::
          earliest.Some? && earliest.value <= states[a].retryAt.value)
  }

  /** snap is the immutable view of s at the given time. */
  ghost predicate IsSnapshot(w: World, s: Registry, now: Time, snap: AvailabilitySnapshot)
    requires w.Domains() <= s.records.Keys && w.Valid()
  {
    && snap.revision == s.revision
    && snap.observedAt == now
    && snap.targetStates.Keys == w.catalog.Keys
    && (forall a | a in w.catalog :: snap.targetStates[a] == Availability(s, w.catalog[a], now))
    && EarliestOf(snap.targetStates, snap.earliestRecoveryAt)
  }
}
