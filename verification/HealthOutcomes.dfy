/**
 What every call on the coordinator does to a domain, told by the domain's
 fields before and after it, in every reachable state.
 */
module HealthOutcomes {
  import opened Prelude
  import opened Domain
  import opened HealthModels
  import opened HealthMachine
  import opened HealthSafety
  import opened HealthTheorems

  // ---------------------------------------------------------------- states before and after

  /** An outcome of an active lease, for a domain that is still in the lease's generation. */
  predicate Settles(s: Registry, op: Op, d: DomainKey) {
    op.RecordOp? && Genuine(s, op.lease) && Current(s, op.lease, d)
  }

  predicate TransientClass(failureClass: FailureClass, d: DomainKey) {
    if d.ProviderDomain? then failureClass in {ProviderTransient, PostCommitStreamFailure}
    else failureClass == TargetTransient
  }

  predicate PermanentClass(failureClass: FailureClass, d: DomainKey) {
    if d.ProviderDomain? then failureClass == ProviderPermanent else failureClass == TargetPermanent
  }

  /** The class counts against the lease's other domain, and that one is still current. */
  predicate ChargedElsewhere(s: Registry, op: Op, d: DomainKey)
    requires op.RecordOp?
  {
    exists other | other in {ProviderOf(op.lease), TargetOf(op.lease)} ::
      && other != d && Current(s, op.lease, other)
      && (TransientClass(op.outcome.failureClass, other) || PermanentClass(op.outcome.failureClass, other))
  }

  /** The state before and after one more call. */
  ghost predicate Moves(w: World, ops: seq<Op>, op: Op, d: DomainKey, r: Record, r': Record)
    requires w.Valid()
  {
    d in w.Domains() && r == From(w, ops).records[d] && r' == From(w, ops + [op]).records[d]
  }

  lemma FromNext(w: World, ops: seq<Op>, op: Op)
    requires w.Valid()
    ensures From(w, ops + [op]) == Step(w, From(w, ops), op)
  {
    assert (ops + [op])[..|ops|] == ops;
  }

  lemma Follows(w: World, ops: seq<Op>, op: Op, d: DomainKey, r: Record, r': Record)
    requires w.Valid() && Moves(w, ops, op, d, r, r') && op.RecordOp?
    ensures var s := From(w, ops);
      r' == if Genuine(s, op.lease) && EventFor(s, op.lease, op.outcome, d).Some?
            then Apply(w.config, r, EventFor(s, op.lease, op.outcome, d).value) else r
  {
    FromNext(w, ops, op);
    hide EventFor, Apply, From;
  }

  lemma ChargedEvent(s: Registry, lease: HealthLease, outcome: AttemptOutcome, d: DomainKey)
    requires Current(s, lease, d)
    ensures outcome.failureClass == Success ==> EventFor(s, lease, outcome, d) == Some(Succeeded)
    ensures PermanentClass(outcome.failureClass, d) ==> EventFor(s, lease, outcome, d) == Some(FailedPermanently)
    ensures TransientClass(outcome.failureClass, d) ==>
      EventFor(s, lease, outcome, d) == Some(FailedTransiently(outcome.observedAt, outcome.retryAfter, lease.token))
  {}

  lemma UnchargedEvent(s: Registry, lease: HealthLease, outcome: AttemptOutcome, d: DomainKey)
    requires Current(s, lease, d) && outcome.failureClass != Success
    requires !TransientClass(outcome.failureClass, d) && !PermanentClass(outcome.failureClass, d)
    ensures EventFor(s, lease, outcome, d) ==
      if ChargedElsewhere(s, RecordOp(lease, outcome), d) then None else Some(Released(lease.token))
  {
    if Charges(s, lease, outcome.failureClass) {
      assert ChargedDomain(lease, outcome.failureClass).value in {ProviderOf(lease), TargetOf(lease)};
    }
  }

  lemma SettledIsUnblocked(w: World, ops: seq<Op>, op: Op, d: DomainKey)
    requires w.Valid() && Settles(From(w, ops), op, d)
    ensures d in From(w, ops).records && From(w, ops).records[d].state != Blocked
  {
    ReachableInv(w, ops);
    assert ActiveOk(w, From(w, ops), op.lease.token);
  }

  lemma OnlyPermanentBlocks(c: HealthConfig, r: Record, e: DomainEvent)
    requires r.state != Blocked
    ensures Apply(c, r, e).state == Blocked <==> e == FailedPermanently
  {}

  /** An outcome blocks a domain only by a permanent failure charged to it. */
  lemma BlockedOnlyByPermanent(w: World, ops: seq<Op>, op: Op, d: DomainKey, r: Record, r': Record)
    requires w.Valid() && Moves(w, ops, op, d, r, r') && Settles(From(w, ops), op, d)
    ensures r'.state == Blocked <==> PermanentClass(op.outcome.failureClass, d)
  {
    SettledIsUnblocked(w, ops, op, d);
    Follows(w, ops, op, d, r, r');
    ChargedEvent(From(w, ops), op.lease, op.outcome, d);
    hide From, EventFor, Current, Genuine, Apply, TransientClass, ChargedElsewhere;
    if !TransientClass(op.outcome.failureClass, d) && !PermanentClass(op.outcome.failureClass, d)
       && op.outcome.failureClass != Success {
      UnchargedEvent(From(w, ops), op.lease, op.outcome, d);
    }
    forall e | EventFor(From(w, ops), op.lease, op.outcome, d) == Some(e)
      ensures Apply(w.config, r, e).state == Blocked <==> e == FailedPermanently
    {
      OnlyPermanentBlocks(w.config, r, e);
    }
  }

  // -------------------------------------------------------------------------- the table

  /** A success closes the circuit of each domain it still speaks for. */
  lemma SuccessCloses(w: World, ops: seq<Op>, op: Op, d: DomainKey, r: Record, r': Record)
    requires w.Valid() && Moves(w, ops, op, d, r, r')
    requires Settles(From(w, ops), op, d) && op.outcome.failureClass == Success
    ensures r'.state == Healthy && r'.failures == 0 && r'.backoff == 0
    ensures r'.windowStart == None && r'.cooldownUntil == None && r'.token == None
  {
    Follows(w, ops, op, d, r, r');
    ChargedEvent(From(w, ops), op.lease, op.outcome, d);
    hide From, EventFor, Current, Genuine;
  }

  lemma BlocksCircuit(c: HealthConfig, r: Record)
    ensures var r' := Apply(c, r, FailedPermanently);
      && r'.state == Blocked && r'.failures == 0 && r'.backoff == r.backoff
      && r'.windowStart == None && r'.cooldownUntil == None && r'.token == None
  {}

  /** A permanent failure blocks the domain it is charged to. */
  lemma PermanentFailureBlocks(w: World, ops: seq<Op>, op: Op, d: DomainKey, r: Record, r': Record)
    requires w.Valid() && Moves(w, ops, op, d, r, r')
    requires Settles(From(w, ops), op, d) && PermanentClass(op.outcome.failureClass, d)
    ensures r'.state == Blocked && r'.failures == 0 && r'.backoff == r.backoff
    ensures r'.windowStart == None && r'.cooldownUntil == None && r'.token == None
  {
    Follows(w, ops, op, d, r, r');
    ChargedEvent(From(w, ops), op.lease, op.outcome, d);
    BlocksCircuit(w.config, r);
    hide *;
  }

  /** The cooldown at one backoff level: exponential, or as long as the Provider asked for
      if that is longer, and never beyond the maximum. */
  ghost predicate CooldownLasts(c: HealthConfig, level: nat, retryAfter: Option<real>, seconds: real) {
    var exponential := c.cooldown * Power(c.backoffMultiplier, level);
    var wanted := if retryAfter.Some? && retryAfter.value > exponential then retryAfter.value else exponential;
    seconds == if wanted > c.maxCooldown then c.maxCooldown else wanted
  }

  /** How many failures the window holds with one at this time, the first of which opens it. */
  predicate Counted(c: HealthConfig, r: Record, at: Time, failures: nat, windowStart: Time) {
    if r.windowStart.Some? && at <= r.windowStart.value + c.failureWindow
    then failures == r.failures + 1 && windowStart == r.windowStart.value
    else failures == 1 && windowStart == at
  }

  lemma CooldownIsLasting(c: HealthConfig, level: nat, retryAfter: Option<real>)
    requires c.Valid()
    ensures CooldownLasts(c, level, retryAfter, CooldownSeconds(c, level, retryAfter))
  {
    ExponentialAtLeastCooldown(c, level);
  }

  lemma OpensCircuit(c: HealthConfig, r: Record, outcome: AttemptOutcome, token: nat, failures: nat, windowStart: Time)
    requires Counted(c, r, outcome.observedAt, failures, windowStart)
    requires (r.state == HalfOpen && r.token == Some(token)) || failures >= c.failureThreshold
    ensures var r' := Apply(c, r, FailedTransiently(outcome.observedAt, outcome.retryAfter, token));
      && r'.state == Cooldown && r'.failures == 0 && r'.windowStart == None && r'.token == None
      && r'.backoff == r.backoff + 1
      && r'.cooldownUntil == Some(outcome.observedAt + CooldownSeconds(c, r.backoff, outcome.retryAfter))
  {
    hide CooldownSeconds;
  }

  lemma CountsFailure(c: HealthConfig, r: Record, outcome: AttemptOutcome, token: nat, failures: nat, windowStart: Time)
    requires Counted(c, r, outcome.observedAt, failures, windowStart)
    requires !(r.state == HalfOpen && r.token == Some(token)) && failures < c.failureThreshold
    ensures Apply(c, r, FailedTransiently(outcome.observedAt, outcome.retryAfter, token))
      == r.(failures := failures, windowStart := Some(windowStart), token := None)
  {}

  /** A transient failure opens the circuit of the domain it is charged to, if it is that
      domain's own probe or fills the window: it cools down until a time fixed by its
      backoff level and the Provider's wish, and its window starts anew. */
  lemma TransientFailureOpens(w: World, ops: seq<Op>, op: Op, d: DomainKey, r: Record, r': Record, failures: nat,
                              windowStart: Time)
    requires w.Valid() && Moves(w, ops, op, d, r, r')
    requires Settles(From(w, ops), op, d) && TransientClass(op.outcome.failureClass, d)
    requires Counted(w.config, r, op.outcome.observedAt, failures, windowStart)
    requires (r.state == HalfOpen && r.token == Some(op.lease.token)) || failures >= w.config.failureThreshold
    ensures r'.state == Cooldown && r'.failures == 0 && r'.windowStart == None && r'.token == None
    ensures r'.backoff == r.backoff + 1 && r'.cooldownUntil.Some?
    ensures CooldownLasts(w.config, r.backoff, op.outcome.retryAfter, r'.cooldownUntil.value - op.outcome.observedAt)
  {
    Follows(w, ops, op, d, r, r');
    ChargedEvent(From(w, ops), op.lease, op.outcome, d);
    hide From, EventFor, Current, Genuine;
    CooldownIsLasting(w.config, r.backoff, op.outcome.retryAfter);
    OpensCircuit(w.config, r, op.outcome, op.lease.token, failures, windowStart);
    hide *;
  }

  /** Any other transient failure is counted against the domain it is charged to, and
      changes nothing else there. */
  lemma TransientFailureCounts(w: World, ops: seq<Op>, op: Op, d: DomainKey, r: Record, r': Record, failures: nat,
                               windowStart: Time)
    requires w.Valid() && Moves(w, ops, op, d, r, r')
    requires Settles(From(w, ops), op, d) && TransientClass(op.outcome.failureClass, d)
    requires Counted(w.config, r, op.outcome.observedAt, failures, windowStart)
    requires !(r.state == HalfOpen && r.token == Some(op.lease.token)) && failures < w.config.failureThreshold
    ensures r' == r.(failures := failures, windowStart := Some(windowStart), token := None)
  {
    Follows(w, ops, op, d, r, r');
    ChargedEvent(From(w, ops), op.lease, op.outcome, d);
    hide From, EventFor, Current, Genuine;
    CountsFailure(w.config, r, op.outcome, op.lease.token, failures, windowStart);
    hide *;
  }

  /** Every other outcome gives back the token that its lease holds on the domain, unless it
      was charged to the lease's other domain, and changes nothing else there. */
  lemma NeutralOutcomeReleases(w: World, ops: seq<Op>, op: Op, d: DomainKey, r: Record, r': Record)
    requires w.Valid() && Moves(w, ops, op, d, r, r') && Settles(From(w, ops), op, d)
    requires op.outcome.failureClass != Success
    requires !TransientClass(op.outcome.failureClass, d) && !PermanentClass(op.outcome.failureClass, d)
    ensures r' ==
      if r.token == Some(op.lease.token) && !ChargedElsewhere(From(w, ops), op, d) then r.(token := None) else r
  {
    Follows(w, ops, op, d, r, r');
    UnchargedEvent(From(w, ops), op.lease, op.outcome, d);
    hide From, EventFor, Current, ChargedElsewhere;
  }

  /** An outcome that does not settle a domain leaves it alone. */
  lemma UnsettledStays(w: World, ops: seq<Op>, op: Op, d: DomainKey, r: Record, r': Record)
    requires w.Valid() && Moves(w, ops, op, d, r, r')
    requires op.RecordOp? && !Settles(From(w, ops), op, d)
    ensures r' == r
  {
    Follows(w, ops, op, d, r, r');
    hide From;
  }

  // ------------------------------------------------------------------------- admission

  /** A domain lets calls through: it is healthy, or waits for a probe that nobody makes yet. */
  predicate LetsThrough(r: Record, now: Time) {
    || r.state == Healthy
    || (r.state == HalfOpen && r.token == None)
    || (r.state == Cooldown && r.cooldownUntil.Some? && r.cooldownUntil.value <= now && r.token == None)
  }

  /** A call let through by this domain would be its probe. */
  predicate WantsProbe(r: Record, now: Time) {
    r.state != Healthy && LetsThrough(r, now)
  }

  /** A call gets a lease exactly when its target is configured and both domains let it
      through. It is a probe exactly when one of them wants one, the Provider first; that
      domain then is half-open under the lease's token, and nothing else changes. The lease
      carries the time asked for, the revision and both generations after that. */
  lemma AcquireExactly(w: World, ops: seq<Op>, target: ModelTarget, now: Time)
    requires w.Valid()
    ensures var s, s' := From(w, ops), From(w, ops + [AcquireOp(target, now)]);
      var p, t := ProviderDomain(target.provider), TargetDomain(target.alias);
      var granted := GrantedLease(w, s, target, now);
      && (w.Knows(target) ==> p in s.records && t in s.records && p in s'.records && t in s'.records)
      && (granted.Some? <==> w.Knows(target) && LetsThrough(s.records[p], now) && LetsThrough(s.records[t], now))
      && (granted.None? ==> s' == s)
      && (granted.Some? ==>
            var lease := granted.value;
            && lease.provider == target.provider && lease.targetAlias == target.alias && lease.acquiredAt == now
            && lease.snapshotRevision == s'.revision
            && lease.providerGeneration == s'.records[p].generation
            && lease.targetGeneration == s'.records[t].generation
            && s'.active == s.active[lease.token := lease]
            && (lease.probe <==> WantsProbe(s.records[p], now) || WantsProbe(s.records[t], now))
            && s'.records == (
                 if WantsProbe(s.records[p], now) then s.records[p := AsProbed(s.records[p], lease.token)]
                 else if WantsProbe(s.records[t], now) then s.records[t := AsProbed(s.records[t], lease.token)]
                 else s.records))
  {
    FromNext(w, ops, AcquireOp(target, now));
    ReachableInv(w, ops);
    if w.Knows(target) {
      var p, t := ProviderDomain(target.provider), TargetDomain(target.alias);
      assert p in w.Domains() && t in w.Domains();
      AcquireInState(w, From(w, ops), target, now);
    }
    hide From, Inv, Grant, Admits, LetsThrough, WantsProbe, AsProbed;
  }

  /** A record under a fresh probe. */
  function AsProbed(r: Record, token: nat): Record {
    r.(state := HalfOpen, token := Some(token), cooldownUntil := None,
       generation := if r.state == HalfOpen then r.generation else r.generation + 1)
  }

  lemma RecordAdmits(w: World, s: Registry, r: Record, now: Time)
    requires RecordOk(w, s, r)
    ensures Admits(r, now) <==> LetsThrough(r, now)
    ensures Effective(r, now) == HalfOpen && Admits(r, now) <==> WantsProbe(r, now)
  {}

  lemma AcquireInState(w: World, s: Registry, target: ModelTarget, now: Time)
    requires Inv(w, s) && w.Knows(target)
    requires ProviderDomain(target.provider) in s.records && TargetDomain(target.alias) in s.records
    ensures var s' := Acquire(w, s, target, now);
      var p, t := ProviderDomain(target.provider), TargetDomain(target.alias);
      var granted := GrantedLease(w, s, target, now);
      && (granted.Some? <==> LetsThrough(s.records[p], now) && LetsThrough(s.records[t], now))
      && (granted.None? ==> s' == s)
      && (granted.Some? ==>
            var lease := granted.value;
            && s'.records.Keys == s.records.Keys
            && lease.provider == target.provider && lease.targetAlias == target.alias && lease.acquiredAt == now
            && lease.snapshotRevision == s'.revision
            && lease.providerGeneration == s'.records[p].generation
            && lease.targetGeneration == s'.records[t].generation
            && s'.active == s.active[lease.token := lease]
            && (lease.probe <==> WantsProbe(s.records[p], now) || WantsProbe(s.records[t], now))
            && s'.records == (
                 if WantsProbe(s.records[p], now) then s.records[p := AsProbed(s.records[p], lease.token)]
                 else if WantsProbe(s.records[t], now) then s.records[t := AsProbed(s.records[t], lease.token)]
                 else s.records))
  {
    var p, t := ProviderDomain(target.provider), TargetDomain(target.alias);
    RecordAdmits(w, s, s.records[p], now);
    RecordAdmits(w, s, s.records[t], now);
    hide Inv, LetsThrough, WantsProbe, Effective, Admits;
  }

  // --------------------------------------------------------------------- a closed circuit

  /** A failure is charged to d by a lease of its generation. */
  predicate FailureHits(s: Registry, op: Op, d: DomainKey) {
    && Settles(s, op, d)
    && (TransientClass(op.outcome.failureClass, d) || PermanentClass(op.outcome.failureClass, d))
  }

  lemma HealthyStays(w: World, s: Registry, op: Op, d: DomainKey)
    requires w.Domains() <= s.records.Keys && d in s.records && s.records[d].state == Healthy && !FailureHits(s, op, d)
    ensures Step(w, s, op).records[d].state == Healthy
  {}

  ghost predicate IsHealthy(w: World, ops: seq<Op>, d: DomainKey)
    requires w.Valid() && d in w.Domains()
  {
    From(w, ops).records[d].state == Healthy
  }

  /** Of these calls, made after those, none charges a failure to d. */
  ghost predicate SparesDomain(w: World, ops: seq<Op>, more: seq<Op>, d: DomainKey)
    requires w.Valid()
  {
    forall k | 0 <= k < |more| :: !FailureHits(From(w, ops + more[..k]), more[k], d)
  }

  lemma SparedStep(w: World, ops: seq<Op>, more: seq<Op>, d: DomainKey)
    requires w.Valid() && more != [] && SparesDomain(w, ops, more, d)
    ensures var init := more[..|more| - 1];
      SparesDomain(w, ops, init, d) && !FailureHits(From(w, ops + init), more[|more| - 1], d)
  {
    hide FailureHits, From;
    var init := more[..|more| - 1];
    assert forall k | 0 <= k < |init| :: init[..k] == more[..k] && init[k] == more[k];
  }

  lemma HealthyNext(w: World, ops: seq<Op>, op: Op, d: DomainKey)
    requires w.Valid() && d in w.Domains() && IsHealthy(w, ops, d) && !FailureHits(From(w, ops), op, d)
    ensures IsHealthy(w, ops + [op], d)
  {
    FromNext(w, ops, op);
    HealthyStays(w, From(w, ops), op, d);
  }

  lemma {:induction false} HealthyStaysOverRuns(w: World, ops: seq<Op>, more: seq<Op>, d: DomainKey)
    requires w.Valid() && d in w.Domains() && IsHealthy(w, ops, d) && SparesDomain(w, ops, more, d)
    ensures IsHealthy(w, ops + more, d)
    decreases |more|
  {
    hide FailureHits, From, IsHealthy, SparesDomain;
    if more == [] {
      assert ops + more == ops;
    } else {
      var init, last := more[..|more| - 1], more[|more| - 1];
      SparedStep(w, ops, more, d);
      HealthyStaysOverRuns(w, ops, init, d);
      HealthyNext(w, ops + init, last, d);
      assert ops + more == ops + init + [last];
    }
  }

  /** A success in both its domains ends every restriction: from then on, until a failure is
      charged to one of them, every call for that target is granted, and as no probe. */
  lemma SuccessReopens(w: World, ops: seq<Op>, op: Op, more: seq<Op>, target: ModelTarget, now: Time)
    requires w.Valid() && w.Knows(target)
    requires op.RecordOp? && op.outcome.failureClass == Success
    requires op.lease.provider == target.provider && op.lease.targetAlias == target.alias
    requires Settles(From(w, ops), op, ProviderOf(op.lease)) && Settles(From(w, ops), op, TargetOf(op.lease))
    requires SparesDomain(w, ops + [op], more, ProviderOf(op.lease))
    requires SparesDomain(w, ops + [op], more, TargetOf(op.lease))
    ensures var granted := GrantedLease(w, From(w, ops + [op] + more), target, now);
      granted.Some? && !granted.value.probe
  {
    var p, t := ProviderOf(op.lease), TargetOf(op.lease);
    forall d | d in {p, t}
      ensures d in w.Domains() && IsHealthy(w, ops + [op] + more, d)
    {
      assert d in w.Domains();
      SuccessCloses(w, ops, op, d, From(w, ops).records[d], From(w, ops + [op]).records[d]);
      HealthyStaysOverRuns(w, ops + [op], more, d);
    }
    AcquireExactly(w, ops + [op] + more, target, now);
    hide From, GrantedLease, FailureHits, AsProbed, SparesDomain;
  }

  // -------------------------------------------------------------------------- the revision

  /** What a call changed of a domain that lease holders and snapshots can tell. */
  predicate Visible(r: Record, r': Record) {
    r'.generation != r.generation || r'.token != r.token
  }

  lemma VisibleEvent(w: World, s: Registry, r: Record, e: DomainEvent)
    requires w.config.Valid() && RecordOk(w, s, r) && r.state != Blocked
    requires e.FailedTransiently? ==> r.token in {None, Some(e.token)}
    requires e.ProbeAdmitted? ==> r.state != Healthy && r.token == None
    ensures RevisionDelta(r, Apply(w.config, r, e), e) == if Visible(r, Apply(w.config, r, e)) then 1 else 0
    ensures Apply(w.config, r, e).generation - r.generation in {0, 1}
    ensures Apply(w.config, r, e).state != r.state ==> Apply(w.config, r, e).generation == r.generation + 1
  {}

  /** The two domains that a call may change. */
  function DomainsOf(op: Op): (DomainKey, DomainKey) {
    match op
    case AcquireOp(target, _) => (ProviderDomain(target.provider), TargetDomain(target.alias))
    case RecordOp(lease, _) => (ProviderOf(lease), TargetOf(lease))
  }

  function Shown(s: Registry, s': Registry, d: DomainKey): nat {
    if d in s.records && d in s'.records && Visible(s.records[d], s'.records[d]) then 1 else 0
  }

  lemma SettledShows(w: World, s: Registry, lease: HealthLease, outcome: AttemptOutcome, d: DomainKey)
    requires Inv(w, s) && Genuine(s, lease) && Covers(lease, d)
    ensures Advance(w, s, lease, outcome, d) == Shown(s, Settle(w, s, lease, outcome), d)
  {
    assert ActiveOk(w, s, lease.token);
    var e := EventFor(s, lease, outcome, d);
    if e.Some? {
      assert RecordOk(w, s, s.records[d]);
      hide Apply, RevisionDelta, Inv;
      VisibleEvent(w, s, s.records[d], e.value);
    } else if d in s.records {
      assert Evolved(w, s, lease, outcome, d) == s.records[d];
    }
  }

  /** The revision advances by one for each domain that the call changed visibly: in its
      generation, which counts its changes of state, or in its token. */
  lemma RevisionCountsChanges(w: World, ops: seq<Op>, op: Op)
    requires w.Valid()
    ensures var s, s' := From(w, ops), From(w, ops + [op]);
      && s'.revision == s.revision + Shown(s, s', DomainsOf(op).0) + Shown(s, s', DomainsOf(op).1)
      && s'.records.Keys == s.records.Keys
      && (forall d | d in s.records && d !in {DomainsOf(op).0, DomainsOf(op).1} :: s'.records[d] == s.records[d])
  {
    FromNext(w, ops, op);
    ReachableInv(w, ops);
    var s := From(w, ops);
    match op
    case AcquireOp(target, now) =>
      AcquireShows(w, s, target, now);
      hide Inv, Acquire, From, Shown;
    case RecordOp(lease, outcome) =>
      SettleShows(w, s, lease, outcome);
      hide Inv, Settle, From, Shown;
  }

  lemma SettleShows(w: World, s: Registry, lease: HealthLease, outcome: AttemptOutcome)
    requires Inv(w, s)
    ensures var s' := Settle(w, s, lease, outcome);
      && s'.revision == s.revision + Shown(s, s', ProviderOf(lease)) + Shown(s, s', TargetOf(lease))
      && s'.records.Keys == s.records.Keys
      && (forall d | d in s.records && d !in {ProviderOf(lease), TargetOf(lease)} :: s'.records[d] == s.records[d])
  {
    if Genuine(s, lease) {
      SettledShows(w, s, lease, outcome, ProviderOf(lease));
      SettledShows(w, s, lease, outcome, TargetOf(lease));
      hide Inv, Shown, Advance, Apply;
    }
  }

  lemma AcquireShows(w: World, s: Registry, target: ModelTarget, now: Time)
    requires Inv(w, s)
    ensures var s' := Acquire(w, s, target, now);
      var p, t := ProviderDomain(target.provider), TargetDomain(target.alias);
      && s'.revision == s.revision + Shown(s, s', p) + Shown(s, s', t)
      && (forall d | d in s.records && d !in {p, t} :: s'.records[d] == s.records[d])
  {}

  // ------------------------------------------------------------------------ availability

  /** Why a domain refuses calls for now: it cools down, or its probe is under way. */
  predicate Refuses(r: Record, now: Time) {
    r.state != Blocked && !LetsThrough(r, now)
  }

  /** When it will not, if that is known: at the end of a cooldown that is still running. */
  predicate RecoversAt(r: Record, now: Time, at: Option<Time>) {
    at == if r.state == Cooldown && r.cooldownUntil.Some? && r.cooldownUntil.value > now then r.cooldownUntil else None
  }

  /** What a snapshot says of a target, reason by reason: the Provider comes before the
      target, blocked before refused; an eligible target is a probe of the domain that
      wants one, the Provider first. */
  ghost predicate Describes(a: TargetAvailability, p: Record, t: Record, now: Time) {
    && (a.reason == ReasonProviderBlocked <==> p.state == Blocked)
    && (a.reason == ReasonProviderCooldown <==> Refuses(p, now))
    && (a.reason == ReasonTargetBlocked <==> LetsThrough(p, now) && t.state == Blocked)
    && (a.reason == ReasonTargetCooldown <==> LetsThrough(p, now) && Refuses(t, now))
    && (a.reason == ReasonProbeEligible <==>
          LetsThrough(p, now) && LetsThrough(t, now) && (WantsProbe(p, now) || WantsProbe(t, now)))
    && (a.reason == ReasonHealthy <==> p.state == Healthy && t.state == Healthy)
    && (a.eligible <==> a.reason in {ReasonProbeEligible, ReasonHealthy})
  }

  /** The state that goes with the reason, when the refusal will end, and the probe offered. */
  ghost predicate Details(a: TargetAvailability, target: ModelTarget, p: Record, t: Record, now: Time) {
    && (a.state == Blocked <==> a.reason in {ReasonProviderBlocked, ReasonTargetBlocked})
    && (a.state == Healthy <==> a.reason == ReasonHealthy)
    && (a.state == Cooldown <==> a.retryAt.Some?)
    && (if a.reason == ReasonProviderCooldown then RecoversAt(p, now, a.retryAt)
        else if a.reason == ReasonTargetCooldown then RecoversAt(t, now, a.retryAt)
        else a.retryAt == None)
    && (if a.reason != ReasonProbeEligible then a.probeScope == None && a.probeKey == None
        else if WantsProbe(p, now) then a.probeScope == Some(ProviderScope) && a.probeKey == Some(target.provider)
        else a.probeScope == Some(TargetScope) && a.probeKey == Some(target.alias))
  }

  lemma AvailabilityDescribes(w: World, s: Registry, target: ModelTarget, now: Time)
    requires ProviderDomain(target.provider) in s.records && TargetDomain(target.alias) in s.records
    requires RecordOk(w, s, s.records[ProviderDomain(target.provider)])
    requires RecordOk(w, s, s.records[TargetDomain(target.alias)])
    ensures var p, t := s.records[ProviderDomain(target.provider)], s.records[TargetDomain(target.alias)];
      Describes(Availability(s, target, now), p, t, now)
  {}

  lemma AvailabilityDetails(w: World, s: Registry, target: ModelTarget, now: Time)
    requires ProviderDomain(target.provider) in s.records && TargetDomain(target.alias) in s.records
    requires RecordOk(w, s, s.records[ProviderDomain(target.provider)])
    requires RecordOk(w, s, s.records[TargetDomain(target.alias)])
    ensures var p, t := s.records[ProviderDomain(target.provider)], s.records[TargetDomain(target.alias)];
      Details(Availability(s, target, now), target, p, t, now)
  {}

  lemma AvailabilityExactly(w: World, ops: seq<Op>, now: Time, snap: AvailabilitySnapshot, alias: string)
    requires w.Valid() && alias in w.catalog && IsSnapshot(w, From(w, ops), now, snap)
    ensures ProviderDomain(w.catalog[alias].provider) in w.Domains() && TargetDomain(alias) in w.Domains()
    ensures var s, target := From(w, ops), w.catalog[alias];
      var p, t := s.records[ProviderDomain(target.provider)], s.records[TargetDomain(alias)];
      && Describes(snap.targetStates[alias], p, t, now)
      && Details(snap.targetStates[alias], target, p, t, now)
  {
    var s := From(w, ops);
    var p, t := ProviderDomain(w.catalog[alias].provider), TargetDomain(alias);
    assert p in w.Domains() && t in w.Domains();
    ReachableInv(w, ops);
    assert RecordOk(w, s, s.records[p]) && RecordOk(w, s, s.records[t]);
    hide Inv, From, Availability, Describes, Details, RecordOk;
    AvailabilityDescribes(w, s, w.catalog[alias], now);
    AvailabilityDetails(w, s, w.catalog[alias], now);
  }
}
