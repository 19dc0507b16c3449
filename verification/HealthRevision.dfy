/** What the revision of a snapshot stands for. */
module HealthRevision {
  import opened Prelude
  import opened Domain
  import opened HealthModels
  import opened HealthMachine
  import opened HealthSafety
  import opened HealthTheorems

  // ------------------------------------------------------------------- one domain

  /** A charged transient failure that is counted and starts no cooldown. */
  predicate LeftCounted(c: HealthConfig, r: Record, at: Time, token: nat) {
    && !(r.state == HalfOpen && r.token == Some(token))
    && CountFailure(c, r, at).failures < c.failureThreshold
  }

  /** The one kind of event that changes a record and leaves the revision alone. */
  lemma QuietEvent(c: HealthConfig, r: Record, e: DomainEvent)
    requires c.Valid() && !e.ProbeAdmitted? && r.state != Blocked
    requires (r.cooldownUntil.Some? <==> r.state == Cooldown) && (r.token.Some? ==> r.state == HalfOpen)
    ensures Apply(c, r, e) != r && RevisionDelta(r, Apply(c, r, e), e) == 0 <==>
      e.FailedTransiently? && (r.state == Cooldown || LeftCounted(c, r, e.at, e.token))
    ensures Apply(c, r, e).state != r.state ==> RevisionDelta(r, Apply(c, r, e), e) > 0
  {}

  // --------------------------------------------------------------------- one call

  /** A transient failure is charged to d, and d still is in the generation of the lease. */
  predicate ChargesTransiently(s: Registry, op: Op, d: DomainKey) {
    && op.RecordOp? && Genuine(s, op.lease) && Current(s, op.lease, d)
    && op.outcome.failureClass in {ProviderTransient, TargetTransient, PostCommitStreamFailure}
    && ChargedDomain(op.lease, op.outcome.failureClass) == Some(d)
  }

  /** Read off the state before the call: the failure is left counted, or falls on a domain already in cooldown. */
  predicate ChargesQuietly(w: World, s: Registry, op: Op, d: DomainKey) {
    && ChargesTransiently(s, op, d)
    && (s.records[d].state == Cooldown || LeftCounted(w.config, s.records[d], op.outcome.observedAt, op.lease.token))
  }

  lemma ChargedRecord(w: World, s: Registry, op: Op, d: DomainKey)
    requires w.Domains() <= s.records.Keys && ChargesTransiently(s, op, d)
    ensures var s' := Step(w, s, op);
      var e := FailedTransiently(op.outcome.observedAt, op.outcome.retryAfter, op.lease.token);
      && s'.records == s.records[d := Apply(w.config, s.records[d], e)]
      && s'.revision == s.revision + RevisionDelta(s.records[d], Apply(w.config, s.records[d], e), e)
      && s'.active == s.active - {op.lease.token}
  {
    hide Apply, RevisionDelta;
  }

  lemma UnchargedRecord(w: World, s: Registry, lease: HealthLease, outcome: AttemptOutcome, d: DomainKey)
    requires d in s.records && Genuine(s, lease) && !ChargesTransiently(s, RecordOp(lease, outcome), d)
    requires w.config.Valid() && RecordOk(w, s, s.records[d])
    requires Current(s, lease, d) ==> s.records[d].state != Blocked
    ensures Settle(w, s, lease, outcome).revision == s.revision ==>
      Settle(w, s, lease, outcome).records[d] == s.records[d]
  {
    var e := EventFor(s, lease, outcome, d);
    if e.Some? {
      QuietEvent(w.config, s.records[d], e.value);
    }
    hide Apply, RevisionDelta;
  }

  lemma LeaseFacts(w: World, s: Registry, lease: HealthLease, d: DomainKey)
    requires Inv(w, s) && Genuine(s, lease) && d in s.records
    ensures RecordOk(w, s, s.records[d])
    ensures Current(s, lease, d) ==> s.records[d].state != Blocked
    ensures Current(s, lease, d) && s.records[d].state == HalfOpen ==> s.records[d].token in {None, Some(lease.token)}
    ensures Current(s, lease, d) && s.records[d].state == Cooldown ==>
      d == TargetOf(lease) && Holds(s, lease, ProviderOf(lease)) && s.records[ProviderOf(lease)].state == HalfOpen
  {
    assert ActiveOk(w, s, lease.token);
    assert RecordOk(w, s, s.records[d]);
    assert RecordOk(w, s, s.records[ProviderOf(lease)]);
  }

  /** A call changes a record and leaves the revision alone exactly when it charges a
      transient failure to that domain that is left counted or falls in its cooldown. */
  lemma QuietChangeExactly(w: World, ops: seq<Op>, op: Op, d: DomainKey)
    requires w.Valid() && d in w.Domains()
    ensures Step(w, From(w, ops), op).records[d] != From(w, ops).records[d]
        && Step(w, From(w, ops), op).revision == From(w, ops).revision
      <==> ChargesQuietly(w, From(w, ops), op, d)
  {
    ReachableInv(w, ops);
    QuietStep(w, From(w, ops), op, d);
  }

  lemma QuietStep(w: World, s: Registry, op: Op, d: DomainKey)
    requires Inv(w, s) && d in s.records
    ensures Step(w, s, op).records[d] != s.records[d] && Step(w, s, op).revision == s.revision <==>
      ChargesQuietly(w, s, op, d)
  {
    if op.RecordOp? && Genuine(s, op.lease) {
      LeaseFacts(w, s, op.lease, d);
      if ChargesTransiently(s, op, d) {
        ChargedRecord(w, s, op, d);
        QuietEvent(w.config, s.records[d],
          FailedTransiently(op.outcome.observedAt, op.outcome.retryAfter, op.lease.token));
      } else {
        UnchargedRecord(w, s, op.lease, op.outcome, d);
      }
    }
    hide Apply, RevisionDelta, Inv, LeftCounted, Settle, ChargesTransiently, RecordOk;
  }

  lemma QuietRecord(c: HealthConfig, r: Record, at: Time, retryAfter: Option<real>, token: nat)
    requires r.state == Cooldown || LeftCounted(c, r, at, token)
    requires r.token.Some? ==> r.state == HalfOpen && r.token == Some(token)
    ensures var r' := Apply(c, r, FailedTransiently(at, retryAfter, token));
      r'.state == r.state && r'.generation == r.generation && r'.token == r.token
    ensures r.state != Cooldown ==>
      Apply(c, r, FailedTransiently(at, retryAfter, token)).cooldownUntil == r.cooldownUntil
  {}

  /** A quiet change keeps state, generation and token; in a cooldown it settles a probe of
      the target's provider, whose token stays behind. */
  lemma QuietChange(w: World, s: Registry, op: Op, d: DomainKey)
    requires Inv(w, s) && d in s.records && ChargesQuietly(w, s, op, d)
    ensures var r, r' := s.records[d], Step(w, s, op).records[d];
      && r'.state == r.state && r'.generation == r.generation && r'.token == r.token
      && (r.state != Cooldown ==> r'.cooldownUntil == r.cooldownUntil)
    ensures forall x | x in s.records && x != d :: Step(w, s, op).records[x] == s.records[x]
  {
    LeaseFacts(w, s, op.lease, d);
    ChargedRecord(w, s, op, d);
    QuietRecord(w.config, s.records[d], op.outcome.observedAt, op.outcome.retryAfter, op.lease.token);
    hide Apply, Inv, LeftCounted, Step;
  }

  lemma RevisionNeverFalls(w: World, s: Registry, op: Op)
    requires w.Domains() <= s.records.Keys
    ensures Step(w, s, op).revision >= s.revision
  {}

  /** What routing may know of a record: a cooldown's end is hidden behind the probe of its provider. */
  lemma SameAvailability(s: Registry, s': Registry, target: ModelTarget, now: Time)
    requires var p, t := ProviderDomain(target.provider), TargetDomain(target.alias);
      && p in s.records && t in s.records && p in s'.records && t in s'.records
      && s'.records[p].state == s.records[p].state && s'.records[p].token == s.records[p].token
      && s'.records[p].cooldownUntil == s.records[p].cooldownUntil
      && s'.records[t].state == s.records[t].state && s'.records[t].token == s.records[t].token
      && (|| s'.records[t].cooldownUntil == s.records[t].cooldownUntil
          || (s.records[p].state == HalfOpen && s.records[p].token.Some?))
    ensures Availability(s', target, now) == Availability(s, target, now)
  {}

  lemma QuietAvailability(w: World, s: Registry, op: Op, alias: string, now: Time)
    requires Inv(w, s) && alias in w.catalog && Step(w, s, op).revision == s.revision
    ensures ProviderDomain(w.catalog[alias].provider) in s.records && TargetDomain(alias) in s.records
    ensures Availability(Step(w, s, op), w.catalog[alias], now) == Availability(s, w.catalog[alias], now)
  {
    var p, t := ProviderDomain(w.catalog[alias].provider), TargetDomain(alias);
    assert p in w.Domains() && t in w.Domains() && w.catalog[alias].alias == alias;
    QuietStep(w, s, op, p);
    QuietStep(w, s, op, t);
    if ChargesQuietly(w, s, op, p) {
      QuietChange(w, s, op, p);
      LeaseFacts(w, s, op.lease, p);
    }
    if ChargesQuietly(w, s, op, t) {
      QuietChange(w, s, op, t);
      LeaseFacts(w, s, op.lease, t);
      assert ActiveOk(w, s, op.lease.token);
    }
    hide Step, Inv, LeftCounted, ActiveOk;
    SameAvailability(s, Step(w, s, op), w.catalog[alias], now);
  }

  /** A call that leaves the revision alone leaves every domain in its state and
      generation, and every target's availability, at any instant, as it was. */
  lemma RevisionTracksAvailability(w: World, ops: seq<Op>, op: Op)
    requires w.Valid() && Step(w, From(w, ops), op).revision == From(w, ops).revision
    ensures forall d | d in w.Domains() ::
      && Step(w, From(w, ops), op).records[d].state == From(w, ops).records[d].state
      && Step(w, From(w, ops), op).records[d].generation == From(w, ops).records[d].generation
    ensures forall alias, now: Time | alias in w.catalog ::
      Availability(Step(w, From(w, ops), op), w.catalog[alias], now) ==
        Availability(From(w, ops), w.catalog[alias], now)
  {
    ReachableInv(w, ops);
    var s := From(w, ops);
    forall d | d in w.Domains()
      ensures Step(w, s, op).records[d].state == s.records[d].state
      ensures Step(w, s, op).records[d].generation == s.records[d].generation
    {
      QuietStep(w, s, op, d);
      if ChargesQuietly(w, s, op, d) {
        QuietChange(w, s, op, d);
      }
    }
    forall alias, now: Time | alias in w.catalog
      ensures Availability(Step(w, s, op), w.catalog[alias], now) == Availability(s, w.catalog[alias], now)
    {
      QuietAvailability(w, s, op, alias, now);
    }
  }

  // ------------------------------------------------------------------------ whole runs

  lemma FromNext(w: World, ops: seq<Op>, more: seq<Op>)
    requires w.Valid() && more != []
    ensures From(w, ops + more) == Step(w, From(w, ops + more[..|more| - 1]), more[|more| - 1])
  {
    assert (ops + more)[..|ops + more| - 1] == ops + more[..|more| - 1];
  }

  lemma {:induction false} RevisionTracksRuns(w: World, ops: seq<Op>, more: seq<Op>, alias: string, now: Time)
    requires w.Valid() && alias in w.catalog
    ensures From(w, ops + more).revision >= From(w, ops).revision
    ensures ProviderDomain(w.catalog[alias].provider) in w.Domains() && TargetDomain(alias) in w.Domains()
    ensures From(w, ops + more).revision == From(w, ops).revision ==>
      Availability(From(w, ops + more), w.catalog[alias], now) == Availability(From(w, ops), w.catalog[alias], now)
    decreases |more|
  {
    if more == [] {
      assert ops + more == ops;
    } else {
      var init, last := more[..|more| - 1], more[|more| - 1];
      RevisionTracksRuns(w, ops, init, alias, now);
      FromNext(w, ops, more);
      ReachableInv(w, ops + init);
      RevisionNeverFalls(w, From(w, ops + init), last);
      if From(w, ops + more).revision == From(w, ops).revision {
        QuietAvailability(w, From(w, ops + init), last, alias, now);
      }
    }
  }

  /** The revision never falls, and it identifies what routing sees: two snapshots of one
      run with the same revision, taken at the same instant of the clock, are equal,
      however many calls lie between them. */
  lemma EqualRevisionsEqualSnapshots(w: World, ops: seq<Op>, more: seq<Op>, now: Time, snap: AvailabilitySnapshot,
                                     snap': AvailabilitySnapshot)
    requires w.Valid() && IsSnapshot(w, From(w, ops), now, snap) && IsSnapshot(w, From(w, ops + more), now, snap')
    ensures snap'.revision >= snap.revision
    ensures snap'.revision == snap.revision ==> snap' == snap
  {
    RevisionRuns(w, ops, more);
    if snap'.revision == snap.revision {
      forall alias | alias in w.catalog
        ensures snap'.targetStates[alias] == snap.targetStates[alias]
      {
        RevisionTracksRuns(w, ops, more, alias, now);
      }
      assert snap'.targetStates == snap.targetStates;
      EarliestIsUnique(snap.targetStates, snap.earliestRecoveryAt, snap'.earliestRecoveryAt);
    }
  }

  lemma {:induction false} RevisionRuns(w: World, ops: seq<Op>, more: seq<Op>)
    requires w.Valid()
    ensures From(w, ops + more).revision >= From(w, ops).revision
    decreases |more|
  {
    if more == [] {
      assert ops + more == ops;
    } else {
      RevisionRuns(w, ops, more[..|more| - 1]);
      FromNext(w, ops, more);
      RevisionNeverFalls(w, From(w, ops + more[..|more| - 1]), more[|more| - 1]);
    }
  }

  lemma EarliestIsUnique(states: map<string, TargetAvailability>, a: Option<Time>, b: Option<Time>)
    requires EarliestOf(states, a) && EarliestOf(states, b)
    ensures a == b
  {}

  // -------------------------------------------------------------- quiet changes in cooldown

  /** A call that changes a domain in cooldown and leaves it there settles the probe of a
      target's provider, and by the same stroke orphans the provider's token: the new end
      of the cooldown never matters again. It is as far off as any cooldown's. */
  lemma QuietExtensionOrphans(w: World, ops: seq<Op>, op: Op, d: DomainKey)
    requires w.Valid() && d in w.Domains()
    requires From(w, ops).records[d].state == Cooldown && Step(w, From(w, ops), op).records[d].state == Cooldown
    requires Step(w, From(w, ops), op).records[d] != From(w, ops).records[d]
    ensures op.RecordOp? && d == TargetOf(op.lease)
    ensures Step(w, From(w, ops), op).revision == From(w, ops).revision
    ensures Orphaned(Step(w, From(w, ops), op), ProviderOf(op.lease))
    ensures var r, r' := From(w, ops).records[d], Step(w, From(w, ops), op).records[d]; var at := op.outcome.observedAt;
      && r'.cooldownUntil.Some?
      && (r'.cooldownUntil == r.cooldownUntil
          || at + w.config.cooldown <= r'.cooldownUntil.value <= at + w.config.maxCooldown)
  {
    ReachableInv(w, ops);
    hide Inv, From, Step;
    ExtensionInState(w, From(w, ops), op, d);
  }

  lemma ExtensionInState(w: World, s: Registry, op: Op, d: DomainKey)
    requires Inv(w, s) && d in s.records
    requires s.records[d].state == Cooldown && Step(w, s, op).records[d].state == Cooldown
    requires Step(w, s, op).records[d] != s.records[d]
    ensures op.RecordOp? && d == TargetOf(op.lease)
    ensures Step(w, s, op).revision == s.revision
    ensures Orphaned(Step(w, s, op), ProviderOf(op.lease))
    ensures var r, r' := s.records[d], Step(w, s, op).records[d]; var at := op.outcome.observedAt;
      && r'.cooldownUntil.Some?
      && (r'.cooldownUntil == r.cooldownUntil
          || at + w.config.cooldown <= r'.cooldownUntil.value <= at + w.config.maxCooldown)
  {
    StaysInCooldown(w, s, op, d);
    LeaseFacts(w, s, op.lease, d);
    ChargedRecord(w, s, op, d);
    hide Step, Apply, RevisionDelta, Inv;
    ExtensionIsBounded(w.config, s.records[d], op.outcome.observedAt, op.outcome.retryAfter, op.lease.token);
  }

  lemma OthersEndCooldown(c: HealthConfig, r: Record, e: DomainEvent)
    requires r.state == Cooldown && r.token == None && !e.FailedTransiently?
    ensures Apply(c, r, e) == r || Apply(c, r, e).state != Cooldown
  {}

  lemma AcquireEndsCooldown(w: World, s: Registry, target: ModelTarget, now: Time, d: DomainKey)
    requires w.Domains() <= s.records.Keys && d in s.records && s.records[d].state == Cooldown
    ensures var s' := Acquire(w, s, target, now);
      s'.records[d] == s.records[d] || s'.records[d].state == HalfOpen
  {}

  lemma SettleEndsCooldown(w: World, s: Registry, lease: HealthLease, outcome: AttemptOutcome, d: DomainKey)
    requires d in s.records && s.records[d].state == Cooldown && s.records[d].token == None
    requires !ChargesTransiently(s, RecordOp(lease, outcome), d)
    ensures var s' := Settle(w, s, lease, outcome);
      s'.records[d] == s.records[d] || s'.records[d].state != Cooldown
  {
    var e := EventFor(s, lease, outcome, d);
    hide Apply;
    if e.Some? && Genuine(s, lease) {
      OthersEndCooldown(w.config, s.records[d], e.value);
    }
  }

  lemma StaysInCooldown(w: World, s: Registry, op: Op, d: DomainKey)
    requires Inv(w, s) && d in s.records && s.records[d].state == Cooldown
    requires Step(w, s, op).records[d].state == Cooldown && Step(w, s, op).records[d] != s.records[d]
    ensures ChargesTransiently(s, op, d)
  {
    assert RecordOk(w, s, s.records[d]);
    hide Inv, Acquire, Settle, ChargesTransiently;
    match op
    case AcquireOp(target, now) => AcquireEndsCooldown(w, s, target, now, d);
    case RecordOp(lease, outcome) =>
      if !ChargesTransiently(s, op, d) {
        SettleEndsCooldown(w, s, lease, outcome, d);
      }
  }

  lemma ExtensionIsBounded(c: HealthConfig, r: Record, at: Time, retryAfter: Option<real>, token: nat)
    requires c.Valid() && r.state == Cooldown && r.cooldownUntil.Some?
    ensures var e := FailedTransiently(at, retryAfter, token); var r' := Apply(c, r, e);
      && RevisionDelta(r, r', e) == 0
      && r'.cooldownUntil.Some?
      && (r'.cooldownUntil == r.cooldownUntil || at + c.cooldown <= r'.cooldownUntil.value <= at + c.maxCooldown)
  {
    CooldownBounds(c, r.backoff, retryAfter);
  }
}
