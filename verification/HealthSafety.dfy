/** The inductive invariant of the health coordinator and the safety facts that follow from it. */
module HealthSafety {
  import opened Prelude
  import opened Domain
  import opened HealthModels
  import opened HealthMachine

  // --------------------------------------------------------------- invariant

  ghost predicate RecordOk(w: World, s: Registry, r: Record) {
    && (r.cooldownUntil.Some? <==> r.state == Cooldown)
    && (r.token.Some? ==> r.state == HalfOpen && r.token.value < s.nextToken)
    && r.failures < w.config.failureThreshold
  }

  ghost predicate LeaseOk(w: World, s: Registry, lease: HealthLease)
    requires s.records.Keys == w.Domains()
  {
    && lease.token < s.nextToken
    && lease.targetAlias in w.catalog
    && w.catalog[lease.targetAlias].provider == lease.provider
    && lease.providerGeneration <= s.records[ProviderOf(lease)].generation
    && lease.targetGeneration <= s.records[TargetOf(lease)].generation
  }

  predicate Holds(s: Registry, lease: HealthLease, d: DomainKey) {
    Current(s, lease, d) && s.records[d].token == Some(lease.token)
  }

  /** A current lease on a provider that is not healthy is that provider's probe. */
  ghost predicate ProviderSide(s: Registry, lease: HealthLease)
    requires ProviderOf(lease) in s.records
  {
    Current(s, lease, ProviderOf(lease)) && s.records[ProviderOf(lease)].state != Healthy ==>
      Holds(s, lease, ProviderOf(lease))
  }

  /** A current lease on a target that is not healthy is its probe, or the probe
      of the provider while the target, its own cooldown over, waits unprobed. */
  ghost predicate TargetSide(s: Registry, lease: HealthLease)
    requires TargetOf(lease) in s.records
  {
    var t := s.records[TargetOf(lease)];
    Current(s, lease, TargetOf(lease)) && t.state != Healthy ==>
      && t.state != Blocked
      && (Holds(s, lease, TargetOf(lease)) || (t.token == None && Holds(s, lease, ProviderOf(lease))))
      && (t.state == Cooldown && t.cooldownUntil.Some? ==> t.cooldownUntil.value <= lease.acquiredAt)
  }

  ghost predicate ActiveOk(w: World, s: Registry, k: nat)
    requires s.records.Keys == w.Domains() && k in s.active
  {
    var lease := s.active[k];
    && lease.token == k
    && LeaseOk(w, s, lease)
    && ProviderSide(s, lease)
    && TargetSide(s, lease)
    && (lease.probe <==> Holds(s, lease, ProviderOf(lease)) || Holds(s, lease, TargetOf(lease)))
    && !(Holds(s, lease, ProviderOf(lease)) && Holds(s, lease, TargetOf(lease)))
  }

  /** A token that is both held by a domain and active belongs to a lease on that domain. */
  ghost predicate TokenOwned(s: Registry, d: DomainKey)
    requires d in s.records
  {
    var t := s.records[d].token;
    t.Some? && t.value in s.active ==> Holds(s, s.active[t.value], d)
  }

  ghost predicate Inv(w: World, s: Registry) {
    && w.Valid()
    && s.records.Keys == w.Domains()
    && (forall d | d in s.records :: RecordOk(w, s, s.records[d]))
    && (forall d | d in s.records :: TokenOwned(s, d))
    && (forall k | k in s.active :: ActiveOk(w, s, k))
  }

  lemma InitialInv(w: World)
    requires w.Valid()
    ensures Inv(w, Initial(w))
  {}

  // ------------------------------------------------------------ preservation

  lemma ExponentialAtLeastCooldown(c: HealthConfig, level: nat)
    requires c.Valid()
    ensures Exponential(c, level) >= c.cooldown
  {
    PowerAtLeastOne(c.backoffMultiplier, level);
    var factor := Power(c.backoffMultiplier, level);
    assert c.cooldown * factor == c.cooldown + c.cooldown * (factor - 1.0);
  }

  lemma CooldownBounds(c: HealthConfig, level: nat, retryAfter: Option<real>)
    requires c.Valid()
    ensures c.cooldown <= CooldownSeconds(c, level, retryAfter) <= c.maxCooldown
    ensures CooldownSeconds(c, level, retryAfter) >= MinReal(c.maxCooldown, Exponential(c, level))
    ensures retryAfter == None ==>
      CooldownSeconds(c, level, retryAfter) == MinReal(c.maxCooldown, Exponential(c, level))
  {
    ExponentialAtLeastCooldown(c, level);
  }

  lemma {:induction false} PowerAtLeastOne(base: real, n: nat)
    requires base >= 1.0
    ensures Power(base, n) >= 1.0
  {
    if n > 0 {
      PowerAtLeastOne(base, n - 1);
      assert base * Power(base, n - 1) >= 1.0 * Power(base, n - 1);
    }
  }

  /** Admission touches only the probed domain, which no other active lease is current for. */
  lemma GrantKeepsOther(w: World, s: Registry, target: ModelTarget, now: Time, k: nat)
    requires w.Valid() && s.records.Keys == w.Domains() && Admissible(w, s, target, now)
    requires k in s.active && ActiveOk(w, s, k)
    requires forall d | Covers(s.active[k], d) :: RecordOk(w, s, s.records[d])
    ensures k != s.nextToken && ActiveOk(w, Grant(w, s, target, now), k)
  {
    var probed := ProbedDomain(s, target, now);
    var lease := s.active[k];
    if probed.Some? && Covers(lease, probed.value) {
      assert RecordOk(w, s, s.records[probed.value]);
      assert s.records[probed.value].token == None;
      assert !Holds(s, lease, ProviderOf(lease));
      if Current(s, lease, probed.value) {
        assert false;
      }
    }
  }

  lemma GrantIssuesOk(w: World, s: Registry, target: ModelTarget, now: Time)
    requires w.Valid() && s.records.Keys == w.Domains() && Admissible(w, s, target, now)
    requires RecordOk(w, s, s.records[ProviderDomain(target.provider)])
    requires RecordOk(w, s, s.records[TargetDomain(target.alias)])
    ensures ActiveOk(w, Grant(w, s, target, now), s.nextToken)
  {
    var p, t := s.records[ProviderDomain(target.provider)], s.records[TargetDomain(target.alias)];
    assert Effective(p, now) == Healthy ==> p.state == Healthy;
    assert Effective(t, now) == Healthy ==> t.state == Healthy;
  }

  lemma GrantKeepsRecord(w: World, s: Registry, target: ModelTarget, now: Time, d: DomainKey)
    requires w.config.Valid() && w.Domains() <= s.records.Keys && Admissible(w, s, target, now)
    requires d in s.records && RecordOk(w, s, s.records[d]) && TokenOwned(s, d)
    ensures RecordOk(w, Grant(w, s, target, now), Grant(w, s, target, now).records[d])
    ensures TokenOwned(Grant(w, s, target, now), d)
  {
    var probed := ProbedDomain(s, target, now);
    if probed != Some(d) {
      var t := s.records[d].token;
      if t.Some? && t.value in s.active {
        assert Holds(s, s.active[t.value], d);
      }
    }
  }

  lemma GrantPreservesInv(w: World, s: Registry, target: ModelTarget, now: Time)
    requires Inv(w, s) && Admissible(w, s, target, now)
    ensures Inv(w, Grant(w, s, target, now))
  {
    var s' := Grant(w, s, target, now);
    forall k | k in s'.active
      ensures ActiveOk(w, s', k)
    {
      if k == s.nextToken { GrantIssuesOk(w, s, target, now); } else { GrantKeepsOther(w, s, target, now, k); }
    }
    forall d | d in s'.records
      ensures RecordOk(w, s', s'.records[d]) && TokenOwned(s', d)
    {
      GrantKeepsRecord(w, s, target, now, d);
    }
    assert s'.records.Keys == s.records.Keys;
  }

  /** What one outcome may do to a record, and that it keeps the record's own invariant. */
  lemma EvolvedRecord(w: World, s: Registry, lease: HealthLease, outcome: AttemptOutcome, d: DomainKey)
    requires w.config.Valid() && d in s.records && RecordOk(w, s, s.records[d])
    ensures RecordOk(w, s, Evolved(w, s, lease, outcome, d))
    ensures Evolved(w, s, lease, outcome, d).generation >= s.records[d].generation
    ensures Evolved(w, s, lease, outcome, d).token in {s.records[d].token, None}
    ensures !Current(s, lease, d) ==> Evolved(w, s, lease, outcome, d) == s.records[d]
    ensures s.records[d].state == Healthy ==>
      || Evolved(w, s, lease, outcome, d).state == Healthy
      || Evolved(w, s, lease, outcome, d).generation > s.records[d].generation
  {}

  /** Two leases are never current for the same domain unless it is healthy. */
  lemma CurrentIsUnique(w: World, s: Registry, k1: nat, k2: nat, d: DomainKey)
    requires w.Valid() && s.records.Keys == w.Domains() && d in s.records
    requires k1 in s.active && k2 in s.active && ActiveOk(w, s, k1) && ActiveOk(w, s, k2)
    requires Current(s, s.active[k1], d) && Current(s, s.active[k2], d) && s.records[d].state != Healthy
    ensures k1 == k2
  {
    var l1, l2 := s.active[k1], s.active[k2];
    if d.ProviderDomain? {
      assert Holds(s, l1, d) && Holds(s, l2, d);
    } else {
      assert ProviderOf(l1) == ProviderOf(l2);
    }
  }

  /** From the point of view of one active lease, a domain went from r to r' without harm:
      it was untouched, it outdated the lease, or it was and stays healthy. */
  ghost predicate Harmless(s: Registry, s': Registry, lease: HealthLease, d: DomainKey)
    requires d in s.records && d in s'.records
  {
    var r, r' := s.records[d], s'.records[d];
    && r'.generation >= r.generation
    && r'.token in {r.token, None}
    && (|| r' == r
        || (&& (r.state == Healthy || !Current(s, lease, d))
            && (r'.state == Healthy || r'.generation > r.generation || !Current(s, lease, d))))
  }

  lemma HarmlessKeepsActive(w: World, s: Registry, s': Registry, k: nat)
    requires w.Valid() && s.records.Keys == s'.records.Keys == w.Domains() && s.nextToken <= s'.nextToken
    requires k in s.active && k in s'.active && s.active[k] == s'.active[k] && ActiveOk(w, s, k)
    requires RecordOk(w, s, s.records[ProviderOf(s.active[k])]) && RecordOk(w, s, s.records[TargetOf(s.active[k])])
    requires Harmless(s, s', s.active[k], ProviderOf(s.active[k]))
    requires Harmless(s, s', s.active[k], TargetOf(s.active[k]))
    ensures ActiveOk(w, s', k)
  {
    var lease := s.active[k];
    assert Holds(s, lease, ProviderOf(lease)) <==> Holds(s', lease, ProviderOf(lease));
    assert Holds(s, lease, TargetOf(lease)) <==> Holds(s', lease, TargetOf(lease));
  }

  /** Settling one lease is harmless to every other active lease. */
  lemma SettleIsHarmless(w: World, s: Registry, lease: HealthLease, outcome: AttemptOutcome, k: nat, d: DomainKey)
    requires w.Valid() && s.records.Keys == w.Domains() && Genuine(s, lease)
    requires k in s.active && k != lease.token && ActiveOk(w, s, k) && ActiveOk(w, s, lease.token)
    requires Covers(s.active[k], d) && RecordOk(w, s, s.records[d])
    ensures Harmless(s, Settle(w, s, lease, outcome), s.active[k], d)
  {
    EvolvedRecord(w, s, lease, outcome, d);
    if Current(s, lease, d) && Current(s, s.active[k], d) && s.records[d].state != Healthy {
      CurrentIsUnique(w, s, k, lease.token, d);
    }
  }

  lemma SettleKeepsRecord(w: World, s: Registry, lease: HealthLease, outcome: AttemptOutcome, d: DomainKey)
    requires w.Valid() && s.records.Keys == w.Domains() && Genuine(s, lease) && ActiveOk(w, s, lease.token)
    requires d in s.records && RecordOk(w, s, s.records[d]) && TokenOwned(s, d)
    ensures RecordOk(w, Settle(w, s, lease, outcome), Settle(w, s, lease, outcome).records[d])
    ensures TokenOwned(Settle(w, s, lease, outcome), d)
  {
    EvolvedRecord(w, s, lease, outcome, d);
    var s' := Settle(w, s, lease, outcome);
    var t := s'.records[d].token;
    if t.Some? && t.value in s'.active {
      assert Holds(s, s.active[t.value], d);
      if Current(s, lease, d) {
        HolderIsOnlyCurrent(w, s, lease, t.value, d);
      }
    }
  }

  /** A lease current for a domain whose token an active lease holds is that lease. */
  lemma HolderIsOnlyCurrent(w: World, s: Registry, lease: HealthLease, k: nat, d: DomainKey)
    requires w.Valid() && s.records.Keys == w.Domains() && d in s.records && RecordOk(w, s, s.records[d])
    requires Genuine(s, lease) && ActiveOk(w, s, lease.token) && Current(s, lease, d)
    requires s.records[d].token == Some(k)
    ensures k == lease.token
  {}

  lemma SettleKeepsActive(w: World, s: Registry, lease: HealthLease, outcome: AttemptOutcome, k: nat)
    requires w.Valid() && s.records.Keys == w.Domains() && Genuine(s, lease)
    requires k in s.active && k != lease.token && ActiveOk(w, s, k) && ActiveOk(w, s, lease.token)
    requires RecordOk(w, s, s.records[ProviderOf(s.active[k])]) && RecordOk(w, s, s.records[TargetOf(s.active[k])])
    ensures ActiveOk(w, Settle(w, s, lease, outcome), k)
  {
    SettleIsHarmless(w, s, lease, outcome, k, ProviderOf(s.active[k]));
    SettleIsHarmless(w, s, lease, outcome, k, TargetOf(s.active[k]));
    HarmlessKeepsActive(w, s, Settle(w, s, lease, outcome), k);
  }

  lemma SettleGenuinePreservesInv(w: World, s: Registry, lease: HealthLease, outcome: AttemptOutcome)
    requires Inv(w, s) && Genuine(s, lease)
    ensures Inv(w, Settle(w, s, lease, outcome))
  {
    var s' := Settle(w, s, lease, outcome);
    assert s'.records.Keys == s.records.Keys;
    forall d | d in s'.records
      ensures RecordOk(w, s', s'.records[d]) && TokenOwned(s', d)
    {
      SettleKeepsRecord(w, s, lease, outcome, d);
    }
    forall k | k in s'.active
      ensures ActiveOk(w, s', k)
    {
      SettleKeepsActive(w, s, lease, outcome, k);
    }
  }

  /** Recording a lease that differs from the active one of the same token only drops the latter. */
  lemma DropPreservesInv(w: World, s: Registry, token: nat)
    requires Inv(w, s)
    ensures Inv(w, s.(active := s.active - {token}))
  {
    var s' := s.(active := s.active - {token});
    forall k | k in s'.active
      ensures ActiveOk(w, s', k)
    {
      assert ActiveOk(w, s, k);
    }
    forall d | d in s'.records
      ensures RecordOk(w, s', s'.records[d]) && TokenOwned(s', d)
    {
      assert RecordOk(w, s, s.records[d]) && TokenOwned(s, d);
    }
  }

  lemma SettlePreservesInv(w: World, s: Registry, lease: HealthLease, outcome: AttemptOutcome)
    requires Inv(w, s)
    ensures Inv(w, Settle(w, s, lease, outcome))
  {
    if Genuine(s, lease) {
      SettleGenuinePreservesInv(w, s, lease, outcome);
    } else {
      DropPreservesInv(w, s, lease.token);
    }
  }

  lemma StepPreservesInv(w: World, s: Registry, op: Op)
    requires Inv(w, s)
    ensures Inv(w, Step(w, s, op))
  {
    match op
    case AcquireOp(target, now) =>
      if Admissible(w, s, target, now) { GrantPreservesInv(w, s, target, now); }
    case RecordOp(lease, outcome) =>
      SettlePreservesInv(w, s, lease, outcome);
  }

  lemma {:induction false} RunPreservesInv(w: World, s: Registry, ops: seq<Op>)
    requires Inv(w, s)
    ensures Inv(w, Run(w, s, ops))
    decreases |ops|
  {
    if ops != [] {
      RunPreservesInv(w, s, ops[..|ops| - 1]);
      StepPreservesInv(w, Run(w, s, ops[..|ops| - 1]), ops[|ops| - 1]);
    }
  }
}
