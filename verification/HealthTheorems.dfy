/** Safety of the health coordinator over every run. */
module HealthTheorems {
  import opened Prelude
  import opened Domain
  import opened HealthModels
  import opened HealthMachine
  import opened HealthSafety

  /** The state after a run from the coordinator's construction. */
  function From(w: World, ops: seq<Op>): Registry {
    Run(w, Initial(w), ops)
  }

  lemma ReachableInv(w: World, ops: seq<Op>)
    requires w.Valid()
    ensures Inv(w, From(w, ops))
  {
    InitialInv(w);
    RunPreservesInv(w, Initial(w), ops);
  }

  // ------------------------------------------------- leases of unhealthy domains

  /** In any run a domain that is not healthy has at most one active lease of its
      current generation, and a blocked domain has none. */
  lemma AtMostOneCurrentLease(w: World, ops: seq<Op>, d: DomainKey, k1: nat, k2: nat)
    requires w.Valid() && d in w.Domains() && From(w, ops).records[d].state != Healthy
    requires k1 in From(w, ops).active && Current(From(w, ops), From(w, ops).active[k1], d)
    requires k2 in From(w, ops).active && Current(From(w, ops), From(w, ops).active[k2], d)
    ensures k1 == k2
    ensures From(w, ops).records[d].state != Blocked
  {
    ReachableInv(w, ops);
    var s := From(w, ops);
    CurrentIsUnique(w, s, k1, k2, d);
    assert ActiveOk(w, s, k1) && RecordOk(w, s, s.records[d]);
  }

  /** d waits for a probe that no longer exists. */
  ghost predicate Orphaned(s: Registry, d: DomainKey) {
    d in s.records && s.records[d].token.Some? && s.records[d].token.value !in s.active
  }

  lemma NoLeaseSettlesFrozen(w: World, s: Registry, lease: HealthLease, d: DomainKey)
    requires w.Valid() && s.records.Keys == w.Domains() && d in s.records && RecordOk(w, s, s.records[d])
    requires Genuine(s, lease) && ActiveOk(w, s, lease.token)
    requires s.records[d].state == Blocked || Orphaned(s, d)
    ensures !Current(s, lease, d)
  {}

  lemma FrozenStep(w: World, s: Registry, op: Op, d: DomainKey)
    requires Inv(w, s) && d in s.records && (s.records[d].state == Blocked || Orphaned(s, d))
    ensures Step(w, s, op).records[d] == s.records[d]
    ensures Orphaned(s, d) ==> Orphaned(Step(w, s, op), d)
  {
    assert RecordOk(w, s, s.records[d]);
    if op.RecordOp? && Genuine(s, op.lease) {
      NoLeaseSettlesFrozen(w, s, op.lease, d);
    }
  }

  lemma {:induction false} FrozenRun(w: World, s: Registry, more: seq<Op>, d: DomainKey)
    requires Inv(w, s) && d in s.records && (s.records[d].state == Blocked || Orphaned(s, d))
    ensures Run(w, s, more).records[d] == s.records[d]
    ensures Orphaned(s, d) ==> Orphaned(Run(w, s, more), d)
    decreases |more|
  {
    if more != [] {
      var init := more[..|more| - 1];
      FrozenRun(w, s, init, d);
      RunPreservesInv(w, s, init);
      FrozenStep(w, Run(w, s, init), more[|more| - 1], d);
    }
  }

  /** A blocked domain stays exactly as it is in every continuation of every run. */
  lemma BlockedForever(w: World, ops: seq<Op>, more: seq<Op>, d: DomainKey)
    requires w.Valid() && d in w.Domains() && From(w, ops).records[d].state == Blocked
    ensures From(w, ops + more).records[d] == From(w, ops).records[d]
  {
    ReachableInv(w, ops);
    RunConcat(w, Initial(w), ops, more);
    FrozenRun(w, From(w, ops), more, d);
  }

  // ----------------------------------------------------------- recovery probes

  lemma ProbeIsAlone(w: World, s: Registry, k: nat, d: DomainKey)
    requires Inv(w, s) && k in s.active && d in s.records && Holds(s, s.active[k], d)
    ensures IsProbeOf(s, k, d)
  {
    assert ActiveOk(w, s, k) && RecordOk(w, s, s.records[d]);
    forall other | other in s.active && Current(s, s.active[other], d)
      ensures other == k
    {
      CurrentIsUnique(w, s, k, other, d);
    }
  }

  /** Every active probe holds the token of exactly one of its domains and is the
      only active lease current for that domain. */
  lemma ProbeHoldsItsToken(w: World, ops: seq<Op>, k: nat)
    requires w.Valid() && k in From(w, ops).active && From(w, ops).active[k].probe
    ensures IsProbeOf(From(w, ops), k, ProbedBy(From(w, ops), From(w, ops).active[k]))
    ensures forall d | IsProbeOf(From(w, ops), k, d) :: d == ProbedBy(From(w, ops), From(w, ops).active[k])
  {
    ReachableInv(w, ops);
    var s := From(w, ops);
    assert ActiveOk(w, s, k);
    ProbeIsAlone(w, s, k, ProbedBy(s, s.active[k]));
  }

  ghost predicate IsProbeOf(s: Registry, k: nat, d: DomainKey) {
    && k in s.active
    && s.active[k].token == k
    && Holds(s, s.active[k], d)
    && s.records[d].state == HalfOpen
    && forall other | other in s.active && Current(s, s.active[other], d) :: other == k
  }

  ghost predicate NoOrphans(s: Registry) {
    forall d | d in s.records :: !Orphaned(s, d)
  }

  function ProbedBy(s: Registry, lease: HealthLease): DomainKey {
    if Holds(s, lease, ProviderOf(lease)) then ProviderOf(lease) else TargetOf(lease)
  }

  /** The one kind of call that loses a probe token: a probe whose failure is charged,
      currently, to the domain it does not probe; or a lease that is not the active
      probe it claims to be. */
  predicate LosesProbe(s: Registry, op: Op) {
    && op.RecordOp?
    && op.lease.token in s.active
    && s.active[op.lease.token].probe
    && (Genuine(s, op.lease) ==>
          && Charges(s, op.lease, op.outcome.failureClass)
          && ChargedDomain(op.lease, op.outcome.failureClass) != Some(ProbedBy(s, op.lease)))
  }

  /** A token once orphaned keeps its domain unchanged, and refused to every caller, for ever. */
  lemma OrphanIsPermanent(w: World, ops: seq<Op>, more: seq<Op>, d: DomainKey, target: ModelTarget, now: Time)
    requires w.Valid() && Orphaned(From(w, ops), d)
    requires d in {ProviderDomain(target.provider), TargetDomain(target.alias)}
    ensures Orphaned(From(w, ops + more), d)
    ensures From(w, ops + more).records[d] == From(w, ops).records[d]
    ensures GrantedLease(w, From(w, ops + more), target, now) == None
  {
    ReachableInv(w, ops);
    RunConcat(w, Initial(w), ops, more);
    FrozenRun(w, From(w, ops), more, d);
    assert RecordOk(w, From(w, ops), From(w, ops).records[d]);
  }

  lemma GrantMakesNoOrphan(w: World, s: Registry, target: ModelTarget, now: Time, d: DomainKey)
    requires w.Domains() <= s.records.Keys && Admissible(w, s, target, now)
    requires !Orphaned(s, d)
    ensures !Orphaned(Grant(w, s, target, now), d)
  {}

  /** A domain whose token is not the settled lease's, or gives it up, is not orphaned. */
  lemma SettleOrphans(w: World, s: Registry, lease: HealthLease, outcome: AttemptOutcome, d: DomainKey)
    requires w.Valid() && s.records.Keys == w.Domains() && Genuine(s, lease) && ActiveOk(w, s, lease.token)
    requires d in s.records && RecordOk(w, s, s.records[d]) && TokenOwned(s, d) && !Orphaned(s, d)
    ensures Orphaned(Settle(w, s, lease, outcome), d) <==>
      && Holds(s, lease, d)
      && Charges(s, lease, outcome.failureClass)
      && ChargedDomain(lease, outcome.failureClass) != Some(d)
  {
    EvolvedRecord(w, s, lease, outcome, d);
    var r := s.records[d];
    if r.token.Some? && !Holds(s, lease, d) {
      assert Holds(s, s.active[r.token.value], d);
      assert r.token.value != lease.token;
    }
  }

  ghost predicate LostAt(s: Registry, lease: HealthLease, failureClass: FailureClass, d: DomainKey) {
    && Holds(s, lease, d)
    && Charges(s, lease, failureClass)
    && ChargedDomain(lease, failureClass) != Some(d)
  }

  lemma OrphansOfSettle(w: World, s: Registry, lease: HealthLease, outcome: AttemptOutcome)
    requires Inv(w, s) && NoOrphans(s) && Genuine(s, lease)
    ensures Settle(w, s, lease, outcome).records.Keys == s.records.Keys
    ensures forall d | d in s.records ::
      Orphaned(Settle(w, s, lease, outcome), d) <==> LostAt(s, lease, outcome.failureClass, d)
  {
    assert ActiveOk(w, s, lease.token);
    forall d | d in s.records
      ensures Orphaned(Settle(w, s, lease, outcome), d) <==> LostAt(s, lease, outcome.failureClass, d)
    {
      SettleOrphans(w, s, lease, outcome, d);
    }
  }

  lemma ProbeHolds(w: World, s: Registry, lease: HealthLease)
    requires s.records.Keys == w.Domains() && Genuine(s, lease) && ActiveOk(w, s, lease.token)
    ensures lease.probe ==> ProbedBy(s, lease) in s.records && Holds(s, lease, ProbedBy(s, lease))
    ensures forall d | Holds(s, lease, d) :: lease.probe && d == ProbedBy(s, lease)
  {}

  lemma OrphanByGenuine(w: World, s: Registry, lease: HealthLease, outcome: AttemptOutcome)
    requires Inv(w, s) && NoOrphans(s) && Genuine(s, lease)
    ensures NoOrphans(Settle(w, s, lease, outcome)) <==> !LosesProbe(s, RecordOp(lease, outcome))
  {
    OrphansOfSettle(w, s, lease, outcome);
    assert ActiveOk(w, s, lease.token);
    hide Orphaned, Settle, Inv, Holds, Charges, ChargedDomain, ProbedBy, ActiveOk;
    ProbeHolds(w, s, lease);
    if lease.probe {
      assert LostAt(s, lease, outcome.failureClass, ProbedBy(s, lease)) <==> LosesProbe(s, RecordOp(lease, outcome));
    }
  }

  lemma OrphanByForgery(w: World, s: Registry, lease: HealthLease, outcome: AttemptOutcome)
    requires Inv(w, s) && NoOrphans(s) && lease.token in s.active && !Genuine(s, lease)
    ensures NoOrphans(Settle(w, s, lease, outcome)) <==> !LosesProbe(s, RecordOp(lease, outcome))
  {
    var active := s.active[lease.token];
    assert ActiveOk(w, s, lease.token);
    forall d | d in s.records
      ensures Orphaned(Settle(w, s, lease, outcome), d) <==> Holds(s, active, d)
    {
      assert TokenOwned(s, d) && !Orphaned(s, d);
    }
    if active.probe {
      assert Holds(s, active, ProbedBy(s, active));
    }
  }

  lemma OrphanByRecord(w: World, s: Registry, lease: HealthLease, outcome: AttemptOutcome)
    requires Inv(w, s) && NoOrphans(s) && lease.token in s.active
    ensures NoOrphans(Settle(w, s, lease, outcome)) <==> !LosesProbe(s, RecordOp(lease, outcome))
  {
    hide *;
    if Genuine(s, lease) {
      OrphanByGenuine(w, s, lease, outcome);
    } else {
      OrphanByForgery(w, s, lease, outcome);
    }
  }

  /** Exactly the calls that LosesProbe describes leave an orphan behind. */
  lemma OrphanExactly(w: World, s: Registry, op: Op)
    requires Inv(w, s) && NoOrphans(s)
    ensures NoOrphans(Step(w, s, op)) <==> !LosesProbe(s, op)
  {
    match op
    case AcquireOp(target, now) =>
      if Admissible(w, s, target, now) {
        forall d | d in s.records ensures !Orphaned(Step(w, s, op), d) { GrantMakesNoOrphan(w, s, target, now, d); }
      }
    case RecordOp(lease, outcome) =>
      if lease.token in s.active {
        OrphanByRecord(w, s, lease, outcome);
      }
  }

  lemma OrphansAccumulate(w: World, s: Registry, op: Op)
    requires Inv(w, s)
    ensures NoOrphans(Step(w, s, op)) <==> NoOrphans(s) && !LosesProbe(s, op)
  {
    hide LosesProbe, Orphaned;
    if NoOrphans(s) {
      OrphanExactly(w, s, op);
    } else {
      var d :| d in s.records && Orphaned(s, d);
      FrozenStep(w, s, op, d);
    }
  }

  ghost predicate LosesNoProbe(w: World, ops: seq<Op>)
    requires w.Valid()
  {
    forall i | 0 <= i < |ops| :: !LosesProbe(From(w, ops[..i]), ops[i])
  }

  lemma LosesNoProbeStep(w: World, ops: seq<Op>)
    requires w.Valid() && ops != []
    ensures var init := ops[..|ops| - 1];
      LosesNoProbe(w, ops) <==> LosesNoProbe(w, init) && !LosesProbe(From(w, init), ops[|ops| - 1])
  {
    hide LosesProbe, From;
    var init := ops[..|ops| - 1];
    assert forall i | 0 <= i < |init| :: ops[..i] == init[..i] && ops[i] == init[i];
  }

  /** Over every run: no token is orphaned at the end iff no call of the run lost a probe. */
  lemma {:induction false} NoOrphansIff(w: World, ops: seq<Op>)
    requires w.Valid()
    ensures NoOrphans(From(w, ops)) <==> LosesNoProbe(w, ops)
    decreases |ops|
  {
    hide LosesProbe, LosesNoProbe, Orphaned;
    if ops == [] {
      NothingLostAtFirst(w);
    } else {
      var init, last := ops[..|ops| - 1], ops[|ops| - 1];
      NoOrphansIff(w, init);
      ReachableInv(w, init);
      LosesNoProbeStep(w, ops);
      OrphansAccumulate(w, From(w, init), last);
    }
  }

  lemma NothingLostAtFirst(w: World)
    requires w.Valid()
    ensures NoOrphans(From(w, [])) && LosesNoProbe(w, [])
  {}

  /** The class is success, neutral, or a failure of the domain the lease probes. */
  predicate ProbeSafe(s: Registry, lease: HealthLease, failureClass: FailureClass) {
    ChargedDomain(lease, failureClass) in {None, Some(ProbedBy(s, lease))}
  }

  /** If every recorded probe ended in success, neutrally, or in a failure of the
      domain it probed, every held token belongs to an active lease. */
  lemma SafeProbesLeaveNoOrphans(w: World, ops: seq<Op>)
    requires w.Valid()
    requires forall i | 0 <= i < |ops| && ops[i].RecordOp? && ops[i].lease.token in From(w, ops[..i]).active ::
      && Genuine(From(w, ops[..i]), ops[i].lease)
      && (ops[i].lease.probe ==> ProbeSafe(From(w, ops[..i]), ops[i].lease, ops[i].outcome.failureClass))
    ensures NoOrphans(From(w, ops))
  {
    NoOrphansIff(w, ops);
  }

  // ---------------------------------------------------------------- cooldowns

  lemma SettledCooldownIsOver(w: World, s: Registry, lease: HealthLease, d: DomainKey)
    requires w.Valid() && s.records.Keys == w.Domains() && d in s.records && RecordOk(w, s, s.records[d])
    requires Genuine(s, lease) && ActiveOk(w, s, lease.token)
    requires s.records[d].state == Cooldown && Current(s, lease, d)
    ensures s.records[d].cooldownUntil.value <= lease.acquiredAt
  {}

  lemma ChangedByStep(w: World, s: Registry, op: Op, d: DomainKey)
    requires w.Domains() <= s.records.Keys && d in s.records && Step(w, s, op).records[d] != s.records[d]
    requires s.records[d].cooldownUntil.Some? && s.records[d].state == Cooldown
    ensures match op
      case AcquireOp(_, now) => now >= s.records[d].cooldownUntil.value
      case RecordOp(lease, _) => Genuine(s, lease) && Current(s, lease, d)
  {}

  /** No call cuts a cooldown short: a call that changes a domain in cooldown is an
      admission after its end, or settles a lease that was acquired after its end. */
  lemma CooldownIsServed(w: World, ops: seq<Op>, op: Op, d: DomainKey)
    requires w.Valid() && d in w.Domains() && From(w, ops).records[d].state == Cooldown
    requires Step(w, From(w, ops), op).records[d] != From(w, ops).records[d]
    ensures From(w, ops).records[d].cooldownUntil.Some?
    ensures match op
      case AcquireOp(_, now) => now >= From(w, ops).records[d].cooldownUntil.value
      case RecordOp(lease, _) =>
        && Genuine(From(w, ops), lease)
        && Current(From(w, ops), lease, d)
        && lease.acquiredAt >= From(w, ops).records[d].cooldownUntil.value
  {
    ReachableInv(w, ops);
    var s := From(w, ops);
    assert RecordOk(w, s, s.records[d]);
    ChangedByStep(w, s, op, d);
    if op.RecordOp? {
      SettledCooldownIsOver(w, s, op.lease, d);
    }
  }

  // -------------------------------------------------- stale and repeated outcomes

  /** An outcome leaves alone every domain its lease is stale for. */
  lemma StaleOutcomeIsIgnored(w: World, s: Registry, lease: HealthLease, outcome: AttemptOutcome, d: DomainKey)
    requires d in s.records && !Current(s, lease, d)
    ensures Settle(w, s, lease, outcome).records[d] == s.records[d]
  {}

  lemma {:induction false} TokensAreNotReissued(w: World, s: Registry, ops: seq<Op>, k: nat)
    requires w.Domains() <= s.records.Keys && k < s.nextToken && k !in s.active
    ensures k < Run(w, s, ops).nextToken && k !in Run(w, s, ops).active
    decreases |ops|
  {
    if ops != [] {
      TokensAreNotReissued(w, s, ops[..|ops| - 1], k);
    }
  }

  lemma SettleAgain(w: World, s: Registry, lease: HealthLease, outcome: AttemptOutcome)
    requires lease.token !in s.active
    ensures Settle(w, s, lease, outcome) == s
  {
    assert s.active - {lease.token} == s.active;
  }

  /** However much happens in between, a second outcome of a lease changes nothing at all. */
  lemma SecondOutcomeIsIgnored(w: World, ops: seq<Op>, lease: HealthLease, first: AttemptOutcome, between: seq<Op>,
                               second: AttemptOutcome)
    requires w.Valid() && Genuine(From(w, ops), lease)
    ensures var s := Run(w, Settle(w, From(w, ops), lease, first), between);
      Settle(w, s, lease, second) == s
  {
    ReachableInv(w, ops);
    var s := From(w, ops);
    assert ActiveOk(w, s, lease.token);
    var s1 := Settle(w, s, lease, first);
    SettlePreservesInv(w, s, lease, first);
    hide Settle, Inv, ActiveOk;
    TokensAreNotReissued(w, s1, between, lease.token);
    SettleAgain(w, Run(w, s1, between), lease, second);
  }
}
