/** The coordinator as it runs: domain records mutated in place, proved to be the state machine. */
module HealthCoordinator {
  import opened Prelude
  import opened Domain
  import opened HealthModels
  import opened HealthMachine
  import opened HealthSafety
  import opened HealthTheorems

  class DomainRecord {
    var state: HealthState
    var consecutiveFailures: nat
    var windowStartedAt: Option<Time>
    var cooldownUntil: Option<Time>
    var backoffLevel: nat
    var halfOpenToken: Option<nat>
    var generation: nat

    /** The failure domain this record is for. */
    ghost const key: DomainKey

    constructor (ghost key: DomainKey)
      ensures Value() == FRESH && this.key == key
    {
      this.key := key;
      state := Healthy;
      consecutiveFailures := 0;
      windowStartedAt := None;
      cooldownUntil := None;
      backoffLevel := 0;
      halfOpenToken := None;
      generation := 0;
    }

    function Value(): Record
      reads this
    {
      Record(state, consecutiveFailures, windowStartedAt, cooldownUntil, backoffLevel, halfOpenToken, generation)
    }

    function EffectiveState(now: Time): (r: HealthState)
      reads this
      ensures r == Effective(Value(), now)
    {
      if state == Cooldown && cooldownUntil.Some? && cooldownUntil.value <= now then HalfOpen else state
    }
  }

  class InMemoryHealthCoordinator {
    const config: HealthConfig
    const targets: map<string, ModelTarget>
    const providers: map<string, DomainRecord>
    const targetRecords: map<string, DomainRecord>
    var revision: nat
    var tokens: nat
    var activeLeases: map<nat, HealthLease>

    /** Every call so far, in the order the lock let them through. */
    ghost var history: seq<Op>

    /** The state of the machine that this object implements. */
    ghost var model: Registry

    ghost const Repr: set<object>

    ghost function W(): World {
      World(config, targets)
    }

    ghost predicate Has(d: DomainKey) {
      match d
      case ProviderDomain(name) => name in providers
      case TargetDomain(alias) => alias in targetRecords
    }

    ghost function At(d: DomainKey): DomainRecord
      requires Has(d)
    {
      match d
      case ProviderDomain(name) => providers[name]
      case TargetDomain(alias) => targetRecords[alias]
    }

    /** One record object per failure domain, none shared. */
    ghost predicate Shape() {
      && W().Valid()
      && this in Repr
      && (forall d :: Has(d) <==> d in W().Domains())
      && (forall d | Has(d) :: At(d).key == d && At(d) in Repr)
    }

    /** The record objects hold exactly these values. */
    ghost predicate Hold(records: map<DomainKey, Record>)
      requires Shape()
      reads Repr - {this}
    {
      records.Keys == W().Domains() && forall d | Has(d) :: At(d).Value() == records[d]
    }

    /** The objects hold exactly the model's state. */
    ghost predicate Linked()
      reads this, Repr
    {
      && Shape()
      && activeLeases == model.active
      && revision == model.revision
      && tokens == model.nextToken
      && Hold(model.records)
    }

    ghost predicate Valid()
      reads this, Repr
    {
      Linked() && model == From(W(), history)
    }

    static lemma DomainMeaning(w: World, d: DomainKey)
      ensures d in w.Domains() <==>
        match d
        case ProviderDomain(name) => exists a :: a in w.catalog && w.catalog[a].provider == name
        case TargetDomain(alias) => alias in w.catalog
    {}

    static method FreshRecords(targets: map<string, ModelTarget>)
      returns (providers: map<string, DomainRecord>, targetRecords: map<string, DomainRecord>,
        ghost records: set<object>)
      ensures targetRecords.Keys == targets.Keys
      ensures forall p :: p in providers <==> exists a :: a in targets && targets[a].provider == p
      ensures forall p | p in providers ::
        providers[p] in records && providers[p].key == ProviderDomain(p) && providers[p].Value() == FRESH
      ensures forall a | a in targetRecords ::
        targetRecords[a] in records && targetRecords[a].key == TargetDomain(a) && targetRecords[a].Value() == FRESH
      ensures fresh(records)
    {
      providers, targetRecords, records := map[], map[], {};
      var todo := targets.Keys;
      while todo != {}
        invariant todo <= targets.Keys
        invariant targetRecords.Keys == targets.Keys - todo
        invariant forall p :: p in providers <==> exists a :: a in targetRecords && targets[a].provider == p
        invariant forall p | p in providers ::
          providers[p] in records && providers[p].key == ProviderDomain(p) && providers[p].Value() == FRESH
        invariant forall a | a in targetRecords ::
          targetRecords[a] in records && targetRecords[a].key == TargetDomain(a) && targetRecords[a].Value() == FRESH
        invariant fresh(records)
      {
        var alias :| alias in todo;
        var name := targets[alias].provider;
        var forProvider := new DomainRecord(ProviderDomain(name));
        var forTarget := new DomainRecord(TargetDomain(alias));
        ghost var before := targetRecords;
        providers := providers[name := forProvider];
        targetRecords := targetRecords[alias := forTarget];
        records := records + {forProvider, forTarget};
        todo := todo - {alias};
        assert forall a | a in before :: a in targetRecords;
        assert alias in targetRecords && targets[alias].provider == name;
      }
    }

    constructor (config: HealthConfig, targets: map<string, ModelTarget>)
      requires World(config, targets).Valid()
      ensures Valid() && fresh(Repr)
      ensures W() == World(config, targets) && history == []
    {
      ghost var records;
      var providers, targetRecords;
      providers, targetRecords, records := FreshRecords(targets);
      this.config := config;
      this.targets := targets;
      this.providers := providers;
      this.targetRecords := targetRecords;
      revision := 0;
      tokens := 1;
      activeLeases := map[];
      history := [];
      model := Initial(World(config, targets));
      Repr := records + {this};
      new;
      assert Shape() by {
        forall d: DomainKey
          ensures Has(d) <==> d in W().Domains()
        {
          DomainMeaning(W(), d);
        }
      }
      assert Hold(model.records) by {
        assert model.records.Keys == W().Domains();
        forall d: DomainKey | Has(d)
          ensures At(d).Value() == model.records[d]
        {
          match d case ProviderDomain(_) => case TargetDomain(_) =>
        }
      }
      assert model == From(W(), history);
      hide Shape, Hold, From;
    }

    // ------------------------------------------------------- one domain record

    method Transition(record: DomainRecord, state: HealthState)
      modifies record, this`revision
      ensures record.Value() == EnterState(old(record.Value()), state)
      ensures revision == old(revision) + record.generation - old(record.generation)
    {
      if record.state == state {
        return;
      }
      record.state := state;
      record.generation := record.generation + 1;
      revision := revision + 1;
    }

    method Reset(record: DomainRecord)
      modifies record, this`revision
      ensures record.Value() == Apply(config, old(record.Value()), Succeeded)
      ensures revision == old(revision) + RevisionDelta(old(record.Value()), record.Value(), Succeeded)
    {
      var previous := record.state;
      var changed :=
        || previous != Healthy
        || record.consecutiveFailures > 0
        || record.windowStartedAt.Some?
        || record.backoffLevel > 0;
      record.state := Healthy;
      record.consecutiveFailures := 0;
      record.windowStartedAt := None;
      record.cooldownUntil := None;
      record.backoffLevel := 0;
      record.halfOpenToken := None;
      if !changed {
        return;
      }
      record.generation := record.generation + 1;
      revision := revision + 1;
    }

    method TransientFailure(record: DomainRecord, outcome: AttemptOutcome, leaseToken: nat)
      modifies record, this`revision
      ensures var e := FailedTransiently(outcome.observedAt, outcome.retryAfter, leaseToken);
        && record.Value() == Apply(config, old(record.Value()), e)
        && revision == old(revision) + RevisionDelta(old(record.Value()), record.Value(), e)
    {
      var thresholdReached := true;
      if !(record.state == HalfOpen && record.halfOpenToken == Some(leaseToken)) {
        if record.windowStartedAt.None? || outcome.observedAt - record.windowStartedAt.value > config.failureWindow {
          record.windowStartedAt := Some(outcome.observedAt);
          record.consecutiveFailures := 0;
        }
        record.consecutiveFailures := record.consecutiveFailures + 1;
        thresholdReached := record.consecutiveFailures >= config.failureThreshold;
      }
      record.halfOpenToken := None;
      if !thresholdReached {
        return;
      }
      var duration := CooldownSeconds(config, record.backoffLevel, outcome.retryAfter);
      record.cooldownUntil := Some(outcome.observedAt + duration);
      record.consecutiveFailures := 0;
      record.windowStartedAt := None;
      record.backoffLevel := record.backoffLevel + 1;
      Transition(record, Cooldown);
    }

    method PermanentFailure(record: DomainRecord)
      modifies record, this`revision
      ensures record.Value() == Apply(config, old(record.Value()), FailedPermanently)
      ensures revision == old(revision) + RevisionDelta(old(record.Value()), record.Value(), FailedPermanently)
    {
      record.cooldownUntil := None;
      record.halfOpenToken := None;
      record.consecutiveFailures := 0;
      record.windowStartedAt := None;
      Transition(record, Blocked);
    }

    method ReleaseToken(record: DomainRecord, leaseToken: nat)
      modifies record, this`revision
      ensures record.Value() == Apply(config, old(record.Value()), Released(leaseToken))
      ensures revision == old(revision) + RevisionDelta(old(record.Value()), record.Value(), Released(leaseToken))
    {
      if record.halfOpenToken == Some(leaseToken) {
        record.halfOpenToken := None;
        revision := revision + 1;
      }
    }

    method AdmitProbe(record: DomainRecord, token: nat)
      modifies record, this`revision
      ensures record.Value() == Apply(config, old(record.Value()), ProbeAdmitted(token))
      ensures revision == old(revision) + 1
    {
      var before := record.generation;
      Transition(record, HalfOpen);
      record.halfOpenToken := Some(token);
      record.cooldownUntil := None;
      if record.generation == before {
        revision := revision + 1;
      }
    }

    // ------------------------------------------------------------ atomic calls

    static lemma HistoryGrows(w: World, history: seq<Op>, op: Op)
      ensures From(w, history + [op]) == Step(w, From(w, history), op)
    {
      assert (history + [op])[..|history|] == history;
    }

    method Acquire(target: ModelTarget, now: Time) returns (lease: Option<HealthLease>)
      requires Valid()
      modifies Repr
      ensures Valid() && history == old(history) + [AcquireOp(target, now)]
      ensures model == HealthMachine.Acquire(W(), old(model), target, now)
      ensures lease == GrantedLease(W(), old(model), target, now)
    {
      HistoryGrows(W(), history, AcquireOp(target, now));
      history := history + [AcquireOp(target, now)];
      lease := Admit(target, now);
    }

    method Admit(target: ModelTarget, now: Time) returns (lease: Option<HealthLease>)
      requires Linked()
      modifies Repr - {this}, this`revision, this`tokens, this`activeLeases, this`model
      ensures Linked()
      ensures model == HealthMachine.Acquire(W(), old(model), target, now)
      ensures lease == GrantedLease(W(), old(model), target, now)
    {
      if target.alias !in targets || targets[target.alias].provider != target.provider {
        return None;
      }
      ghost var p, t := ProviderDomain(target.provider), TargetDomain(target.alias);
      assert t in W().Domains() && Has(p) && Has(t);
      var providerRecord := providers[target.provider];
      var targetRecord := targetRecords[target.alias];
      assert providerRecord == At(p) && targetRecord == At(t);
      var providerState := providerRecord.EffectiveState(now);
      if providerState == Blocked || providerState == Cooldown
         || (providerState == HalfOpen && providerRecord.halfOpenToken.Some?) {
        return None;
      }
      var targetState := targetRecord.EffectiveState(now);
      if targetState == Blocked || targetState == Cooldown
         || (targetState == HalfOpen && targetRecord.halfOpenToken.Some?) {
        return None;
      }
      var granted := Issue(providerRecord, targetRecord, target, now);
      lease := Some(granted);
    }

    /** Turn the admitted call into the probe of one domain. */
    method TakeProbe(record: DomainRecord, token: nat)
      requires Linked() && Has(record.key) && record == At(record.key)
      modifies record, this`revision
      ensures var probed := HealthMachine.Apply(config, model.records[record.key], ProbeAdmitted(token));
        Hold(model.records[record.key := probed])
      ensures revision == old(revision) + 1
    {
      AdmitProbe(record, token);
    }

    /** The part of acquire() that follows the admission checks. */
    method Issue(providerRecord: DomainRecord, targetRecord: DomainRecord, target: ModelTarget, now: Time)
      returns (granted: HealthLease)
      requires Linked() && Admissible(W(), model, target, now)
      requires Has(ProviderDomain(target.provider)) && providerRecord == At(ProviderDomain(target.provider))
      requires Has(TargetDomain(target.alias)) && targetRecord == At(TargetDomain(target.alias))
      modifies Repr - {this}, this`revision, this`tokens, this`activeLeases, this`model
      ensures Linked()
      ensures model == Grant(W(), old(model), target, now)
      ensures Some(granted) == GrantedLease(W(), old(model), target, now)
    {
      ghost var machine := Grant(W(), model, target, now);
      var probe := ProbeIfHalfOpen(providerRecord, targetRecord, target, now);
      assert providerRecord.Value() == machine.records[ProviderDomain(target.provider)];
      assert targetRecord.Value() == machine.records[TargetDomain(target.alias)];
      granted := HealthLease(
        tokens, target.provider, target.alias, revision, now, probe,
        providerRecord.generation, targetRecord.generation);
      GrantFields(W(), model, target, now, granted);
      hide Hold, Shape, Grant, GrantedLease, Admissible, ProbedDomain;
      activeLeases := activeLeases[tokens := granted];
      tokens := tokens + 1;
      model := machine;
    }

    static lemma GrantFields(w: World, s: Registry, target: ModelTarget, now: Time, granted: HealthLease)
      requires w.Domains() <= s.records.Keys && Admissible(w, s, target, now)
      requires var g := Grant(w, s, target, now);
        granted == HealthLease(
          s.nextToken, target.provider, target.alias, g.revision, now, ProbedDomain(s, target, now).Some?,
          g.records[ProviderDomain(target.provider)].generation, g.records[TargetDomain(target.alias)].generation)
      ensures var g := Grant(w, s, target, now);
        && g == Registry(g.records, s.active[s.nextToken := granted], g.revision, s.nextToken + 1)
        && GrantedLease(w, s, target, now) == Some(granted)
    {}

    method ProbeIfHalfOpen(providerRecord: DomainRecord, targetRecord: DomainRecord, target: ModelTarget, now: Time)
      returns (probe: bool)
      requires Linked() && Admissible(W(), model, target, now)
      requires Has(ProviderDomain(target.provider)) && providerRecord == At(ProviderDomain(target.provider))
      requires Has(TargetDomain(target.alias)) && targetRecord == At(TargetDomain(target.alias))
      modifies providerRecord, targetRecord, this`revision
      ensures Hold(Grant(W(), model, target, now).records)
      ensures revision == Grant(W(), model, target, now).revision
      ensures probe == ProbedDomain(model, target, now).Some?
    {
      hide HealthMachine.Apply, Effective;
      var providerState := providerRecord.EffectiveState(now);
      var targetState := targetRecord.EffectiveState(now);
      probe := providerState == HalfOpen || targetState == HalfOpen;
      if providerState == HalfOpen {
        TakeProbe(providerRecord, tokens);
      } else if targetState == HalfOpen {
        TakeProbe(targetRecord, tokens);
      }
    }

    method Record(lease: HealthLease, outcome: AttemptOutcome)
      requires Valid()
      modifies Repr
      ensures Valid() && history == old(history) + [RecordOp(lease, outcome)]
      ensures model == Settle(W(), old(model), lease, outcome)
    {
      HistoryGrows(W(), history, RecordOp(lease, outcome));
      LeaseIsKnown(lease);
      ApplyOutcome(lease, outcome);
      history := history + [RecordOp(lease, outcome)];
    }

    method ApplyOutcome(lease: HealthLease, outcome: AttemptOutcome)
      requires Linked() && (Genuine(model, lease) ==> Has(ProviderOf(lease)) && Has(TargetOf(lease)))
      modifies Repr - {this}, this`revision, this`activeLeases, this`model
      ensures Linked()
      ensures model == Settle(W(), old(model), lease, outcome)
    {
      if lease.token !in activeLeases {
        assert model.active - {lease.token} == model.active;
        return;
      }
      SettleIfGenuine(lease, outcome, activeLeases[lease.token]);
      hide Hold, Shape;
      activeLeases := activeLeases - {lease.token};
      model := Settle(W(), model, lease, outcome);
    }

    method SettleIfGenuine(lease: HealthLease, outcome: AttemptOutcome, active: HealthLease)
      requires Linked() && lease.token in model.active && active == model.active[lease.token]
      requires Genuine(model, lease) ==> Has(ProviderOf(lease)) && Has(TargetOf(lease))
      modifies Repr - {this}, this`revision
      ensures Hold(Settle(W(), model, lease, outcome).records)
      ensures revision == Settle(W(), model, lease, outcome).revision
    {
      DroppedLease(model, lease, outcome);
      hide Settle;
      if active == lease && lease.provider in providers && lease.targetAlias in targetRecords {
        SettleGenuine(providers[lease.provider], targetRecords[lease.targetAlias], lease, outcome);
      }
    }

    lemma DroppedLease(s: Registry, lease: HealthLease, outcome: AttemptOutcome)
      ensures var s' := Settle(W(), s, lease, outcome);
        && s'.active == s.active - {lease.token}
        && s'.nextToken == s.nextToken
        && (!Genuine(s, lease) ==> s'.records == s.records && s'.revision == s.revision)
        && (lease.token !in s.active ==> s' == s)
    {
      if lease.token !in s.active {
        assert s.active - {lease.token} == s.active;
      }
    }

    /** Both records of an active lease move to the machine's next state. */
    method SettleGenuine(providerRecord: DomainRecord, targetRecord: DomainRecord, lease: HealthLease,
                         outcome: AttemptOutcome)
      requires Shape() && Hold(model.records) && Genuine(model, lease)
      requires Has(ProviderOf(lease)) && providerRecord == At(ProviderOf(lease))
      requires Has(TargetOf(lease)) && targetRecord == At(TargetOf(lease))
      modifies providerRecord, targetRecord, this`revision
      ensures Hold(Settle(W(), model, lease, outcome).records)
      ensures revision - old(revision) == Settle(W(), model, lease, outcome).revision - model.revision
    {
      ghost var p, t := ProviderOf(lease), TargetOf(lease);
      SettleRecords(providerRecord, targetRecord, lease, outcome, model);
      hide Settle;
      forall d | Has(d) && d != p && d != t
        ensures At(d).Value() == Evolved(W(), model, lease, outcome, d)
      {
        assert At(d).Value() == model.records[d];
      }
      hide Evolved, Advance;
      SettledRecords(model, lease, outcome);
    }

    lemma SettledRecords(s: Registry, lease: HealthLease, outcome: AttemptOutcome)
      requires Genuine(s, lease)
      ensures var s' := Settle(W(), s, lease, outcome);
        && s'.records.Keys == s.records.Keys
        && (forall d | d in s.records :: s'.records[d] == Evolved(W(), s, lease, outcome, d))
        && s'.revision == s.revision + Advance(W(), s, lease, outcome, ProviderOf(lease))
                                     + Advance(W(), s, lease, outcome, TargetOf(lease))
    {}

    /** An active lease names a configured target and its provider. */
    lemma LeaseIsKnown(lease: HealthLease)
      requires Valid()
      ensures Genuine(model, lease) ==> Has(ProviderOf(lease)) && Has(TargetOf(lease))
    {
      ReachableInv(W(), history);
      if Genuine(model, lease) {
        assert ActiveOk(W(), model, lease.token);
        assert TargetOf(lease) in W().Domains() && ProviderOf(lease) in W().Domains();
      }
    }

    /** The part of record() that follows the staleness checks. */
    method SettleRecords(providerRecord: DomainRecord, targetRecord: DomainRecord, lease: HealthLease,
                         outcome: AttemptOutcome, ghost s: Registry)
      requires providerRecord != targetRecord
      requires ProviderOf(lease) in s.records && s.records[ProviderOf(lease)] == providerRecord.Value()
      requires TargetOf(lease) in s.records && s.records[TargetOf(lease)] == targetRecord.Value()
      modifies providerRecord, targetRecord, this`revision
      ensures providerRecord.Value() == Evolved(W(), s, lease, outcome, ProviderOf(lease))
      ensures targetRecord.Value() == Evolved(W(), s, lease, outcome, TargetOf(lease))
      ensures revision == old(revision) + Advance(W(), s, lease, outcome, ProviderOf(lease))
                                        + Advance(W(), s, lease, outcome, TargetOf(lease))
    {
      ghost var p, t := EventFor(s, lease, outcome, ProviderOf(lease)), EventFor(s, lease, outcome, TargetOf(lease));
      var providerCurrent := providerRecord.generation == lease.providerGeneration;
      var targetCurrent := targetRecord.generation == lease.targetGeneration;
      var failureClass := outcome.failureClass;
      if failureClass == Success {
        if providerCurrent {
          Reset(providerRecord);
        }
        if targetCurrent {
          Reset(targetRecord);
        }
      } else if failureClass in {ProviderTransient, PostCommitStreamFailure} && providerCurrent {
        TransientFailure(providerRecord, outcome, lease.token);
      } else if failureClass == TargetTransient && targetCurrent {
        TransientFailure(targetRecord, outcome, lease.token);
      } else if failureClass == ProviderPermanent && providerCurrent {
        PermanentFailure(providerRecord);
      } else if failureClass == TargetPermanent && targetCurrent {
        PermanentFailure(targetRecord);
      } else {
        if providerCurrent {
          ReleaseToken(providerRecord, lease.token);
        }
        if targetCurrent {
          ReleaseToken(targetRecord, lease.token);
        }
      }
    }

    // ---------------------------------------------------------------- snapshot

    method AvailabilityOf(target: ModelTarget, now: Time) returns (r: TargetAvailability)
      requires Linked() && target.alias in targets && targets[target.alias] == target
      ensures r == Availability(model, target, now)
    {
      assert TargetDomain(target.alias) in W().Domains();
      assert Has(ProviderDomain(target.provider)) && Has(TargetDomain(target.alias));
      var provider := providers[target.provider];
      var record := targetRecords[target.alias];
      var providerState := provider.EffectiveState(now);
      var targetState := record.EffectiveState(now);
      if providerState == Blocked {
        return TargetAvailability(false, providerState, ReasonProviderBlocked, None, None, None);
      }
      if providerState == Cooldown || (providerState == HalfOpen && provider.halfOpenToken.Some?) {
        return TargetAvailability(false, providerState, ReasonProviderCooldown, RetryAt(provider.Value(), now),
                                  None, None);
      }
      if targetState == Blocked {
        return TargetAvailability(false, targetState, ReasonTargetBlocked, None, None, None);
      }
      if targetState == Cooldown || (targetState == HalfOpen && record.halfOpenToken.Some?) {
        return TargetAvailability(false, targetState, ReasonTargetCooldown, RetryAt(record.Value(), now), None, None);
      }
      if providerState == HalfOpen {
        return TargetAvailability(true, HalfOpen, ReasonProbeEligible, None, Some(ProviderScope),
                                  Some(target.provider));
      }
      if targetState == HalfOpen {
        return TargetAvailability(true, HalfOpen, ReasonProbeEligible, None, Some(TargetScope), Some(target.alias));
      }
      return TargetAvailability(true, Healthy, ReasonHealthy, None, None, None);
    }

    static lemma EarliestStep(states: map<string, TargetAvailability>, earliest: Option<Time>, alias: string,
                              r: TargetAvailability)
      requires EarliestOf(states, earliest) && alias !in states
      ensures EarliestOf(states[alias := r],
        if r.retryAt.Some? && (earliest.None? || r.retryAt.value < earliest.value) then r.retryAt else earliest)
    {
      var states' := states[alias := r];
      if r.retryAt.Some? && (earliest.None? || r.retryAt.value < earliest.value) {
        assert states'[alias].retryAt == Some(r.retryAt.value);
      } else if earliest.Some? {
        var a :| a in states && states[a].retryAt == Some(earliest.value);
        assert a in states' && states'[a] == states[a];
      }
    }

    method Snapshot(now: Time) returns (snap: AvailabilitySnapshot)
      requires Valid()
      ensures IsSnapshot(W(), model, now, snap)
    {
      var states: map<string, TargetAvailability> := map[];
      var earliest: Option<Time> := None;
      var todo := targets.Keys;
      while todo != {}
        invariant todo <= targets.Keys && states.Keys == targets.Keys - todo
        invariant forall a | a in states :: states[a] == Availability(model, targets[a], now)
        invariant EarliestOf(states, earliest)
      {
        var alias :| alias in todo;
        var r := AvailabilityOf(targets[alias], now);
        EarliestStep(states, earliest, alias, r);
        if r.retryAt.Some? && (earliest.None? || r.retryAt.value < earliest.value) {
          earliest := r.retryAt;
        }
        states := states[alias := r];
        todo := todo - {alias};
      }
      snap := AvailabilitySnapshot(revision, now, states, earliest);
    }
  }
}
