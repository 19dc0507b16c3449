/** What a snapshot promises about admission. */
module HealthAdmission {
  import opened Prelude
  import opened Domain
  import opened HealthModels
  import opened HealthMachine
  import opened HealthSafety
  import opened HealthTheorems

  /** The failure domain a probe-eligible availability advertises. */
  function AdvertisedDomain(state: TargetAvailability): Option<DomainKey> {
    if state.probeScope.Some? && state.probeKey.Some? then
      Some(if state.probeScope.value == ProviderScope
           then ProviderDomain(state.probeKey.value) else TargetDomain(state.probeKey.value))
    else None
  }

  lemma AdmittedIsEligible(w: World, s: Registry, target: ModelTarget, now: Time)
    requires w.Domains() <= s.records.Keys && w.Knows(target)
    ensures GrantedLease(w, s, target, now).Some? <==> Availability(s, target, now).eligible
    ensures Availability(s, target, now).eligible ==>
      && AdvertisedDomain(Availability(s, target, now)) == ProbedDomain(s, target, now)
      && (ProbedDomain(s, target, now).Some? <==> Availability(s, target, now).state == HalfOpen)
  {}

  lemma GrantTakesProbe(w: World, s: Registry, target: ModelTarget, now: Time)
    requires w.Domains() <= s.records.Keys && Admissible(w, s, target, now)
    ensures var lease := GrantedLease(w, s, target, now).value; var probed := ProbedDomain(s, target, now);
      && (lease.probe <==> probed.Some?)
      && (forall d | d in s.records && Some(d) != probed :: Acquire(w, s, target, now).records[d] == s.records[d])
      && (probed.Some? ==> ProbeTaken(Acquire(w, s, target, now), probed.value, lease))
  {}

  ghost predicate ProbeTaken(s: Registry, d: DomainKey, lease: HealthLease) {
    d in s.records && s.records[d].state == HalfOpen && s.records[d].token == Some(lease.token)
  }

  /** A target is eligible in a snapshot iff acquiring it at that instant yields a
      lease; the lease is a probe iff a probe was advertised, and then the
      advertised domain is the one whose token is taken and the only one changed. */
  lemma SnapshotAgreesWithAdmission(w: World, s: Registry, now: Time, snap: AvailabilitySnapshot, alias: string)
    requires w.Valid() && s.records.Keys == w.Domains() && IsSnapshot(w, s, now, snap) && alias in w.catalog
    ensures snap.targetStates[alias].eligible <==> GrantedLease(w, s, w.catalog[alias], now).Some?
    ensures snap.targetStates[alias].eligible ==>
      var lease := GrantedLease(w, s, w.catalog[alias], now).value;
      var probed := AdvertisedDomain(snap.targetStates[alias]);
      var s' := Acquire(w, s, w.catalog[alias], now);
      && (lease.probe <==> snap.targetStates[alias].state == HalfOpen)
      && (lease.probe <==> probed.Some?)
      && (forall d | d in s.records && Some(d) != probed :: s'.records[d] == s.records[d])
      && (probed.Some? ==> ProbeTaken(s', probed.value, lease))
  {
    AdmittedIsEligible(w, s, w.catalog[alias], now);
    if snap.targetStates[alias].eligible {
      GrantTakesProbe(w, s, w.catalog[alias], now);
    }
  }

  lemma IneligibleStays(w: World, s: Registry, target: ModelTarget, now: Time, later: Time)
    requires ProviderDomain(target.provider) in s.records && TargetDomain(target.alias) in s.records
    requires RecordOk(w, s, s.records[ProviderDomain(target.provider)])
    requires RecordOk(w, s, s.records[TargetDomain(target.alias)])
    requires now <= later && !Availability(s, target, now).eligible
    requires Availability(s, target, now).retryAt.Some? ==> later < Availability(s, target, now).retryAt.value
    ensures !Availability(s, target, later).eligible
  {}

  /** With no call in between, no ineligible target of any reachable state becomes
      eligible before the advertised earliest recovery, nor ever if there is none. */
  lemma NoRecoveryBeforeEarliest(w: World, ops: seq<Op>, now: Time, snap: AvailabilitySnapshot, later: Time,
                                 alias: string)
    requires w.Valid() && IsSnapshot(w, From(w, ops), now, snap)
    requires now <= later && (snap.earliestRecoveryAt.Some? ==> later < snap.earliestRecoveryAt.value)
    requires alias in w.catalog && !snap.targetStates[alias].eligible
    ensures GrantedLease(w, From(w, ops), w.catalog[alias], later) == None
  {
    ReachableInv(w, ops);
    var s := From(w, ops);
    assert TargetDomain(alias) in w.Domains();
    assert snap.targetStates[alias] == Availability(s, w.catalog[alias], now);
    IneligibleStays(w, s, w.catalog[alias], now, later);
    AdmittedIsEligible(w, s, w.catalog[alias], later);
  }
}
