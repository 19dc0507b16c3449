/** Routing and health together: the targets of one plan can all be admitted. */
module RoutingHealth {
  import opened Prelude
  import opened Domain
  import opened HealthModels
  import opened HealthMachine
  import opened HealthAdmission
  import opened RoutingPolicies
  import opened RoutingKernel
  import opened KernelTheorems

  /** Acquire each target in order, at one instant, with no other call between. */
  function AcquireAll(targets: seq<ModelTarget>, now: Time): seq<Op> {
    seq(|targets|, i requires 0 <= i < |targets| => AcquireOp(targets[i], now))
  }

  predicate SameDomains(s: Registry, s': Registry, target: ModelTarget) {
    var p, t := ProviderDomain(target.provider), TargetDomain(target.alias);
    && p in s.records && p in s'.records && s.records[p] == s'.records[p]
    && t in s.records && t in s'.records && s.records[t] == s'.records[t]
  }

  /** The snapshot's entry for one configured target. */
  ghost predicate Seen(w: World, s: Registry, now: Time, snap: AvailabilitySnapshot, a: ModelTarget)
    requires w.Domains() <= s.records.Keys
  {
    && w.Knows(a)
    && a.alias in snap.targetStates
    && snap.targetStates[a.alias] == Availability(s, a, now)
    && Usable(a, snap)
  }

  lemma SeenProbe(w: World, s: Registry, now: Time, snap: AvailabilitySnapshot, a: ModelTarget)
    requires w.Domains() <= s.records.Keys && Seen(w, s, now, snap, a)
    ensures Admissible(w, s, a, now)
    ensures ProbedDomain(s, a, now) ==
      match ProbeOf(a, snap)
      case None => None
      case Some(probe) =>
        Some(if probe.scope == ProviderScope then ProviderDomain(probe.key) else TargetDomain(probe.key))
    ensures ProbeOf(a, snap).Some? && ProbeOf(a, snap).value.scope == TargetScope ==>
      ProbeOf(a, snap).value.key == a.alias
    ensures Effective(s.records[ProviderDomain(a.provider)], now) == HalfOpen ==>
      ProbeOf(a, snap) == Some(ProbeDomain(ProviderScope, a.provider))
  {}

  /** Two targets that the kernel keeps apart never share a probed domain. */
  lemma ProbesDoNotCollide(w: World, s: Registry, now: Time, snap: AvailabilitySnapshot, a: ModelTarget, b: ModelTarget)
    requires w.Domains() <= s.records.Keys && Seen(w, s, now, snap, a) && Seen(w, s, now, snap, b)
    requires DifferentAliases(a, b) && ProbesApart(a, b, snap)
    ensures ProbedDomain(s, a, now) != Some(ProviderDomain(b.provider))
    ensures ProbedDomain(s, a, now) != Some(TargetDomain(b.alias))
  {
    SeenProbe(w, s, now, snap, a);
    SeenProbe(w, s, now, snap, b);
  }

  /** Admitting one target leaves alone the domains of another that the kernel keeps apart from it. */
  lemma OneAdmission(w: World, s: Registry, s1: Registry, now: Time, snap: AvailabilitySnapshot, a: ModelTarget,
                     b: ModelTarget)
    requires w.Domains() <= s.records.Keys && w.Domains() <= s1.records.Keys
    requires Seen(w, s, now, snap, a) && Seen(w, s, now, snap, b)
    requires DifferentAliases(a, b) && ProbesApart(a, b, snap)
    requires SameDomains(s, s1, a) && SameDomains(s, s1, b)
    ensures SameDomains(s, Acquire(w, s1, a, now), b)
  {
    ProbesDoNotCollide(w, s, now, snap, a, b);
    SeenProbe(w, s, now, snap, a);
    assert Admissible(w, s1, a, now) && ProbedDomain(s1, a, now) == ProbedDomain(s, a, now);
    GrantTakesProbe(w, s1, a, now);
  }

  lemma {:induction false} AdmissionsDoNotInterfere(w: World, s: Registry, now: Time, snap: AvailabilitySnapshot,
                                                    targets: seq<ModelTarget>, i: nat)
    requires w.Domains() <= s.records.Keys && i <= |targets|
    requires forall t | t in targets :: Seen(w, s, now, snap, t)
    requires Distinct(targets) && forall j, k | 0 <= j < k < |targets| :: ProbesApart(targets[j], targets[k], snap)
    ensures forall j | i <= j < |targets| :: SameDomains(s, Run(w, s, AcquireAll(targets[..i], now)), targets[j])
    decreases i
  {
    if i == 0 {
      assert AcquireAll(targets[..0], now) == [];
      forall j | 0 <= j < |targets|
        ensures SameDomains(s, s, targets[j])
      {
        assert Seen(w, s, now, snap, targets[j]);
        assert TargetDomain(targets[j].alias) in w.Domains();
      }
    } else {
      AdmissionsDoNotInterfere(w, s, now, snap, targets, i - 1);
      var a, ops := targets[i - 1], AcquireAll(targets[..i], now);
      assert ops[..|ops| - 1] == AcquireAll(targets[..i - 1], now);
      var s1 := Run(w, s, ops[..|ops| - 1]);
      assert Run(w, s, ops) == Acquire(w, s1, a, now);
      forall j | i <= j < |targets|
        ensures SameDomains(s, Run(w, s, ops), targets[j])
      {
        assert DifferentAliases(a, targets[j]) && ProbesApart(a, targets[j], snap);
        OneAdmission(w, s, s1, now, snap, a, targets[j]);
      }
    }
  }

  /** Joint admissibility: the targets of a plan built from a snapshot, acquired in
      order at the same instant, all get a lease. */
  lemma PlansAreJointlyAdmissible(w: World, s: Registry, now: Time, snap: AvailabilitySnapshot,
                                  policy: RoutingPolicy, request: RoutingRequest, session: Option<SessionSnapshot>,
                                  i: nat)
    requires w.Valid() && s.records.Keys == w.Domains() && IsSnapshot(w, s, now, snap)
    requires policy.Valid() && policy.targets == w.catalog
    requires PlanOf(policy, request, session, snap).Ok?
    requires i < |PlanOf(policy, request, session, snap).value.Targets()|
    ensures var targets := PlanOf(policy, request, session, snap).value.Targets();
      GrantedLease(w, Run(w, s, AcquireAll(targets[..i], now)), targets[i], now).Some?
  {
    hide Run, AcquireAll;
    PlanIsSound(policy, request, session, snap);
    var plan := PlanOf(policy, request, session, snap).value;
    var all := AllOf(plan);
    forall t | t in all ensures Seen(w, s, now, snap, t) {
      assert Configured(policy, request, session, t);
      assert snap.targetStates[t.alias] == Availability(s, w.catalog[t.alias], now);
    }
    hide Seen, Configured, PlanOf;
    AdmissionsDoNotInterfere(w, s, now, snap, all, i);
    assert all[..i] == plan.Targets()[..i] && all[i] in all;
    SeenProbe(w, s, now, snap, all[i]);
    assert SameDomains(s, Run(w, s, AcquireAll(all[..i], now)), all[i]);
  }
}
