/**
 Failure domains of different providers do not influence each other: a run seen
 from one provider is the run of that provider's calls alone, up to the names of
 lease tokens.
 */
module HealthIsolation {
  import opened Prelude
  import opened Domain
  import opened HealthModels
  import opened HealthMachine

  /** A caller's own name for the lease it asked for. */
  datatype Handle = Handle(provider: string, id: nat)

  /** Calls as callers write them: leases are referred to by handle, not by token. */
  datatype Call =
    | AcquireCall(id: nat, target: ModelTarget, now: Time)
    | RecordCall(handle: Handle, outcome: AttemptOutcome)

  function ProviderOfCall(call: Call): string {
    match call
    case AcquireCall(_, target, _) => target.provider
    case RecordCall(handle, _) => handle.provider
  }

  datatype Deployment = Deployment(registry: Registry, held: map<Handle, HealthLease>)

  function Perform(w: World, x: Deployment, call: Call): (y: Deployment)
    requires w.Domains() <= x.registry.records.Keys
    ensures y.registry.records.Keys == x.registry.records.Keys
  {
    match call
    case AcquireCall(id, target, now) =>
      var lease := GrantedLease(w, x.registry, target, now);
      var h := Handle(target.provider, id);
      Deployment(Acquire(w, x.registry, target, now),
                 if lease.Some? then x.held[h := lease.value] else x.held - {h})
    case RecordCall(handle, outcome) =>
      if handle in x.held then x.(registry := Settle(w, x.registry, x.held[handle], outcome)) else x
  }

  function PerformAll(w: World, calls: seq<Call>): (y: Deployment)
    ensures y.registry.records.Keys == w.Domains()
    decreases |calls|
  {
    if calls == [] then Deployment(Initial(w), map[])
    else Perform(w, PerformAll(w, calls[..|calls| - 1]), calls[|calls| - 1])
  }

  /** The calls of a run that concern one provider. */
  function Restrict(calls: seq<Call>, provider: string): seq<Call>
    decreases |calls|
  {
    if calls == [] then []
    else
      var last := calls[|calls| - 1];
      Restrict(calls[..|calls| - 1], provider) + if ProviderOfCall(last) == provider then [last] else []
  }

  predicate Belongs(w: World, d: DomainKey, provider: string) {
    match d
    case ProviderDomain(name) => name == provider
    case TargetDomain(alias) => alias in w.catalog && w.catalog[alias].provider == provider
  }

  // ----------------------------------------------------------------- renaming

  predicate SameToken(rho: map<nat, nat>, t: Option<nat>, t': Option<nat>) {
    match t
    case None => t' == None
    case Some(k) => k in rho && t' == Some(rho[k])
  }

  predicate SameRecord(rho: map<nat, nat>, r: Record, r': Record) {
    r.(token := None) == r'.(token := None) && SameToken(rho, r.token, r'.token)
  }

  predicate SameLease(rho: map<nat, nat>, l: HealthLease, l': HealthLease) {
    l.token in rho && l' == l.(token := rho[l.token], snapshotRevision := l'.snapshotRevision)
  }

  ghost predicate Injective(rho: map<nat, nat>) {
    forall a, b | a in rho && b in rho && rho[a] == rho[b] :: a == b
  }

  ghost predicate Honest(w: World, x: Deployment, h: Handle)
    requires h in x.held
  {
    var lease := x.held[h];
    && lease.provider == h.provider
    && lease.targetAlias in w.catalog
    && w.catalog[lease.targetAlias].provider == lease.provider
    && lease.token < x.registry.nextToken
    && (lease.token in x.registry.active ==> x.registry.active[lease.token] == lease)
  }

  ghost predicate AllHonest(w: World, x: Deployment) {
    x.registry.records.Keys == w.Domains() && forall h | h in x.held :: Honest(w, x, h)
  }

  /** The renaming covers exactly provider p's leases and keeps which of them are active. */
  ghost predicate TokensAlike(p: string, x: Deployment, y: Deployment, rho: map<nat, nat>) {
    && Injective(rho)
    && (forall k | k in rho :: k < x.registry.nextToken && rho[k] < y.registry.nextToken)
    && (forall k | k in rho :: k in x.registry.active <==> rho[k] in y.registry.active)
    && (forall h | h in x.held && h.provider != p :: x.held[h].token !in rho)
  }

  ghost predicate LeasesAlike(p: string, x: Deployment, y: Deployment, rho: map<nat, nat>) {
    && (forall h: Handle | h.provider == p :: h in x.held <==> h in y.held)
    && (forall h | h in x.held && h in y.held && h.provider == p :: SameLease(rho, x.held[h], y.held[h]))
  }

  ghost predicate RecordsAlike(w: World, p: string, x: Deployment, y: Deployment, rho: map<nat, nat>)
    requires x.registry.records.Keys == y.registry.records.Keys == w.Domains()
  {
    forall d | d in w.Domains() && Belongs(w, d, p) :: SameRecord(rho, x.registry.records[d], y.registry.records[d])
  }

  ghost predicate Alike(w: World, p: string, x: Deployment, y: Deployment, rho: map<nat, nat>) {
    && AllHonest(w, x)
    && AllHonest(w, y)
    && TokensAlike(p, x, y, rho)
    && LeasesAlike(p, x, y, rho)
    && RecordsAlike(w, p, x, y, rho)
  }

  /** The token names of provider p's leases in the whole run, and in p's run alone. */
  function Renaming(w: World, p: string, calls: seq<Call>): map<nat, nat>
    decreases |calls|
  {
    if calls == [] then map[]
    else
      var init, last := calls[..|calls| - 1], calls[|calls| - 1];
      var x := PerformAll(w, init).registry;
      if last.AcquireCall? && last.target.provider == p && GrantedLease(w, x, last.target, last.now).Some?
      then Renaming(w, p, init)[x.nextToken := PerformAll(w, Restrict(init, p)).registry.nextToken]
      else Renaming(w, p, init)
  }

  // -------------------------------------------------------------- other providers

  lemma PerformKeepsHonest(w: World, x: Deployment, call: Call)
    requires w.Valid() && AllHonest(w, x)
    ensures AllHonest(w, Perform(w, x, call))
  {
    var x' := Perform(w, x, call);
    forall h | h in x'.held
      ensures Honest(w, x', h)
    {
      if h in x.held { assert Honest(w, x, h); }
    }
  }

  lemma OtherRecords(w: World, p: string, x: Deployment, call: Call, d: DomainKey)
    requires w.Valid() && AllHonest(w, x) && ProviderOfCall(call) != p
    requires d in w.Domains() && Belongs(w, d, p)
    ensures Perform(w, x, call).registry.records[d] == x.registry.records[d]
  {
    if call.RecordCall? && call.handle in x.held {
      assert Honest(w, x, call.handle);
    }
  }

  lemma OtherTokens(w: World, p: string, x: Deployment, y: Deployment, rho: map<nat, nat>, call: Call)
    requires w.Valid() && AllHonest(w, x) && ProviderOfCall(call) != p && TokensAlike(p, x, y, rho)
    ensures TokensAlike(p, Perform(w, x, call), y, rho)
  {}

  lemma OtherProvider(w: World, p: string, x: Deployment, y: Deployment, rho: map<nat, nat>, call: Call)
    requires w.Valid() && Alike(w, p, x, y, rho) && ProviderOfCall(call) != p
    ensures Alike(w, p, Perform(w, x, call), y, rho)
  {
    PerformKeepsHonest(w, x, call);
    OtherTokens(w, p, x, y, rho, call);
    forall d | d in w.Domains() && Belongs(w, d, p)
      ensures SameRecord(rho, Perform(w, x, call).registry.records[d], y.registry.records[d])
    {
      OtherRecords(w, p, x, call, d);
    }
  }

  // ------------------------------------------------------------- the same provider

  lemma SameApply(c: HealthConfig, rho: map<nat, nat>, r: Record, r': Record, k: nat, e: DomainEvent, e': DomainEvent)
    requires Injective(rho) && SameRecord(rho, r, r') && k in rho
    requires match e
      case FailedTransiently(at, retryAfter, token) => token == k && e' == FailedTransiently(at, retryAfter, rho[k])
      case Released(token) => token == k && e' == Released(rho[k])
      case ProbeAdmitted(token) => token == k && e' == ProbeAdmitted(rho[k])
      case _ => e' == e
    ensures SameRecord(rho, Apply(c, r, e), Apply(c, r', e'))
  {
    assert r.token == Some(k) <==> r'.token == Some(rho[k]);
  }

  lemma SameAdmission(w: World, p: string, x: Deployment, y: Deployment, rho: map<nat, nat>, target: ModelTarget,
                      now: Time)
    requires w.Valid() && x.registry.records.Keys == y.registry.records.Keys == w.Domains()
    requires RecordsAlike(w, p, x, y, rho) && target.provider == p
    ensures Admissible(w, x.registry, target, now) <==> Admissible(w, y.registry, target, now)
    ensures Admissible(w, x.registry, target, now) ==>
      ProbedDomain(x.registry, target, now) == ProbedDomain(y.registry, target, now)
  {
    if w.Knows(target) {
      var pd, td := ProviderDomain(p), TargetDomain(target.alias);
      assert pd in w.Domains() && td in w.Domains() && Belongs(w, pd, p) && Belongs(w, td, p);
    }
  }

  lemma ExtendRenaming(rho: map<nat, nat>, k: nat, k': nat)
    requires Injective(rho) && k !in rho && forall a | a in rho :: rho[a] != k'
    ensures Injective(rho[k := k'])
    ensures forall r, r' | SameRecord(rho, r, r') :: SameRecord(rho[k := k'], r, r')
    ensures forall l, l' | SameLease(rho, l, l') :: SameLease(rho[k := k'], l, l')
  {}

  lemma SameGrantedRecord(w: World, p: string, x: Deployment, y: Deployment, rho: map<nat, nat>, target: ModelTarget,
                          now: Time, d: DomainKey)
    requires w.Valid() && x.registry.records.Keys == y.registry.records.Keys == w.Domains()
    requires TokensAlike(p, x, y, rho) && target.provider == p
    requires Admissible(w, x.registry, target, now) && Admissible(w, y.registry, target, now)
    requires ProbedDomain(x.registry, target, now) == ProbedDomain(y.registry, target, now)
    requires d in w.Domains() && SameRecord(rho, x.registry.records[d], y.registry.records[d])
    ensures SameRecord(rho[x.registry.nextToken := y.registry.nextToken],
              Grant(w, x.registry, target, now).records[d], Grant(w, y.registry, target, now).records[d])
  {
    var k, k' := x.registry.nextToken, y.registry.nextToken;
    ExtendRenaming(rho, k, k');
    if ProbedDomain(x.registry, target, now) == Some(d) {
      SameApply(w.config, rho[k := k'], x.registry.records[d], y.registry.records[d], k, ProbeAdmitted(k),
                ProbeAdmitted(k'));
    }
  }

  lemma SameGrantedLease(w: World, p: string, x: Deployment, y: Deployment, rho: map<nat, nat>, target: ModelTarget,
                         now: Time)
    requires w.Valid() && x.registry.records.Keys == y.registry.records.Keys == w.Domains()
    requires TokensAlike(p, x, y, rho) && RecordsAlike(w, p, x, y, rho) && target.provider == p
    requires Admissible(w, x.registry, target, now) && Admissible(w, y.registry, target, now)
    requires ProbedDomain(x.registry, target, now) == ProbedDomain(y.registry, target, now)
    ensures SameLease(rho[x.registry.nextToken := y.registry.nextToken],
              GrantedLease(w, x.registry, target, now).value, GrantedLease(w, y.registry, target, now).value)
  {
    var pd, td := ProviderDomain(p), TargetDomain(target.alias);
    assert Belongs(w, pd, p) && Belongs(w, td, p) && pd in w.Domains() && td in w.Domains();
    SameGrantedRecord(w, p, x, y, rho, target, now, pd);
    SameGrantedRecord(w, p, x, y, rho, target, now, td);
  }

  lemma ExtendTokens(p: string, x: Deployment, y: Deployment, x': Deployment, y': Deployment, rho: map<nat, nat>)
    requires TokensAlike(p, x, y, rho)
    requires x'.registry.nextToken == x.registry.nextToken + 1 && y'.registry.nextToken == y.registry.nextToken + 1
    requires x'.registry.active.Keys == x.registry.active.Keys + {x.registry.nextToken}
    requires y'.registry.active.Keys == y.registry.active.Keys + {y.registry.nextToken}
    requires forall h | h in x'.held && h.provider != p ::
      h in x.held && x'.held[h] == x.held[h] && x.held[h].token != x.registry.nextToken
    ensures TokensAlike(p, x', y', rho[x.registry.nextToken := y.registry.nextToken])
  {
    var k, k' := x.registry.nextToken, y.registry.nextToken;
    var rho' := rho[k := k'];
    ExtendRenaming(rho, k, k');
    forall a | a in rho'
      ensures a in x'.registry.active <==> rho'[a] in y'.registry.active
    {
      if a != k {
        assert a in x.registry.active <==> rho[a] in y.registry.active;
      }
    }
  }

  lemma SameGrantedTokens(w: World, p: string, x: Deployment, y: Deployment, rho: map<nat, nat>, id: nat,
                          target: ModelTarget, now: Time)
    requires w.Valid() && AllHonest(w, x) && AllHonest(w, y) && TokensAlike(p, x, y, rho) && target.provider == p
    requires Admissible(w, x.registry, target, now) && Admissible(w, y.registry, target, now)
    ensures TokensAlike(p, Perform(w, x, AcquireCall(id, target, now)), Perform(w, y, AcquireCall(id, target, now)),
                        rho[x.registry.nextToken := y.registry.nextToken])
  {
    var x', y' := Perform(w, x, AcquireCall(id, target, now)), Perform(w, y, AcquireCall(id, target, now));
    forall h | h in x'.held && h.provider != p
      ensures h in x.held && x'.held[h] == x.held[h] && x.held[h].token != x.registry.nextToken
    {
      assert h in x.held && Honest(w, x, h);
    }
    ExtendTokens(p, x, y, x', y', rho);
  }

  lemma SameGrantedLeases(w: World, p: string, x: Deployment, y: Deployment, rho: map<nat, nat>, id: nat,
                          target: ModelTarget, now: Time)
    requires w.Valid() && x.registry.records.Keys == y.registry.records.Keys == w.Domains()
    requires TokensAlike(p, x, y, rho) && RecordsAlike(w, p, x, y, rho) && LeasesAlike(p, x, y, rho)
    requires target.provider == p
    requires Admissible(w, x.registry, target, now) && Admissible(w, y.registry, target, now)
    requires ProbedDomain(x.registry, target, now) == ProbedDomain(y.registry, target, now)
    ensures LeasesAlike(p, Perform(w, x, AcquireCall(id, target, now)), Perform(w, y, AcquireCall(id, target, now)),
                        rho[x.registry.nextToken := y.registry.nextToken])
  {
    ExtendRenaming(rho, x.registry.nextToken, y.registry.nextToken);
    SameGrantedLease(w, p, x, y, rho, target, now);
  }

  lemma SameProviderAcquire(w: World, p: string, x: Deployment, y: Deployment, rho: map<nat, nat>, id: nat,
                            target: ModelTarget, now: Time)
    requires w.Valid() && Alike(w, p, x, y, rho) && target.provider == p
    requires Admissible(w, x.registry, target, now) && Admissible(w, y.registry, target, now)
    requires ProbedDomain(x.registry, target, now) == ProbedDomain(y.registry, target, now)
    ensures Alike(w, p, Perform(w, x, AcquireCall(id, target, now)), Perform(w, y, AcquireCall(id, target, now)),
                  rho[x.registry.nextToken := y.registry.nextToken])
  {
    var call := AcquireCall(id, target, now);
    PerformKeepsHonest(w, x, call);
    PerformKeepsHonest(w, y, call);
    SameGrantedTokens(w, p, x, y, rho, id, target, now);
    SameGrantedLeases(w, p, x, y, rho, id, target, now);
    forall d | d in w.Domains() && Belongs(w, d, p)
      ensures SameRecord(rho[x.registry.nextToken := y.registry.nextToken],
                Perform(w, x, call).registry.records[d], Perform(w, y, call).registry.records[d])
    {
      SameGrantedRecord(w, p, x, y, rho, target, now, d);
    }
  }

  lemma SameCurrency(w: World, p: string, x: Deployment, y: Deployment, rho: map<nat, nat>, l: HealthLease,
                     l': HealthLease)
    requires x.registry.records.Keys == y.registry.records.Keys == w.Domains() && RecordsAlike(w, p, x, y, rho)
    requires l.provider == p && l.targetAlias in w.catalog && w.catalog[l.targetAlias].provider == p
    requires SameLease(rho, l, l')
    ensures Current(x.registry, l, ProviderOf(l)) <==> Current(y.registry, l', ProviderOf(l'))
    ensures Current(x.registry, l, TargetOf(l)) <==> Current(y.registry, l', TargetOf(l'))
  {
    assert Belongs(w, ProviderOf(l), p) && Belongs(w, TargetOf(l), p);
    assert TargetOf(l) in w.Domains() && ProviderOf(l) in w.Domains();
  }

  lemma SameSettledRecord(w: World, rho: map<nat, nat>, s: Registry, s': Registry, l: HealthLease, l': HealthLease,
                          outcome: AttemptOutcome, d: DomainKey)
    requires d in s.records && d in s'.records && SameRecord(rho, s.records[d], s'.records[d])
    requires Injective(rho) && SameLease(rho, l, l')
    requires Current(s, l, ProviderOf(l)) <==> Current(s', l', ProviderOf(l'))
    requires Current(s, l, TargetOf(l)) <==> Current(s', l', TargetOf(l'))
    ensures SameRecord(rho, Evolved(w, s, l, outcome, d), Evolved(w, s', l', outcome, d))
  {
    var e, e' := EventFor(s, l, outcome, d), EventFor(s', l', outcome, d);
    assert e.Some? <==> e'.Some?;
    if e.Some? {
      SameApply(w.config, rho, s.records[d], s'.records[d], l.token, e.value, e'.value);
    }
  }

  lemma SameProviderRecord(w: World, p: string, x: Deployment, y: Deployment, rho: map<nat, nat>, h: Handle,
                           outcome: AttemptOutcome)
    requires w.Valid() && Alike(w, p, x, y, rho) && h.provider == p && h in x.held && h in y.held
    ensures Alike(w, p, Perform(w, x, RecordCall(h, outcome)), Perform(w, y, RecordCall(h, outcome)), rho)
  {
    var x', y' := Perform(w, x, RecordCall(h, outcome)), Perform(w, y, RecordCall(h, outcome));
    var l, l' := x.held[h], y.held[h];
    assert Honest(w, x, h) && Honest(w, y, h) && SameLease(rho, l, l');
    assert Genuine(x.registry, l) <==> Genuine(y.registry, l');
    PerformKeepsHonest(w, x, RecordCall(h, outcome));
    PerformKeepsHonest(w, y, RecordCall(h, outcome));
    SameCurrency(w, p, x, y, rho, l, l');
    forall d | d in w.Domains() && Belongs(w, d, p)
      ensures SameRecord(rho, x'.registry.records[d], y'.registry.records[d])
    {
      SameSettledRecord(w, rho, x.registry, y.registry, l, l', outcome, d);
    }
  }

  lemma SameProvider(w: World, p: string, x: Deployment, y: Deployment, rho: map<nat, nat>, call: Call)
    requires w.Valid() && Alike(w, p, x, y, rho) && ProviderOfCall(call) == p
    ensures Alike(w, p, Perform(w, x, call), Perform(w, y, call),
              if call.AcquireCall? && GrantedLease(w, x.registry, call.target, call.now).Some?
              then rho[x.registry.nextToken := y.registry.nextToken] else rho)
  {
    match call
    case AcquireCall(id, target, now) =>
      SameAdmission(w, p, x, y, rho, target, now);
      if Admissible(w, x.registry, target, now) {
        SameProviderAcquire(w, p, x, y, rho, id, target, now);
      } else {
        PerformKeepsHonest(w, x, call);
        PerformKeepsHonest(w, y, call);
      }
    case RecordCall(h, outcome) =>
      if h in x.held {
        SameProviderRecord(w, p, x, y, rho, h, outcome);
      }
  }

  // ------------------------------------------------------------------ theorems

  lemma {:induction false} IsolationInvariant(w: World, p: string, calls: seq<Call>)
    requires w.Valid()
    ensures Alike(w, p, PerformAll(w, calls), PerformAll(w, Restrict(calls, p)), Renaming(w, p, calls))
    decreases |calls|
  {
    if calls != [] {
      var init, last := calls[..|calls| - 1], calls[|calls| - 1];
      IsolationInvariant(w, p, init);
      var x, y := PerformAll(w, init), PerformAll(w, Restrict(init, p));
      if ProviderOfCall(last) == p {
        SameProvider(w, p, x, y, Renaming(w, p, init), last);
        assert (Restrict(init, p) + [last])[..|Restrict(init, p)|] == Restrict(init, p);
      } else {
        OtherProvider(w, p, x, y, Renaming(w, p, init), last);
        assert Restrict(calls, p) == Restrict(init, p);
      }
    }
  }

  /** Deleting every call on other providers from a run leaves the records of
      provider p and of its targets the same up to an injective renaming of tokens,
      and the same callers hold leases on p. */
  lemma ProvidersAreIsolated(w: World, p: string, calls: seq<Call>)
    requires w.Valid()
    ensures var whole, alone, rho := PerformAll(w, calls), PerformAll(w, Restrict(calls, p)), Renaming(w, p, calls);
      && Injective(rho)
      && (forall d | d in w.Domains() && Belongs(w, d, p) ::
         SameRecord(rho, whole.registry.records[d], alone.registry.records[d]))
      && (forall h: Handle | h.provider == p :: h in whole.held <==> h in alone.held)
  {
    IsolationInvariant(w, p, calls);
  }

  lemma SameAvailability(rho: map<nat, nat>, s: Registry, s': Registry, target: ModelTarget, now: Time)
    requires ProviderDomain(target.provider) in s.records && ProviderDomain(target.provider) in s'.records
    requires TargetDomain(target.alias) in s.records && TargetDomain(target.alias) in s'.records
    requires SameRecord(rho, s.records[ProviderDomain(target.provider)], s'.records[ProviderDomain(target.provider)])
    requires SameRecord(rho, s.records[TargetDomain(target.alias)], s'.records[TargetDomain(target.alias)])
    ensures Availability(s, target, now) == Availability(s', target, now)
  {}

  /** In particular, what routing sees of provider p's targets does not depend on other providers. */
  lemma AvailabilityIsIsolated(w: World, p: string, calls: seq<Call>, alias: string, now: Time)
    requires w.Valid() && alias in w.catalog && w.catalog[alias].provider == p
    ensures Availability(PerformAll(w, calls).registry, w.catalog[alias], now)
         == Availability(PerformAll(w, Restrict(calls, p)).registry, w.catalog[alias], now)
  {
    ProvidersAreIsolated(w, p, calls);
    assert Belongs(w, ProviderDomain(p), p) && Belongs(w, TargetDomain(alias), p);
    assert ProviderDomain(p) in w.Domains() && TargetDomain(alias) in w.Domains();
    SameAvailability(Renaming(w, p, calls), PerformAll(w, calls).registry, PerformAll(w, Restrict(calls, p)).registry,
                     w.catalog[alias], now);
  }
}
