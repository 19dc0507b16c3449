/** Runs that show what the coordinator does not promise. */
module HealthExamples {
  import opened Prelude
  import opened Domain
  import opened HealthModels
  import opened HealthMachine
  import opened HealthTheorems

  // One target of one Provider; one failure opens a cooldown of two seconds, which doubles.
  const TARGET := ModelTarget("m", "p", "u", Fast, {}, 1, None, None, AnthropicMessages, None)
  const WORLD := World(HealthConfig(1, 10.0, 2.0, 8.0, 2.0), map["m" := TARGET])
  const P := ProviderDomain("p")
  const T := TargetDomain("m")

  lemma WorldIsValid()
    ensures WORLD.Valid() && WORLD.Domains() == {P, T}
  {
    assert forall a | a in WORLD.catalog :: a == "m";
    assert (set a | a in WORLD.catalog :: TargetDomain(a)) == {T};
    assert (set a | a in WORLD.catalog :: ProviderDomain(WORLD.catalog[a].provider)) == {P};
  }

  function Both(p: Record, t: Record): map<DomainKey, Record> {
    map[P := p, T := t]
  }

  ghost predicate Reaches(ops: seq<Op>, s: Registry) {
    From(WORLD, ops) == s
  }

  lemma OneMore(ops: seq<Op>, s: Registry, op: Op, s': Registry)
    requires WORLD.Valid() && Reaches(ops, s) && WORLD.Domains() <= s.records.Keys && Step(WORLD, s, op) == s'
    ensures Reaches(ops + [op], s')
  {
    assert (ops + [op])[..|ops|] == ops;
  }

  lemma Nothing()
    requires WORLD.Domains() == {P, T}
    ensures Reaches([], Registry(Both(FRESH, FRESH), map[], 0, 1))
  {}

  function Asked(at: Time): Op {
    AcquireOp(TARGET, at)
  }

  function Reported(lease: HealthLease, failureClass: FailureClass, at: Time): Op {
    RecordOp(lease, AttemptOutcome(failureClass, at, None))
  }

  const COOLING := Record(Cooldown, 0, None, Some(2.0), 1, None, 1)

  lemma AskHealthy(s: Registry)
    requires WORLD.Valid() && WORLD.Domains() == {P, T} && s.records == Both(FRESH, FRESH)
    ensures Step(WORLD, s, Asked(0.0)) == s.(
      active := s.active[s.nextToken := HealthLease(s.nextToken, "p", "m", s.revision, 0.0, false, 0, 0)],
      nextToken := s.nextToken + 1)
  {}

  lemma AskForProbe(s: Registry, t: Record)
    requires WORLD.Valid() && WORLD.Domains() == {P, T} && s.records == Both(COOLING, t) && t in {FRESH, COOLING}
    ensures Step(WORLD, s, Asked(2.0)) == Registry(
      Both(Record(HalfOpen, 0, None, None, 1, Some(s.nextToken), 2), t),
      s.active[s.nextToken := HealthLease(s.nextToken, "p", "m", s.revision + 1, 2.0, true, 2, t.generation)],
      s.revision + 1,
      s.nextToken + 1)
  {}

  lemma FirstFailure()
    ensures Apply(WORLD.config, FRESH, FailedTransiently(0.0, None, 1)) == COOLING
    ensures Apply(WORLD.config, FRESH, FailedTransiently(0.0, None, 2)) == COOLING
  {
    assert Power(2.0, 0) == 1.0;
  }

  // ------------------------------------------------------------------- an orphaned token

  const FIRST := HealthLease(1, "p", "m", 0, 0.0, false, 0, 0)
  const PROBE := HealthLease(2, "p", "m", 2, 2.0, true, 2, 0)
  const PROBING := [Asked(0.0), Reported(FIRST, ProviderTransient, 0.0), Asked(2.0)]

  const AFTER_PROBING :=
    Registry(Both(Record(HalfOpen, 0, None, None, 1, Some(2), 2), FRESH), map[2 := PROBE], 2, 3)

  lemma Probing()
    requires WORLD.Valid() && WORLD.Domains() == {P, T}
    ensures Reaches(PROBING, AFTER_PROBING)
  {
    hide Step, From, Reaches;
    var a, b, c := Asked(0.0), Reported(FIRST, ProviderTransient, 0.0), Asked(2.0);
    var s0 := Registry(Both(FRESH, FRESH), map[], 0, 1);
    var s1 := Registry(Both(FRESH, FRESH), map[1 := FIRST], 0, 2);
    var s2 := Registry(Both(COOLING, FRESH), map[], 1, 2);
    Nothing();
    AskHealthy(s0);
    OneMore([], s0, a, s1);
    ProviderFails(s1, map[]);
    OneMore([] + [a], s1, b, s2);
    AskForProbe(s2, FRESH);
    OneMore([] + [a] + [b], s2, c, AFTER_PROBING);
    assert PROBING == [] + [a] + [b] + [c];
  }

  lemma ProviderFails(s: Registry, others: map<nat, HealthLease>)
    requires WORLD.Valid() && s.records == Both(FRESH, FRESH) && s.active == others[1 := FIRST] && 1 !in others
    ensures Step(WORLD, s, Reported(FIRST, ProviderTransient, 0.0)) ==
      Registry(Both(COOLING, FRESH), others, s.revision + 1, s.nextToken)
  {
    FirstFailure();
    hide Apply;
    assert others[1 := FIRST] - {1} == others;
  }

  /** A token can be orphaned: a provider probe that is rate limited is charged to the
      target, and the provider keeps the token of a lease that is no longer active. */
  lemma ATokenIsOrphaned()
    ensures WORLD.Valid()
    ensures Orphaned(From(WORLD, PROBING + [Reported(PROBE, TargetTransient, 3.0)]), P)
  {
    WorldIsValid();
    Probing();
    var late := Reported(PROBE, TargetTransient, 3.0);
    OneMore(PROBING, AFTER_PROBING, late, Step(WORLD, AFTER_PROBING, late));
    hide From;
    assert Orphaned(Step(WORLD, AFTER_PROBING, late), P);
  }

  // ------------------------------------------------------------------ a quiet extension

  const SECOND := HealthLease(2, "p", "m", 0, 0.0, false, 0, 0)
  const LATE_PROBE := HealthLease(3, "p", "m", 3, 2.0, true, 2, 1)
  const BOTH_COOLING := [
    Asked(0.0), Asked(0.0),
    Reported(FIRST, ProviderTransient, 0.0), Reported(SECOND, TargetTransient, 0.0),
    Asked(2.0)]

  lemma TargetFails(s: Registry)
    requires WORLD.Valid() && s.records == Both(COOLING, FRESH) && s.active == map[2 := SECOND]
    ensures Step(WORLD, s, Reported(SECOND, TargetTransient, 0.0)) ==
      Registry(Both(COOLING, COOLING), map[], s.revision + 1, s.nextToken)
  {
    FirstFailure();
    hide Apply;
    assert map[2 := SECOND] - {2} == map[];
  }

  const AFTER_BOTH :=
    Registry(Both(Record(HalfOpen, 0, None, None, 1, Some(3), 2), COOLING), map[3 := LATE_PROBE], 3, 4)

  lemma BothCooling()
    requires WORLD.Valid() && WORLD.Domains() == {P, T}
    ensures Reaches(BOTH_COOLING, AFTER_BOTH)
  {
    hide Step, From, Reaches;
    var a, b, c, d :=
      Asked(0.0), Reported(FIRST, ProviderTransient, 0.0), Reported(SECOND, TargetTransient, 0.0), Asked(2.0);
    var s0 := Registry(Both(FRESH, FRESH), map[], 0, 1);
    var s1 := Registry(Both(FRESH, FRESH), map[1 := FIRST], 0, 2);
    var s2 := Registry(Both(FRESH, FRESH), map[1 := FIRST][2 := SECOND], 0, 3);
    var s3 := Registry(Both(COOLING, FRESH), map[2 := SECOND], 1, 3);
    var s4 := Registry(Both(COOLING, COOLING), map[], 2, 3);
    Nothing();
    AskHealthy(s0);
    OneMore([], s0, a, s1);
    AskHealthy(s1);
    OneMore([] + [a], s1, a, s2);
    assert s2.active == map[2 := SECOND][1 := FIRST];
    ProviderFails(s2, map[2 := SECOND]);
    OneMore([] + [a] + [a], s2, b, s3);
    TargetFails(s3);
    OneMore([] + [a] + [a] + [b], s3, c, s4);
    AskForProbe(s4, COOLING);
    OneMore([] + [a] + [a] + [b] + [c], s4, d, AFTER_BOTH);
    assert BOTH_COOLING == [] + [a] + [a] + [b] + [c] + [d];
  }

  lemma LateFailure()
    requires WORLD.Valid()
    ensures var s' := Step(WORLD, AFTER_BOTH, Reported(LATE_PROBE, TargetTransient, 3.0));
      && s'.records[T].cooldownUntil == Some(7.0) && s'.records[T].generation == COOLING.generation
      && s'.revision == AFTER_BOTH.revision && Orphaned(s', P)
  {
    assert Power(2.0, 1) == 2.0 * Power(2.0, 0);
  }

  /** A cooldown can be extended without any sign of it: the target's, over since two, now
      lasts until seven, at the same generation and revision. The provider's token is lost
      in the same call. */
  lemma CooldownIsExtendedQuietly()
    ensures WORLD.Valid() && WORLD.Domains() == {P, T}
    ensures var s := From(WORLD, BOTH_COOLING);
      var s' := From(WORLD, BOTH_COOLING + [Reported(LATE_PROBE, TargetTransient, 3.0)]);
      && s.records[T].cooldownUntil == Some(2.0) && s'.records[T].cooldownUntil == Some(7.0)
      && s'.records[T].generation == s.records[T].generation && s'.revision == s.revision
      && Orphaned(s', P)
  {
    WorldIsValid();
    BothCooling();
    LateFailure();
    var late := Reported(LATE_PROBE, TargetTransient, 3.0);
    hide Step, Orphaned;
    OneMore(BOTH_COOLING, AFTER_BOTH, late, Step(WORLD, AFTER_BOTH, late));
  }
}
