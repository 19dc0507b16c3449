/** Failure windows and backoff over the whole history of one failure domain. */
module HealthBackoff {
  import opened Prelude
  import opened HealthModels
  import opened HealthMachine
  import opened HealthSafety
  import opened HealthTheorems

  // -------------------------------------------------- the history of one domain

  /** The event one coordinator call is for one domain, if any. */
  function EventOf(w: World, s: Registry, op: Op, d: DomainKey): Option<DomainEvent>
    requires w.Domains() <= s.records.Keys
  {
    match op
    case AcquireOp(target, now) =>
      if Admissible(w, s, target, now) && ProbedDomain(s, target, now) == Some(d)
      then Some(ProbeAdmitted(s.nextToken)) else None
    case RecordOp(lease, outcome) =>
      if Genuine(s, lease) then EventFor(s, lease, outcome, d) else None
  }

  /** All events of d in a run, in order. */
  function History(w: World, ops: seq<Op>, d: DomainKey): seq<DomainEvent>
    decreases |ops|
  {
    if ops == [] then []
    else
      var init := ops[..|ops| - 1];
      var e := EventOf(w, From(w, init), ops[|ops| - 1], d);
      History(w, init, d) + if e.Some? then [e.value] else []
  }

  /** One domain replaying its own events. */
  function Replay(c: HealthConfig, events: seq<DomainEvent>): Record
    decreases |events|
  {
    if events == [] then FRESH else Apply(c, Replay(c, Before(events)), events[|events| - 1])
  }

  function Before<T>(xs: seq<T>): seq<T>
    requires xs != []
  {
    xs[..|xs| - 1]
  }

  /** Each domain of a coordinator run is the one-domain machine run on its own history. */
  lemma {:induction false} DomainsAreIndependentMachines(w: World, ops: seq<Op>, d: DomainKey)
    requires d in w.Domains()
    ensures From(w, ops).records[d] == Replay(w.config, History(w, ops, d))
    decreases |ops|
  {
    if ops != [] {
      var init, last := ops[..|ops| - 1], ops[|ops| - 1];
      DomainsAreIndependentMachines(w, init, d);
      var e := EventOf(w, From(w, init), last, d);
      if e.Some? {
        assert Before(History(w, ops, d)) == History(w, init, d);
      } else {
        assert History(w, ops, d) == History(w, init, d);
      }
    }
  }

  // ------------------------------------------------------------------- backoff

  /** The event starts, or extends, a cooldown: a charged failure that is not left counted. */
  predicate EntersCooldown(c: HealthConfig, r: Record, e: DomainEvent) {
    e.FailedTransiently? && Apply(c, r, e).failures == 0
  }

  /** The lengths of the cooldowns entered since the last success. */
  function Cooldowns(c: HealthConfig, events: seq<DomainEvent>): seq<Time>
    decreases |events|
  {
    if events == [] then []
    else
      var e, r := events[|events| - 1], Replay(c, Before(events));
      if e.Succeeded? then []
      else if EntersCooldown(c, r, e) && Apply(c, r, e).cooldownUntil.Some?
      then Cooldowns(c, Before(events)) + [Apply(c, r, e).cooldownUntil.value - e.at]
      else Cooldowns(c, Before(events))
  }

  lemma {:induction false} BackoffOfHistory(c: HealthConfig, events: seq<DomainEvent>)
    requires c.Valid()
    ensures var log := Cooldowns(c, events);
      && Replay(c, events).backoff == |log|
      && Replay(c, events).failures < c.failureThreshold
      && forall k | 0 <= k < |log| ::
           c.cooldown <= log[k] <= c.maxCooldown && log[k] >= MinReal(c.maxCooldown, Exponential(c, k))
    decreases |events|
  {
    hide Exponential, CooldownSeconds, MinReal;
    if events != [] {
      var e, r := events[|events| - 1], Replay(c, Before(events));
      BackoffOfHistory(c, Before(events));
      if e.FailedTransiently? {
        CooldownBounds(c, r.backoff, e.retryAfter);
      }
    }
  }

  /** Over every run, for every domain: the k-th cooldown since the last success
      (counting from 0) lasts between cooldown and max_cooldown, at least
      min(max_cooldown, cooldown * multiplier^k); the backoff level counts these
      cooldowns; and the failure count stays below the threshold. */
  lemma BackoffOverRuns(w: World, ops: seq<Op>, d: DomainKey)
    requires w.Valid() && d in w.Domains()
    ensures From(w, ops).records[d].failures < w.config.failureThreshold
    ensures var log := Cooldowns(w.config, History(w, ops, d));
      && From(w, ops).records[d].backoff == |log|
      && forall k | 0 <= k < |log| ::
           && w.config.cooldown <= log[k] <= w.config.maxCooldown
           && log[k] >= MinReal(w.config.maxCooldown, Exponential(w.config, k))
  {
    DomainsAreIndependentMachines(w, ops, d);
    BackoffOfHistory(w.config, History(w, ops, d));
  }

  // -------------------------------------------------------------------- window

  function TransientFailures(events: seq<DomainEvent>): nat
    decreases |events|
  {
    if events == [] then 0
    else TransientFailures(Before(events)) + if events[|events| - 1].FailedTransiently? then 1 else 0
  }

  /** From position j on, events is a streak of failures: it starts with one, none is
      later than the window anchored there, and nothing resets the count. */
  ghost predicate Streak(c: HealthConfig, events: seq<DomainEvent>, j: nat) {
    && j < |events|
    && events[j].FailedTransiently?
    && forall i | j <= i < |events| ::
         && !events[i].Succeeded?
         && !events[i].FailedPermanently?
         && (events[i].FailedTransiently? ==> events[i].at - events[j].at <= c.failureWindow)
  }

  /** Some streak that reaches the end of the history has exactly n failures, the first at the given time. */
  ghost predicate StreakOf(c: HealthConfig, events: seq<DomainEvent>, n: nat, start: Time) {
    exists j: nat :: Streak(c, events, j) && events[j].at == start && TransientFailures(events[j..]) == n
  }

  /** What the failure count of a record stands for. */
  ghost predicate CountsStreak(c: HealthConfig, events: seq<DomainEvent>, r: Record) {
    if r.windowStart.None? then r.failures == 0 else StreakOf(c, events, r.failures, r.windowStart.value)
  }

  lemma ExtendStreak(c: HealthConfig, events: seq<DomainEvent>, e: DomainEvent, j: nat)
    requires Streak(c, events, j) && !e.Succeeded? && !e.FailedPermanently?
    requires e.FailedTransiently? ==> e.at - events[j].at <= c.failureWindow
    ensures Streak(c, events + [e], j)
    ensures TransientFailures((events + [e])[j..]) ==
      TransientFailures(events[j..]) + if e.FailedTransiently? then 1 else 0
  {
    assert Before((events + [e])[j..]) == events[j..];
  }

  lemma StartStreak(c: HealthConfig, events: seq<DomainEvent>, e: DomainEvent)
    requires c.Valid() && e.FailedTransiently?
    ensures Streak(c, events + [e], |events|)
    ensures TransientFailures((events + [e])[|events|..]) == 1
  {
    assert (events + [e])[|events|..] == [e];
    assert Before([e]) == [];
  }

  lemma CountFailureStep(c: HealthConfig, events: seq<DomainEvent>, r: Record, e: DomainEvent)
    requires c.Valid() && CountsStreak(c, events, r) && e.FailedTransiently?
    ensures CountsStreak(c, events + [e], CountFailure(c, r, e.at))
  {
    StartStreak(c, events, e);
    if r.windowStart.Some? && e.at - r.windowStart.value <= c.failureWindow {
      var j: nat :| Streak(c, events, j) && events[j].at == r.windowStart.value
        && TransientFailures(events[j..]) == r.failures;
      ExtendStreak(c, events, e, j);
      assert (events + [e])[j] == events[j];
    }
  }

  lemma NeutralStep(c: HealthConfig, events: seq<DomainEvent>, r: Record, e: DomainEvent)
    requires CountsStreak(c, events, r) && !e.Succeeded? && !e.FailedPermanently? && !e.FailedTransiently?
    ensures CountsStreak(c, events + [e], Apply(c, r, e))
  {
    if r.windowStart.Some? {
      var j: nat :| Streak(c, events, j) && events[j].at == r.windowStart.value
        && TransientFailures(events[j..]) == r.failures;
      ExtendStreak(c, events, e, j);
      assert (events + [e])[j] == events[j];
    }
  }

  lemma {:induction false} StreakOfHistory(c: HealthConfig, events: seq<DomainEvent>)
    requires c.Valid()
    ensures CountsStreak(c, events, Replay(c, events))
    decreases |events|
  {
    if events != [] {
      var init, e := Before(events), events[|events| - 1];
      assert events == init + [e];
      StreakOfHistory(c, init);
      match e {
        case FailedTransiently(_, _, _) => CountFailureStep(c, init, Replay(c, init), e);
        case Succeeded =>
        case FailedPermanently =>
        case _ => NeutralStep(c, init, Replay(c, init), e);
      }
    }
  }

  /** The history ends in a charged failure that fills the failure window: it is the
      last of exactly threshold-many, none later than the window anchored at the first. */
  ghost predicate FillsWindow(c: HealthConfig, events: seq<DomainEvent>) {
    && events != []
    && events[|events| - 1].FailedTransiently?
    && exists start :: StreakOf(c, events, c.failureThreshold, start)
  }

  lemma EnteringCooldownFillsWindow(c: HealthConfig, events: seq<DomainEvent>, e: DomainEvent)
    requires c.Valid() && Replay(c, events).state == Healthy && Apply(c, Replay(c, events), e).state == Cooldown
    ensures FillsWindow(c, events + [e])
  {
    var r := Replay(c, events);
    assert e.FailedTransiently?;
    StreakOfHistory(c, events);
    BackoffOfHistory(c, events);
    CountFailureStep(c, events, r, e);
    var counted := CountFailure(c, r, e.at);
    assert StreakOf(c, events + [e], counted.failures, counted.windowStart.value);
  }

  lemma HistoryStep(w: World, ops: seq<Op>, op: Op, d: DomainKey)
    requires d in w.Domains() && Step(w, From(w, ops), op).records[d] != From(w, ops).records[d]
    ensures EventOf(w, From(w, ops), op, d).Some?
    ensures Step(w, From(w, ops), op).records[d] ==
      Apply(w.config, From(w, ops).records[d], EventOf(w, From(w, ops), op, d).value)
    ensures History(w, ops + [op], d) == History(w, ops, d) + [EventOf(w, From(w, ops), op, d).value]
  {
    assert (ops + [op])[..|ops + [op]| - 1] == ops;
  }

  /** Over every run: a healthy domain enters cooldown only by a call that fills its failure window. */
  lemma CooldownNeedsThresholdFailures(w: World, ops: seq<Op>, op: Op, d: DomainKey)
    requires w.Valid() && d in w.Domains()
    requires From(w, ops).records[d].state == Healthy && Step(w, From(w, ops), op).records[d].state == Cooldown
    ensures FillsWindow(w.config, History(w, ops + [op], d))
  {
    DomainsAreIndependentMachines(w, ops, d);
    HistoryStep(w, ops, op, d);
    EnteringCooldownFillsWindow(w.config, History(w, ops, d), EventOf(w, From(w, ops), op, d).value);
  }
}
