/** What a session's state says of its calls, told without the step that computes it. */
module SessionMeaning {
  import opened Prelude
  import opened Domain
  import opened SessionHistory

  // ---------------------------------------------------------------------------- reports

  predicate Reports(c: Call, outcome: OutcomeSignal) {
    c.report.Some? && c.report.value.1 == outcome
  }

  /** How many of these calls report this outcome. */
  function Count(calls: seq<Call>, outcome: OutcomeSignal): nat {
    if calls == [] then 0
    else Count(calls[..|calls| - 1], outcome) + if Reports(calls[|calls| - 1], outcome) then 1 else 0
  }

  /** Those of these calls that report anything report this. */
  ghost predicate Only(calls: seq<Call>, outcome: OutcomeSignal) {
    forall i | 0 <= i < |calls| :: calls[i].report.None? || Reports(calls[i], outcome)
  }

  lemma FoldNext(h: seq<Call>, calls: seq<Call>)
    requires calls != []
    ensures Fold(h + calls) == Touched(Fold(h + calls[..|calls| - 1]), calls[|calls| - 1])
  {
    assert (h + calls)[..|h + calls| - 1] == h + calls[..|calls| - 1];
  }

  /** A call without a report changes nothing but the time of the last access. */
  lemma SnapshotChangesNothing(h: seq<Call>, c: Call)
    requires c.report.None?
    ensures Fold(h + [c]) == Fold(h).(lastAccess := c.now)
  {
    FoldNext(h, [c]);
    assert h + [c][..0] == h;
  }

  /** The access time is that of the last call. */
  lemma LastAccessExactly(h: seq<Call>)
    requires h != []
    ensures Fold(h).lastAccess == h[|h| - 1].now
  {}

  /** The last report among these calls. */
  function LastReport(calls: seq<Call>): Option<(Tier, OutcomeSignal)> {
    if calls == [] then None
    else if calls[|calls| - 1].report.Some? then calls[|calls| - 1].report
    else LastReport(calls[..|calls| - 1])
  }

  /** Tier and outcome are those of the last report, or balanced and unknown without one. */
  lemma {:induction false} LastReportIsKept(h: seq<Call>)
    ensures Fold(h).lastTier == (if LastReport(h).Some? then LastReport(h).value.0 else Balanced)
    ensures Fold(h).lastOutcome == (if LastReport(h).Some? then LastReport(h).value.1 else SignalUnknown)
    decreases |h|
  {
    if h != [] {
      LastReportIsKept(h[..|h| - 1]);
    }
  }

  // -------------------------------------------------------------------------- escalation

  /** Every failure reported in a row counts one. */
  lemma {:induction false} FailuresAddUp(h: seq<Call>, calls: seq<Call>)
    requires Only(calls, SignalFailure)
    ensures Fold(h + calls).consecutiveFailures == Fold(h).consecutiveFailures + Count(calls, SignalFailure)
    ensures Fold(h + calls).requestsSinceFailure ==
      if Count(calls, SignalFailure) > 0 then 0 else Fold(h).requestsSinceFailure
    decreases |calls|
  {
    if calls == [] {
      assert h + calls == h;
    } else {
      FoldNext(h, calls);
      FailuresAddUp(h, calls[..|calls| - 1]);
    }
  }

  /** A reported success clears them. */
  lemma SuccessClears(h: seq<Call>, c: Call)
    requires Reports(c, SignalSuccess)
    ensures Fold(h + [c]).consecutiveFailures == 0 && Fold(h + [c]).requestsSinceFailure == 0
  {
    FoldNext(h, [c]);
    assert h + [c][..0] == h;
  }

  /** Of outcomes reported unknown in a row, one that was pending included, every second
      one takes one failure back, down to none. */
  lemma {:induction false} UnknownsDecay(h: seq<Call>, calls: seq<Call>)
    requires Only(calls, SignalUnknown)
    ensures var pending := Fold(h).requestsSinceFailure + Count(calls, SignalUnknown);
      var left := Fold(h).consecutiveFailures - pending / 2;
      && Fold(h + calls).consecutiveFailures == (if left > 0 then left else 0)
      && Fold(h + calls).requestsSinceFailure == pending % 2
    decreases |calls|
  {
    EscalationIsBounded(h);
    if calls == [] {
      assert h + calls == h;
    } else {
      FoldNext(h, calls);
      UnknownsDecay(h, calls[..|calls| - 1]);
    }
  }

  /** So after a success, or at the start, n failures and then m unknown outcomes leave n
      less half of m, rounded down, and never less than none. */
  lemma EscalationExactly(h: seq<Call>, failures: seq<Call>, unknowns: seq<Call>)
    requires h == [] || Reports(h[|h| - 1], SignalSuccess)
    requires Only(failures, SignalFailure) && Only(unknowns, SignalUnknown)
    ensures var left := Count(failures, SignalFailure) - Count(unknowns, SignalUnknown) / 2;
      Fold(h + failures + unknowns).consecutiveFailures == if left > 0 then left else 0
  {
    if h != [] {
      SuccessClears(h[..|h| - 1], h[|h| - 1]);
      assert h == h[..|h| - 1] + [h[|h| - 1]];
    }
    FailuresAddUp(h, failures);
    UnknownsDecay(h + failures, unknowns);
  }

  // ----------------------------------------------------------------------------- streaks

  /** The ids of these calls. */
  function IdsOf(calls: seq<Call>): set<string> {
    set i | 0 <= i < |calls| :: calls[i].id
  }

  lemma {:induction false} AfterIs(h: seq<Call>, id: string, p: nat)
    requires p < |h| && h[p].id == id && forall i | p < i < |h| :: h[i].id != id
    ensures After(h, id) == IdsOf(h[p + 1..]) && Called(h, id)
    decreases |h|
  {
    if p == |h| - 1 {
      assert h[p + 1..] == [];
    } else {
      var init := Earlier(h);
      AfterIs(init, id, p);
      CalledStep(h, id);
      assert h[p + 1..] == init[p + 1..] + [Last(h)];
      IdsAppend(init[p + 1..], Last(h));
    }
  }

  lemma IdsAppend(calls: seq<Call>, c: Call)
    ensures IdsOf(calls + [c]) == IdsOf(calls) + {c.id}
  {
    var all := calls + [c];
    assert all[|calls|] == c;
    assert forall i | 0 <= i < |calls| :: all[i] == calls[i];
  }

  lemma {:induction false} StreakUntouched(limits: Limits, h: seq<Call>, id: string, p: nat)
    requires p < |h| && forall i | p < i < |h| :: h[i].id != id
    ensures Streak(limits, h, id) == Streak(limits, h[..p + 1], id)
    decreases |h|
  {
    if p == |h| - 1 {
      assert h[..p + 1] == h;
    } else {
      StreakUntouched(limits, Earlier(h), id, p);
      assert Earlier(h)[..p + 1] == h[..p + 1];
    }
  }

  lemma {:induction false} StreakEndsIn(limits: Limits, h: seq<Call>, id: string)
    requires h != [] && Last(h).id == id
    ensures Streak(limits, h, id) != [] && Last(Streak(limits, h, id)) == Last(h)
  {}

  /** A call continues the streak of the session's call before it, at p, exactly when that
      is no longer ago than the ttl and fewer other sessions than the store can hold were
      called in between; else it starts a new one. */
  lemma StreakJoinsExactly(limits: Limits, h: seq<Call>, id: string, p: nat)
    requires h != [] && Last(h).id == id && p < |h| - 1 && h[p].id == id
    requires forall i | p < i < |h| - 1 :: h[i].id != id
    ensures Streak(limits, h, id) ==
      if Last(h).now - h[p].now <= limits.ttl && |IdsOf(h[p + 1..|h| - 1])| < limits.capacity
      then Streak(limits, h[..p + 1], id) + [Last(h)] else [Last(h)]
  {
    var init := Earlier(h);
    AfterIs(init, id, p);
    StreakUntouched(limits, init, id, p);
    assert init[..p + 1] == h[..p + 1] && init[p + 1..] == h[p + 1..|h| - 1];
    StreakEndsIn(limits, h[..p + 1], id);
  }

  /** The first call of a session is the whole of its streak. */
  lemma {:induction false} FirstCallStartsStreak(limits: Limits, h: seq<Call>, id: string)
    requires h != [] && Last(h).id == id && forall i | 0 <= i < |h| - 1 :: h[i].id != id
    ensures Streak(limits, h, id) == [Last(h)]
  {
    NeverCalled(limits, Earlier(h), id);
  }

  lemma {:induction false} NeverCalled(limits: Limits, h: seq<Call>, id: string)
    requires forall i | 0 <= i < |h| :: h[i].id != id
    ensures Streak(limits, h, id) == []
    decreases |h|
  {
    if h != [] {
      NeverCalled(limits, Earlier(h), id);
    }
  }
}
