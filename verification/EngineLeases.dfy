/** Lease conservation across the engine, the relay and the coordinator. */
module ExecutionLeases {
  import opened Prelude
  import opened Domain
  import opened HealthModels
  import opened HealthMachine
  import opened HealthTheorems
  import opened Attempts
  import opened Execution

  // -------------------------------------------------------- tokens in the coordinator

  /** The calls that record an outcome under a token. */
  function RecordsOf(ops: seq<Op>, token: nat): nat {
    if ops == [] then 0
    else
      var last := ops[|ops| - 1];
      RecordsOf(ops[..|ops| - 1], token) + if last.RecordOp? && last.lease.token == token then 1 else 0
  }

  lemma {:induction false} RecordsConcat(xs: seq<Op>, ys: seq<Op>, token: nat)
    ensures RecordsOf(xs + ys, token) == RecordsOf(xs, token) + RecordsOf(ys, token)
    decreases |ys|
  {
    if ys == [] {
      assert xs + ys == xs;
    } else {
      assert (xs + ys)[..|xs + ys| - 1] == xs + ys[..|ys| - 1];
      RecordsConcat(xs, ys[..|ys| - 1], token);
    }
  }

  lemma {:induction false} TokensGrow(w: World, s: Registry, ops: seq<Op>)
    requires w.Domains() <= s.records.Keys
    ensures Run(w, s, ops).nextToken >= s.nextToken
    decreases |ops|
  {
    if ops != [] {
      TokensGrow(w, s, ops[..|ops| - 1]);
    }
  }

  /** A lease stays active, as it was issued, as long as nobody records it. */
  lemma {:induction false} UnrecordedStaysActive(w: World, s: Registry, ops: seq<Op>, token: nat)
    requires w.Domains() <= s.records.Keys && token in s.active && token < s.nextToken && RecordsOf(ops, token) == 0
    ensures token in Run(w, s, ops).active && Run(w, s, ops).active[token] == s.active[token]
    ensures token < Run(w, s, ops).nextToken
    decreases |ops|
  {
    if ops != [] {
      UnrecordedStaysActive(w, s, ops[..|ops| - 1], token);
    }
  }

  // ------------------------------------------------------------------------- one visit

  ghost function NextToken(w: World, ops: seq<Op>): nat
    requires w.Valid()
  {
    From(w, ops).nextToken
  }

  ghost predicate LeaseIsLive(w: World, ops: seq<Op>, lease: HealthLease)
    requires w.Valid()
  {
    Genuine(From(w, ops), lease) && lease.token < NextToken(w, ops)
  }

  ghost predicate LeaseIsGone(w: World, ops: seq<Op>, token: nat)
    requires w.Valid()
  {
    token !in From(w, ops).active && token < NextToken(w, ops)
  }

  /** After these calls, asking for a lease yields this one. */
  ghost predicate Grants(w: World, ops: seq<Op>, target: ModelTarget, at: Time, lease: HealthLease)
    requires w.Valid()
  {
    GrantedLease(w, From(w, ops), target, at) == Some(lease)
  }

  lemma FromConcat(w: World, xs: seq<Op>, ys: seq<Op>)
    requires w.Valid()
    ensures From(w, xs + ys) == Run(w, From(w, xs), ys)
  {
    RunConcat(w, Initial(w), xs, ys);
  }

  lemma NextTokenGrows(w: World, xs: seq<Op>, ys: seq<Op>)
    requires w.Valid()
    ensures NextToken(w, xs) <= NextToken(w, xs + ys)
  {
    FromConcat(w, xs, ys);
    TokensGrow(w, From(w, xs), ys);
  }

  lemma GoneStaysGone(w: World, xs: seq<Op>, ys: seq<Op>, token: nat)
    requires w.Valid() && LeaseIsGone(w, xs, token)
    ensures LeaseIsGone(w, xs + ys, token)
  {
    FromConcat(w, xs, ys);
    TokensAreNotReissued(w, From(w, xs), ys, token);
  }

  lemma LiveStaysLive(w: World, xs: seq<Op>, ys: seq<Op>, lease: HealthLease)
    requires w.Valid() && LeaseIsLive(w, xs, lease) && RecordsOf(ys, lease.token) == 0
    ensures LeaseIsLive(w, xs + ys, lease)
  {
    FromConcat(w, xs, ys);
    UnrecordedStaysActive(w, From(w, xs), ys, lease.token);
  }

  lemma FromStep(w: World, ops: seq<Op>, op: Op)
    requires w.Valid()
    ensures From(w, ops + [op]) == HealthMachine.Step(w, From(w, ops), op)
  {
    assert (ops + [op])[..|ops|] == ops;
  }

  lemma GrantedIsLive(w: World, ops: seq<Op>, target: ModelTarget, at: Time, lease: HealthLease)
    requires w.Valid() && Grants(w, ops, target, at, lease)
    ensures lease.token == NextToken(w, ops)
    ensures LeaseIsLive(w, ops + [AcquireOp(target, at)], lease)
    ensures lease.token < NextToken(w, ops + [AcquireOp(target, at)])
  {
    FromStep(w, ops, AcquireOp(target, at));
  }

  lemma RecordedIsGone(w: World, ops: seq<Op>, lease: HealthLease, outcome: AttemptOutcome)
    requires w.Valid() && lease.token < NextToken(w, ops)
    ensures LeaseIsGone(w, ops + [RecordOp(lease, outcome)], lease.token)
    ensures lease.token < NextToken(w, ops + [RecordOp(lease, outcome)])
  {
    FromStep(w, ops, RecordOp(lease, outcome));
  }

  /** Whatever others do, a visit that got a lease leaves it settled, unless it hands it
      over; and a handed-over lease is live if others left it alone. */
  lemma VisitLeavesLease(w: World, ops: seq<Op>, visit: Visit, step: Step)
    requires w.Valid() && step.Tried?
    requires Grants(w, ops + visit.before, step.target, visit.at, step.lease)
    ensures NextToken(w, ops) <= step.lease.token < NextToken(w, ops + CallsOf(visit, step))
    ensures !step.verdict.HandedOver? ==> LeaseIsGone(w, ops + CallsOf(visit, step), step.lease.token)
    ensures step.verdict.HandedOver? && RecordsOf(visit.during, step.lease.token) == 0 ==>
      LeaseIsLive(w, ops + CallsOf(visit, step), step.lease)
  {
    hide NextToken, Grants, LeaseIsLive, LeaseIsGone, RecordsOf;
    var lease, acquire := step.lease, AcquireOp(step.target, visit.at);
    var asked := ops + visit.before + [acquire];
    NextTokenGrows(w, ops, visit.before);
    GrantedIsLive(w, ops + visit.before, step.target, visit.at, lease);
    NextTokenGrows(w, asked, visit.during);
    if step.verdict.HandedOver? {
      assert ops + CallsOf(visit, step) == asked + visit.during;
      if RecordsOf(visit.during, lease.token) == 0 {
        LiveStaysLive(w, asked, visit.during, lease);
      }
    } else {
      var record := RecordOp(lease, OutcomeOf(step.verdict, visit.recordedAt).value);
      RecordedIsGone(w, asked + visit.during, lease, record.outcome);
      assert ops + CallsOf(visit, step) == asked + visit.during + [record];
    }
  }

  // ------------------------------------------------------------------------ whole runs

  /** The history up to and without visit n. */
  function Until(history: seq<Op>, script: Script, steps: seq<Step>, n: nat): seq<Op>
    requires n <= |steps|
  {
    history + AllCalls(script, steps[..n])
  }

  lemma UntilNext(history: seq<Op>, script: Script, steps: seq<Step>, n: nat)
    requires n < |steps|
    ensures Until(history, script, steps, n + 1) == Until(history, script, steps, n) + CallsOf(script(n), steps[n])
    ensures AllCalls(script, steps[..n + 1]) == AllCalls(script, steps[..n]) + CallsOf(script(n), steps[n])
  {
    hide CallsOf;
    assert steps[..n + 1][..n] == steps[..n];
  }

  /** What Execute guarantees of its visits, as far as leases are concerned. */
  ghost predicate LeasesAsked(w: World, history: seq<Op>, script: Script, steps: seq<Step>)
    requires w.Valid()
  {
    forall i | 0 <= i < |steps| && steps[i].Tried? ::
      Grants(w, Until(history, script, steps, i) + script(i).before, steps[i].target, script(i).at, steps[i].lease)
  }

  lemma ExecutedAsksLeases(w: World, history: seq<Op>, engine: Engine, envelope: Envelope, plan: ExecutionPlan,
                           script: Script, steps: seq<Step>)
    requires w.Valid() && Executed(w, history, engine, envelope, plan, script, steps)
    ensures LeasesAsked(w, history, script, steps)
    ensures forall i | 0 <= i < |steps| && steps[i].Tried? && steps[i].verdict.HandedOver? :: i == |steps| - 1
  {
    hide AllCalls, Judge;
    forall i | 0 <= i < |steps| && steps[i].Tried?
      ensures Grants(w, Until(history, script, steps, i) + script(i).before, steps[i].target, script(i).at,
                     steps[i].lease)
    {
      assert Faithful(w, history, engine, envelope, plan, script, steps, i);
    }
    assert forall i | 0 <= i < |steps| - 1 :: GoesOn(steps[i]);
  }

  lemma {:induction false} UntilGrows(w: World, history: seq<Op>, script: Script, steps: seq<Step>, m: nat, n: nat)
    requires w.Valid() && m <= n <= |steps|
    ensures NextToken(w, Until(history, script, steps, m)) <= NextToken(w, Until(history, script, steps, n))
    decreases n
  {
    hide NextToken, Until, CallsOf, AllCalls;
    if m < n {
      UntilGrows(w, history, script, steps, m, n - 1);
      UntilNext(history, script, steps, n - 1);
      NextTokenGrows(w, Until(history, script, steps, n - 1), CallsOf(script(n - 1), steps[n - 1]));
    }
  }

  lemma TokensAreDistinct(w: World, history: seq<Op>, script: Script, steps: seq<Step>, i: nat, j: nat)
    requires w.Valid() && LeasesAsked(w, history, script, steps)
    requires i < j < |steps| && steps[i].Tried? && steps[j].Tried?
    ensures steps[i].lease.token < steps[j].lease.token
  {
    hide NextToken, Grants, LeaseIsGone, LeaseIsLive, CallsOf, Until, AllCalls;
    VisitLeavesLease(w, Until(history, script, steps, i), script(i), steps[i]);
    UntilNext(history, script, steps, i);
    UntilGrows(w, history, script, steps, i + 1, j);
    VisitLeavesLease(w, Until(history, script, steps, j), script(j), steps[j]);
  }

  lemma {:induction false} SettledStaysGone(w: World, history: seq<Op>, script: Script, steps: seq<Step>, i: nat,
                                           n: nat)
    requires w.Valid() && LeasesAsked(w, history, script, steps)
    requires i < n <= |steps| && steps[i].Tried? && !steps[i].verdict.HandedOver?
    ensures LeaseIsGone(w, Until(history, script, steps, n), steps[i].lease.token)
    decreases n
  {
    hide NextToken, Grants, LeaseIsGone, LeaseIsLive, CallsOf, Until, AllCalls;
    UntilNext(history, script, steps, n - 1);
    if n == i + 1 {
      VisitLeavesLease(w, Until(history, script, steps, i), script(i), steps[i]);
    } else {
      SettledStaysGone(w, history, script, steps, i, n - 1);
      GoneStaysGone(w, Until(history, script, steps, n - 1), CallsOf(script(n - 1), steps[n - 1]),
                    steps[i].lease.token);
    }
  }

  /** Nobody else records this token while the run lasts. */
  ghost predicate OthersAbstain(script: Script, steps: seq<Step>, token: nat) {
    forall k | 0 <= k < |steps| :: RecordsOf(script(k).before, token) == 0 && RecordsOf(script(k).during, token) == 0
  }

  lemma RecordsOfOne(op: Op, token: nat)
    ensures RecordsOf([op], token) == if op.RecordOp? && op.lease.token == token then 1 else 0
  {
    assert [op][..0] == [];
  }

  lemma RecordsOfVisit(visit: Visit, step: Step, token: nat)
    requires RecordsOf(visit.before, token) == 0 && RecordsOf(visit.during, token) == 0
    ensures RecordsOf(CallsOf(visit, step), token) ==
      if step.Tried? && !step.verdict.HandedOver? && step.lease.token == token then 1 else 0
  {
    var asked := visit.before + [AcquireOp(step.target, visit.at)];
    RecordsConcat(visit.before, [AcquireOp(step.target, visit.at)], token);
    RecordsOfOne(AcquireOp(step.target, visit.at), token);
    if step.Tried? {
      RecordsConcat(asked, SettledCalls(visit, step.lease, step.verdict), token);
      if !step.verdict.HandedOver? {
        var record := RecordOp(step.lease, OutcomeOf(step.verdict, visit.recordedAt).value);
        RecordsConcat(visit.during, [record], token);
        RecordsOfOne(record, token);
      }
    }
  }

  lemma NothingRecorded(script: Script, steps: seq<Step>, token: nat)
    ensures RecordsOf(AllCalls(script, steps[..0]), token) == 0
  {}

  lemma {:induction false} RecordedOnce(w: World, history: seq<Op>, script: Script, steps: seq<Step>, i: nat, n: nat)
    requires w.Valid() && LeasesAsked(w, history, script, steps)
    requires i < |steps| && n <= |steps| && steps[i].Tried? && OthersAbstain(script, steps, steps[i].lease.token)
    ensures RecordsOf(AllCalls(script, steps[..n]), steps[i].lease.token) ==
      if i < n && !steps[i].verdict.HandedOver? then 1 else 0
    decreases n
  {
    hide NextToken, Grants, CallsOf, Until, AllCalls, RecordsOf, LeasesAsked;
    if n == 0 {
      NothingRecorded(script, steps, steps[i].lease.token);
    } else {
      var token := steps[i].lease.token;
      RecordedOnce(w, history, script, steps, i, n - 1);
      UntilNext(history, script, steps, n - 1);
      RecordsConcat(AllCalls(script, steps[..n - 1]), CallsOf(script(n - 1), steps[n - 1]), token);
      RecordsOfVisit(script(n - 1), steps[n - 1], token);
      if n - 1 < i && steps[n - 1].Tried? {
        TokensAreDistinct(w, history, script, steps, n - 1, i);
      } else if i < n - 1 && steps[n - 1].Tried? {
        TokensAreDistinct(w, history, script, steps, i, n - 1);
      }
    }
  }

  /** Lease conservation. Of all the leases that a run acquired, each is recorded exactly
      once among all calls of the run, and so no longer active when the run ends, except
      the one that a committed stream hands over, which is the last, unrecorded, and
      still active as it was issued. (Others are taken not to record a lease they never
      held; that a settled lease is gone does not even need that.) */
  lemma LeasesAreConserved(w: World, history: seq<Op>, engine: Engine, envelope: Envelope, plan: ExecutionPlan,
                           script: Script, steps: seq<Step>, i: nat)
    requires w.Valid() && Executed(w, history, engine, envelope, plan, script, steps)
    requires i < |steps| && steps[i].Tried?
    ensures !steps[i].verdict.HandedOver? ==> LeaseIsGone(w, history + AllCalls(script, steps), steps[i].lease.token)
    ensures steps[i].verdict.HandedOver? ==> i == |steps| - 1
    ensures OthersAbstain(script, steps, steps[i].lease.token) ==>
      && RecordsOf(AllCalls(script, steps), steps[i].lease.token) == (if steps[i].verdict.HandedOver? then 0 else 1)
      && (steps[i].verdict.HandedOver? ==> LeaseIsLive(w, history + AllCalls(script, steps), steps[i].lease))
  {
    ExecutedAsksLeases(w, history, engine, envelope, plan, script, steps);
    hide Executed, LeasesAsked, LeaseIsGone, LeaseIsLive, RecordsOf, AllCalls, CallsOf;
    assert steps[..|steps|] == steps;
    if !steps[i].verdict.HandedOver? {
      SettledStaysGone(w, history, script, steps, i, |steps|);
    }
    if OthersAbstain(script, steps, steps[i].lease.token) {
      RecordedOnce(w, history, script, steps, i, |steps|);
      if steps[i].verdict.HandedOver? {
        HandedOverIsLive(w, history, script, steps, i);
      }
    }
  }

  lemma HandedOverIsLive(w: World, history: seq<Op>, script: Script, steps: seq<Step>, i: nat)
    requires w.Valid() && LeasesAsked(w, history, script, steps)
    requires i + 1 == |steps| && steps[i].Tried? && steps[i].verdict.HandedOver?
    requires OthersAbstain(script, steps, steps[i].lease.token)
    ensures LeaseIsLive(w, Until(history, script, steps, |steps|), steps[i].lease)
  {
    hide NextToken, Grants, LeaseIsGone, LeaseIsLive, CallsOf, Until, AllCalls, RecordsOf;
    VisitLeavesLease(w, Until(history, script, steps, i), script(i), steps[i]);
    UntilNext(history, script, steps, i);
  }
}
