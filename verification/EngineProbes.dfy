/** Which attempts lose the recovery probe that they were admitted as. */
module ExecutionProbes {
  import opened Domain
  import opened HealthModels
  import opened HealthMachine
  import opened HealthSafety
  import opened HealthTheorems
  import opened Failures
  import opened FirstEvent
  import opened Attempts
  import opened Execution
  import opened ExecutionLeases

  // ------------------------------------------------------------ what an answer is charged to

  predicate TargetCharging(failureClass: FailureClass) {
    failureClass in {TargetTransient, TargetPermanent}
  }

  predicate ProviderCharging(failureClass: FailureClass) {
    failureClass in {ProviderTransient, ProviderPermanent, PostCommitStreamFailure}
  }

  /** The answers that are held against the target: not found, rate limited, or reported so by the adapter. */
  predicate BlamesTarget(engine: Engine, target: ModelTarget, answer: Answer) {
    && target.provider in engine.providers
    && match answer
       case Opened(status, _, _, _, _) => status in {404, 429}
       case InvokeFailed(failureClass, _) => TargetCharging(failureClass)
       case _ => false
  }

  lemma OwnErrorsSpareTheTarget(error: RouterError)
    ensures !TargetCharging(DecisionForRouterError(error).failureClass)
  {}

  lemma StreamsSpareTheTarget(engine: Engine, protocol: Protocol, eventStream: bool, first: FirstRead)
    ensures var v := JudgeStream(engine, protocol, eventStream, first); v.Lost? ==> !TargetCharging(v.failureClass)
  {
    hide FirstOpening;
  }

  lemma TargetIsBlamedExactly(engine: Engine, envelope: Envelope, target: ModelTarget, answer: Answer)
    ensures var v := Judge(engine, envelope, target, answer);
      v.Lost? && TargetCharging(v.failureClass) <==> BlamesTarget(engine, target, answer)
  {
    if answer.Opened? {
      StreamsSpareTheTarget(engine, envelope.protocol, answer.eventStream, answer.first);
    }
    hide JudgeStream;
  }

  // ------------------------------------------------------------------ runs of calls

  /** None of these calls, made after those in `base`, loses a probe. */
  ghost predicate KeepsProbes(w: World, base: seq<Op>, ops: seq<Op>)
    requires w.Valid()
  {
    forall k | 0 <= k < |ops| :: !LosesProbe(From(w, base + ops[..k]), ops[k])
  }

  lemma KeepsProbesOne(w: World, base: seq<Op>, op: Op)
    requires w.Valid()
    ensures KeepsProbes(w, base, [op]) <==> !LosesProbe(From(w, base), op)
  {
    assert base + [op][..0] == base;
  }

  lemma KeepsProbesConcat(w: World, base: seq<Op>, xs: seq<Op>, ys: seq<Op>)
    requires w.Valid()
    ensures KeepsProbes(w, base, xs + ys) <==> KeepsProbes(w, base, xs) && KeepsProbes(w, base + xs, ys)
  {
    hide From, LosesProbe;
    var all := xs + ys;
    assert forall k | 0 <= k < |xs| :: all[..k] == xs[..k] && all[k] == xs[k];
    forall k | 0 <= k < |ys|
      ensures base + all[..|xs| + k] == base + xs + ys[..k] && all[|xs| + k] == ys[k]
    {
      assert all[..|xs| + k] == xs + ys[..k];
    }
    if KeepsProbes(w, base, all) {
      forall k | 0 <= k < |ys|
        ensures !LosesProbe(From(w, base + xs + ys[..k]), ys[k])
      {
        assert !LosesProbe(From(w, base + all[..|xs| + k]), all[|xs| + k]);
      }
    }
    if KeepsProbes(w, base, xs) && KeepsProbes(w, base + xs, ys) {
      forall k | 0 <= k < |all|
        ensures !LosesProbe(From(w, base + all[..k]), all[k])
      {
        if k >= |xs| {
          assert !LosesProbe(From(w, base + xs + ys[..k - |xs|]), ys[k - |xs|]);
        }
      }
    }
  }

  /** After some calls no token is orphaned iff none was before and none of them lost a probe. */
  lemma {:induction false} OrphansAfter(w: World, base: seq<Op>, ops: seq<Op>)
    requires w.Valid()
    ensures NoOrphans(From(w, base + ops)) <==> NoOrphans(From(w, base)) && KeepsProbes(w, base, ops)
    decreases |ops|
  {
    hide From, LosesProbe, Orphaned, KeepsProbes;
    if ops == [] {
      assert base + ops == base;
      NothingToLose(w, base);
    } else {
      var init, last := ops[..|ops| - 1], ops[|ops| - 1];
      assert ops == init + [last] && base + ops == base + init + [last];
      OrphansAfter(w, base, init);
      KeepsProbesConcat(w, base, init, [last]);
      KeepsProbesOne(w, base + init, last);
      ReachableInv(w, base + init);
      FromStep(w, base + init, last);
      OrphansAccumulate(w, From(w, base + init), last);
    }
  }

  lemma NothingToLose(w: World, base: seq<Op>)
    requires w.Valid()
    ensures KeepsProbes(w, base, [])
  {}

  // ------------------------------------------------------------------------ one visit

  /** The calls of one visit up to and without the attempt's own outcome. */
  function BeforeOutcome(visit: Visit, step: Step): seq<Op> {
    visit.before + [AcquireOp(step.target, visit.at)] + if step.Tried? then visit.during else []
  }

  ghost predicate OthersKeepProbes(w: World, base: seq<Op>, visit: Visit, step: Step)
    requires w.Valid()
  {
    KeepsProbes(w, base, BeforeOutcome(visit, step))
  }

  /** The attempt's own outcome loses a probe. */
  ghost predicate OutcomeLosesProbe(w: World, base: seq<Op>, visit: Visit, step: Step)
    requires w.Valid()
  {
    && step.Tried? && !step.verdict.HandedOver?
    && LosesProbe(From(w, base + BeforeOutcome(visit, step)),
                  RecordOp(step.lease, OutcomeOf(step.verdict, visit.recordedAt).value))
  }

  lemma VisitKeepsProbes(w: World, base: seq<Op>, visit: Visit, step: Step)
    requires w.Valid()
    ensures KeepsProbes(w, base, CallsOf(visit, step)) <==>
      OthersKeepProbes(w, base, visit, step) && !OutcomeLosesProbe(w, base, visit, step)
  {
    hide From, LosesProbe, KeepsProbes;
    var ops := BeforeOutcome(visit, step);
    if step.Tried? && !step.verdict.HandedOver? {
      var record := RecordOp(step.lease, OutcomeOf(step.verdict, visit.recordedAt).value);
      assert CallsOf(visit, step) == ops + [record];
      KeepsProbesConcat(w, base, ops, [record]);
      KeepsProbesOne(w, base + ops, record);
    } else {
      assert CallsOf(visit, step) == ops;
    }
  }

  /** Over every run of the engine: no token is orphaned at its end iff none was before,
      no call of others lost a probe meanwhile, and no outcome of an attempt did. */
  lemma EngineOrphansExactly(w: World, history: seq<Op>, script: Script, steps: seq<Step>)
    requires w.Valid()
    ensures NoOrphans(From(w, history + AllCalls(script, steps))) <==>
      && NoOrphans(From(w, history))
      && (forall i | 0 <= i < |steps| :: OthersKeepProbes(w, Until(history, script, steps, i), script(i), steps[i]))
      && (forall i | 0 <= i < |steps| :: !OutcomeLosesProbe(w, Until(history, script, steps, i), script(i), steps[i]))
  {
    hide From, Orphaned, AllCalls, Until, OthersKeepProbes, OutcomeLosesProbe;
    OrphansUntil(w, history, script, steps, |steps|);
    assert steps[..|steps|] == steps;
    UntilAll(history, script, steps);
  }

  lemma UntilAll(history: seq<Op>, script: Script, steps: seq<Step>)
    ensures Until(history, script, steps, |steps|) == history + AllCalls(script, steps)
  {
    assert steps[..|steps|] == steps;
  }

  lemma UntilNone(history: seq<Op>, script: Script, steps: seq<Step>)
    ensures Until(history, script, steps, 0) == history
  {
    assert steps[..0] == [];
  }

  lemma {:induction false} OrphansUntil(w: World, history: seq<Op>, script: Script, steps: seq<Step>, n: nat)
    requires w.Valid() && n <= |steps|
    ensures NoOrphans(From(w, Until(history, script, steps, n))) <==>
      && NoOrphans(From(w, history))
      && (forall i | 0 <= i < n :: OthersKeepProbes(w, Until(history, script, steps, i), script(i), steps[i]))
      && (forall i | 0 <= i < n :: !OutcomeLosesProbe(w, Until(history, script, steps, i), script(i), steps[i]))
    decreases n
  {
    hide From, Orphaned, NoOrphans, AllCalls, Until, CallsOf, KeepsProbes, OthersKeepProbes, OutcomeLosesProbe;
    if n == 0 {
      UntilNone(history, script, steps);
    } else {
      var base := Until(history, script, steps, n - 1);
      OrphansUntil(w, history, script, steps, n - 1);
      UntilNext(history, script, steps, n - 1);
      OrphansAfter(w, base, CallsOf(script(n - 1), steps[n - 1]));
      VisitKeepsProbes(w, base, script(n - 1), steps[n - 1]);
    }
  }

  // --------------------------------------------------------------- which outcomes lose one

  /** The probed domain's token is lost by a failure that is charged to the lease's other domain. */
  lemma LostByClass(w: World, s: Registry, lease: HealthLease, outcome: AttemptOutcome)
    requires Inv(w, s) && Genuine(s, lease)
    ensures LosesProbe(s, RecordOp(lease, outcome)) <==>
      && lease.probe
      && (if Holds(s, lease, ProviderOf(lease))
          then Current(s, lease, TargetOf(lease)) && TargetCharging(outcome.failureClass)
          else Current(s, lease, ProviderOf(lease)) && ProviderCharging(outcome.failureClass))
  {
    assert ActiveOk(w, s, lease.token);
    hide Inv;
  }

  lemma LeaseIsLiveAtOutcome(w: World, base: seq<Op>, visit: Visit, step: Step)
    requires w.Valid() && step.Tried? && Grants(w, base + visit.before, step.target, visit.at, step.lease)
    requires RecordsOf(visit.during, step.lease.token) == 0
    ensures Genuine(From(w, base + BeforeOutcome(visit, step)), step.lease)
  {
    hide Grants, From, RecordsOf, NextToken;
    var acquire := AcquireOp(step.target, visit.at);
    GrantedIsLive(w, base + visit.before, step.target, visit.at, step.lease);
    LiveStaysLive(w, base + visit.before + [acquire], visit.during, step.lease);
    assert base + BeforeOutcome(visit, step) == base + visit.before + [acquire] + visit.during;
  }

  /** What an outcome must be held against to lose the probe that its attempt was admitted as. */
  ghost predicate HeldAgainstOther(s: Registry, engine: Engine, target: ModelTarget, visit: Visit, step: Step)
    requires step.Tried?
  {
    && step.lease.probe
    && (if Holds(s, step.lease, ProviderOf(step.lease))
        then Current(s, step.lease, TargetOf(step.lease)) && BlamesTarget(engine, target, visit.answer)
        else && Current(s, step.lease, ProviderOf(step.lease))
             && step.verdict.Lost? && ProviderCharging(step.verdict.failureClass))
  }

  lemma VisitLosesProbe(w: World, base: seq<Op>, engine: Engine, envelope: Envelope, target: ModelTarget, visit: Visit,
                        step: Step)
    requires w.Valid() && step.Tried? && !step.verdict.HandedOver?
    requires step.verdict == Judge(engine, envelope, target, visit.answer)
    requires Grants(w, base + visit.before, step.target, visit.at, step.lease)
    requires RecordsOf(visit.during, step.lease.token) == 0
    ensures OutcomeLosesProbe(w, base, visit, step) <==>
      HeldAgainstOther(From(w, base + BeforeOutcome(visit, step)), engine, target, visit, step)
  {
    LeaseIsLiveAtOutcome(w, base, visit, step);
    ReachableInv(w, base + BeforeOutcome(visit, step));
    hide Inv, From, Grants, RecordsOf, Judge, HeldAgainstOther, Genuine, LosesProbe;
    OutcomeAtState(w, From(w, base + BeforeOutcome(visit, step)), engine, envelope, target, visit, step);
  }

  lemma OutcomeAtState(w: World, s: Registry, engine: Engine, envelope: Envelope, target: ModelTarget, visit: Visit,
                       step: Step)
    requires Inv(w, s) && step.Tried? && !step.verdict.HandedOver? && Genuine(s, step.lease)
    requires step.verdict == Judge(engine, envelope, target, visit.answer)
    ensures LosesProbe(s, RecordOp(step.lease, OutcomeOf(step.verdict, visit.recordedAt).value)) <==>
      HeldAgainstOther(s, engine, target, visit, step)
  {
    hide Inv, Judge, BlamesTarget, Holds, Current, Genuine, LosesProbe;
    TargetIsBlamedExactly(engine, envelope, target, visit.answer);
    LostByClass(w, s, step.lease, OutcomeOf(step.verdict, visit.recordedAt).value);
  }

  /** An attempt's outcome loses a probe exactly when the attempt was admitted as one and
      is held against the domain that it does not probe: for a provider's probe an answer
      that blames the target, for a target's probe a failure of the Provider, in either
      case while the lease is still of that domain's generation. */
  lemma ProbeIsLostExactly(w: World, history: seq<Op>, engine: Engine, envelope: Envelope, plan: ExecutionPlan,
                           script: Script, steps: seq<Step>, i: nat)
    requires w.Valid() && Executed(w, history, engine, envelope, plan, script, steps)
    requires i < |steps| && steps[i].Tried? && !steps[i].verdict.HandedOver?
    requires RecordsOf(script(i).during, steps[i].lease.token) == 0
    ensures var base := Until(history, script, steps, i);
      OutcomeLosesProbe(w, base, script(i), steps[i]) <==>
        HeldAgainstOther(From(w, base + BeforeOutcome(script(i), steps[i])), engine, plan.Targets()[i], script(i),
                         steps[i])
  {
    VerdictOf(w, history, engine, envelope, plan, script, steps, i);
    ExecutedAsksLeases(w, history, engine, envelope, plan, script, steps);
    hide Executed, From, AllCalls, Until, Grants, RecordsOf, Judge, OutcomeLosesProbe, HeldAgainstOther;
    VisitLosesProbe(w, Until(history, script, steps, i), engine, envelope, plan.Targets()[i], script(i), steps[i]);
  }

  lemma VerdictOf(w: World, history: seq<Op>, engine: Engine, envelope: Envelope, plan: ExecutionPlan, script: Script,
                  steps: seq<Step>, i: nat)
    requires w.Valid() && Executed(w, history, engine, envelope, plan, script, steps)
    requires i < |steps| && steps[i].Tried?
    ensures steps[i].verdict == Judge(engine, envelope, plan.Targets()[i], script(i).answer)
  {
    assert Faithful(w, history, engine, envelope, plan, script, steps, i);
    hide From, GrantedLease, AllCalls, Judge;
  }
}
