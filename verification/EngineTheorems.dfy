/** What every run of the execution engine keeps: its accounts, and its agreement with health. */
module ExecutionTheorems {
  import opened Prelude
  import opened Domain
  import opened HealthModels
  import opened HealthMachine
  import opened HealthTheorems
  import opened Failures
  import opened Sse
  import opened FirstEvent
  import opened Attempts
  import opened Execution

  // ------------------------------------------------------------------------ accounting

  function CountUnregistered(engine: Engine, steps: seq<Step>): nat {
    if steps == [] then 0
    else
      var last := steps[|steps| - 1];
      CountUnregistered(engine, steps[..|steps| - 1]) + if last.Tried? && !IsInvoked(engine, last) then 1 else 0
  }

  lemma {:induction false} CountsAddUp(engine: Engine, steps: seq<Step>)
    ensures CountSkipped(steps) + CountInvoked(engine, steps) + CountUnregistered(engine, steps) == |steps|
    ensures CountUnregistered(engine, steps) == 0 <==>
      forall i | 0 <= i < |steps| && steps[i].Tried? :: steps[i].target.provider in engine.providers
    decreases |steps|
  {
    if steps != [] {
      var init := steps[..|steps| - 1];
      CountsAddUp(engine, init);
      assert forall i | 0 <= i < |init| :: init[i] == steps[i];
    }
  }

  /** Events are numbered 1 to n, one per visited target, in plan order; skipped targets
      and upstream calls add up to n exactly when the provider of every attempted target
      is registered; and n never exceeds the plan's attempt limit. */
  lemma AttemptsAreAccounted(w: World, history: seq<Op>, engine: Engine, envelope: Envelope, plan: ExecutionPlan,
                             script: Script, steps: seq<Step>)
    requires w.Valid() && Executed(w, history, engine, envelope, plan, script, steps)
    ensures |steps| <= plan.attemptLimit && |steps| <= |plan.Targets()|
    ensures forall i | 0 <= i < |steps| ::
      && steps[i].target == plan.Targets()[i]
      && steps[i].event.sequence == i + 1
      && steps[i].event.provider == plan.Targets()[i].provider
      && steps[i].event.model == plan.Targets()[i].alias
      && (steps[i].event.status == HealthSkipped <==> steps[i].Skipped?)
    ensures CountSkipped(steps) + CountInvoked(engine, steps) <= plan.attemptLimit
    ensures CountSkipped(steps) + CountInvoked(engine, steps) == |steps| <==>
      forall i | 0 <= i < |steps| && steps[i].Tried? :: steps[i].target.provider in engine.providers
  {
    CountsAddUp(engine, steps);
    hide GrantedLease, From, AllCalls, Judge, HttpOf;
    forall i | 0 <= i < |steps|
      ensures steps[i].target == plan.Targets()[i]
      ensures steps[i].event.sequence == i + 1
      ensures steps[i].event.provider == plan.Targets()[i].provider
      ensures steps[i].event.model == plan.Targets()[i].alias
      ensures steps[i].event.status == HealthSkipped <==> steps[i].Skipped?
    {
      assert Faithful(w, history, engine, envelope, plan, script, steps, i);
    }
  }

  /** Every exchange that a run opened is closed exactly once by the end of its attempt,
      except that of a committed stream, which is the last and is handed over open. */
  lemma ExchangesAreClosedOnce(w: World, history: seq<Op>, engine: Engine, envelope: Envelope, plan: ExecutionPlan,
                               script: Script, steps: seq<Step>, i: nat)
    requires w.Valid() && Executed(w, history, engine, envelope, plan, script, steps)
    requires i < |steps| && steps[i].Tried?
    ensures steps[i].closes.Some? <==> OpensExchange(engine, plan.Targets()[i], script(i).answer)
    ensures steps[i].closes in {None, Some(1)}
      || (steps[i].closes == Some(0) && steps[i].verdict.HandedOver? && i == |steps| - 1)
    ensures steps[i].verdict.HandedOver? ==> steps[i].closes == Some(0)
  {
    assert Faithful(w, history, engine, envelope, plan, script, steps, i);
    HandedOverIsOpened(engine, envelope, plan.Targets()[i], script(i).answer);
    hide From, GrantedLease, AllCalls, Judge, HttpOf;
    assert i < |steps| - 1 ==> GoesOn(steps[i]);
  }

  // ------------------------------------------------------------------ agreement with health

  predicate Contradictory(error: RouterError) {
    error.fallbackAllowed != (error.code in TRANSIENT_CODES)
  }

  /** The attempts after which execution and health part ways: an error made outside the
      router whose code and fallback flag disagree, or usage that cannot be normalised
      after success was recorded. */
  predicate PartsWays(engine: Engine, envelope: Envelope, target: ModelTarget, answer: Answer) {
    && target.provider in engine.providers
    && match answer
       case InvokeRaised(error) => Contradictory(error)
       case Opened(status, _, eventStream, first, json) =>
         && 200 <= status < 300
         && (if envelope.stream
             then eventStream && first.Reads? && !Opens(Flatten(first.body.chunks))
                  && first.body.ending.BodyRaised? && Contradictory(first.body.ending.error)
             else json.Collected? && !json.usable)
       case _ => false
  }

  lemma UnopenedBody(body: Body)
    requires !Opens(Flatten(body.chunks))
    ensures FirstOpening(body, 0) == Err(EndingError(body.ending))
  {
    CommittableExactly(body.chunks);
    NeverOpens(body, 0);
  }

  lemma {:induction false} OpenedBody(body: Body, k: nat)
    requires k <= |body.chunks| && Opens(Flatten(body.chunks))
    ensures FirstOpening(body, k).Ok?
    decreases |body.chunks| - k
  {
    if k < |body.chunks| {
      OpenedBody(body, k + 1);
    } else {
      assert body.chunks[..k] == body.chunks;
    }
  }

  lemma OwnErrorAgrees(error: RouterError)
    requires error in OWN_ERRORS
    ensures !Contradictory(error)
  {
    FallbackAgreesWithHealth(200, Success, None, error);
  }

  lemma StreamAgreement(engine: Engine, protocol: Protocol, eventStream: bool, first: FirstRead)
    ensures var v := JudgeStream(engine, protocol, eventStream, first);
      v.Lost? ==>
        ((v.error.fallbackAllowed <==> Transient(v.failureClass)) <==>
          !(eventStream && first.Reads? && !Opens(Flatten(first.body.chunks))
            && first.body.ending.BodyRaised? && Contradictory(first.body.ending.error)))
  {
    OwnErrorAgrees(UpstreamRejected());
    OwnErrorAgrees(ResponseHeaderTimeout());
    OwnErrorAgrees(EmptyStream());
    OwnErrorAgrees(ReadFailed());
    OwnErrorAgrees(InvalidStream());
    hide FirstOpening, Opens;
    if eventStream && first.Reads? {
      if Opens(Flatten(first.body.chunks)) {
        OpenedBody(first.body, 0);
      } else {
        UnopenedBody(first.body);
      }
    }
  }

  /** Execution and health agree on every lost attempt, fallback being allowed just if the
      recorded class is transient, except in exactly the cases that PartsWays lists. */
  lemma AgreementExactly(engine: Engine, envelope: Envelope, target: ModelTarget, answer: Answer)
    ensures var v := Judge(engine, envelope, target, answer);
      v.Lost? ==>
        ((v.error.fallbackAllowed <==> Transient(v.failureClass)) <==> !PartsWays(engine, envelope, target, answer))
  {
    OwnErrorAgrees(ResponseHeaderTimeout());
    OwnErrorAgrees(TimeoutError());
    OwnErrorAgrees(ReadFailed());
    if answer.Opened? {
      StreamAgreement(engine, envelope.protocol, answer.eventStream, answer.first);
    }
    hide JudgeStream, Contradictory, Opens;
    if answer.InvokeRaised? {
      assert Contradictory(answer.error) <==>
        answer.error.fallbackAllowed != Transient(DecisionForRouterError(answer.error).failureClass);
    }
  }

  /** Another target is visited after an attempted one only if the attempt was lost, its
      lease recorded, and the recorded class transient, except where PartsWays applies;
      so nothing is acquired after a success, a commit or a cancellation. Conversely an
      attempt lost with a transient class is followed by the next target, if there is
      one, its protocol matches and the deadline has not passed. */
  lemma FallbackFollowsHealth(w: World, history: seq<Op>, engine: Engine, envelope: Envelope, plan: ExecutionPlan,
                              script: Script, steps: seq<Step>, i: nat)
    requires w.Valid() && Executed(w, history, engine, envelope, plan, script, steps)
    requires Stopped(envelope, plan, script, steps)
    requires i < |steps| && steps[i].Tried? && !PartsWays(engine, envelope, plan.Targets()[i], script(i).answer)
    ensures i + 1 < |steps| ==> steps[i].verdict.Lost? && Transient(steps[i].verdict.failureClass)
    ensures steps[i].verdict.Lost? && Transient(steps[i].verdict.failureClass) ==>
      || i + 1 < |steps| || i + 1 == |plan.Targets()|
      || script(i + 1).expired || plan.Targets()[i + 1].protocol != envelope.protocol
  {
    assert Faithful(w, history, engine, envelope, plan, script, steps, i);
    hide From, GrantedLease, AllCalls, PartsWays, Judge;
    AgreementExactly(engine, envelope, plan.Targets()[i], script(i).answer);
    assert i + 1 < |steps| ==> GoesOn(steps[i]);
  }

  /** Two attempts after which execution and health do part ways: success is recorded, yet
      the next target is tried; and a router error raised behind the Provider port allows
      a fallback although it is recorded as a rejected request. The port admits the second;
      the adapters of the two protocols report their failures as ProviderFailure. */
  lemma PartingWays(engine: Engine, target: ModelTarget, payload: Bytes)
    requires target.provider in engine.providers
    ensures var answer := Opened(200, None, false, ReadLate, Collected(payload, false));
      var v := Judge(engine, Envelope(false, AnthropicMessages), target, answer);
      v.Lost? && v.failureClass == Success && v.error.fallbackAllowed
    ensures var answer := InvokeRaised(PlainError("router_provider_busy", 503, true));
      var v := Judge(engine, Envelope(false, AnthropicMessages), target, answer);
      v.Lost? && v.failureClass == RequestRejected && v.error.fallbackAllowed
  {}

  /** A kept error that reads as the router's own timeout. */
  predicate ReadsAsTimeout(error: Option<RouterError>) {
    error.Some? && error.value.code == TimeoutError().code
  }

  /** Exhaustion is reported exactly when every planned target was visited, each skipped or
      lost with a fallback allowed, not all of them skipped, and no error made outside the
      router passes for a timeout at the end; or when the last attempt was lost to an
      error that itself is an exhaustion. */
  lemma ExhaustedExactly(w: World, history: seq<Op>, engine: Engine, envelope: Envelope, plan: ExecutionPlan,
                         script: Script, steps: seq<Step>, snap: Option<AvailabilitySnapshot>)
    requires w.Valid() && Executed(w, history, engine, envelope, plan, script, steps)
    requires Stopped(envelope, plan, script, steps)
    requires FellThrough(envelope, plan, script, steps) && NeverInvoked(engine, steps) ==> snap.Some?
    ensures Answered(engine, envelope, plan, script, steps, snap) == Failed(UpstreamExhausted()) <==>
      || (&& |steps| == |plan.Targets()| && (forall i | 0 <= i < |steps| :: GoesOn(steps[i]))
          && !NeverInvoked(engine, steps) && !ReadsAsTimeout(LastError(steps)))
      || (&& steps != [] && steps[|steps| - 1].Tried? && steps[|steps| - 1].verdict.Lost?
          && steps[|steps| - 1].verdict.error == UpstreamExhausted() && !NeverInvoked(engine, steps))
    ensures var r := Answered(engine, envelope, plan, script, steps, snap);
      |plan.Targets()| >= 1 && r == Failed(UpstreamExhausted()) ==>
      exists i :: 0 <= i < |steps| && steps[i].Tried?
  {
    assert forall i | 0 <= i < |steps| - 1 :: GoesOn(steps[i]);
    hide Executed, Answered, Stopped, FellThrough, NeverInvoked, LastError, ReadsAsTimeout;
    AllGoOn(steps);
    ExhaustedAtEnd(engine, envelope, plan, script, steps, snap);
    NeverInvokedExactly(engine, steps);
  }

  lemma AllGoOn(steps: seq<Step>)
    requires forall i | 0 <= i < |steps| - 1 :: GoesOn(steps[i])
    ensures StillGoing(steps) <==> forall i | 0 <= i < |steps| :: GoesOn(steps[i])
  {}

  lemma ExhaustedAtEnd(engine: Engine, envelope: Envelope, plan: ExecutionPlan, script: Script, steps: seq<Step>,
                       snap: Option<AvailabilitySnapshot>)
    requires |steps| <= |plan.Targets()| && Stopped(envelope, plan, script, steps)
    requires forall i | 0 <= i < |steps| - 1 :: GoesOn(steps[i])
    requires FellThrough(envelope, plan, script, steps) && NeverInvoked(engine, steps) ==> snap.Some?
    ensures Answered(engine, envelope, plan, script, steps, snap) == Failed(UpstreamExhausted()) <==>
      || (&& |steps| == |plan.Targets()| && StillGoing(steps)
          && !NeverInvoked(engine, steps) && !ReadsAsTimeout(LastError(steps)))
      || (&& steps != [] && steps[|steps| - 1].Tried? && steps[|steps| - 1].verdict.Lost?
          && steps[|steps| - 1].verdict.error == UpstreamExhausted() && !NeverInvoked(engine, steps))
  {
    LastErrorIsLost(steps);
    OtherAnswersDiffer();
    var lastError := ErrorAtEnd(plan, script, steps);
    if FellThrough(envelope, plan, script, steps) {
      ExhaustedTerminally(plan, lastError, CountInvoked(engine, steps), CountSkipped(steps), snap);
    }
    hide CountInvoked, CountSkipped, LastError, TerminalError, UpstreamExhausted, ProtocolMismatch, CancelledError,
      TimeoutError;
  }

  lemma OtherAnswersDiffer()
    ensures UpstreamExhausted() !in {ProtocolMismatch(), CancelledError()}
    ensures UpstreamExhausted().code != TimeoutError().code && !UpstreamExhausted().fallbackAllowed
    ensures ReadsAsTimeout(Some(TimeoutError()))
  {}

  lemma ExhaustedTerminally(plan: ExecutionPlan, lastError: Option<RouterError>, invoked: nat, skipped: nat,
                            snap: Option<AvailabilitySnapshot>)
    requires invoked == 0 && skipped > 0 ==> snap.Some?
    ensures TerminalError(plan, lastError, invoked, skipped, snap) == UpstreamExhausted() <==>
      && !(invoked == 0 && skipped > 0)
      && !ReadsAsTimeout(lastError)
      && (lastError.Some? && !lastError.value.fallbackAllowed ==> lastError.value == UpstreamExhausted())
  {}

  lemma {:induction false} LastErrorIsLost(steps: seq<Step>)
    requires forall i | 0 <= i < |steps| - 1 :: GoesOn(steps[i])
    ensures StillGoing(steps) && LastError(steps).Some? ==> LastError(steps).value.fallbackAllowed
    ensures !StillGoing(steps) && steps[|steps| - 1].verdict.Lost? ==>
      LastError(steps) == Some(steps[|steps| - 1].verdict.error) && !steps[|steps| - 1].verdict.error.fallbackAllowed
    decreases |steps|
  {
    if steps != [] {
      var init := steps[..|steps| - 1];
      assert forall i | 0 <= i < |init| :: init[i] == steps[i];
      LastErrorIsLost(init);
    }
  }

  lemma {:induction false} NeverInvokedExactly(engine: Engine, steps: seq<Step>)
    ensures steps != [] && !NeverInvoked(engine, steps) ==> exists i :: 0 <= i < |steps| && steps[i].Tried?
    decreases |steps|
  {
    CountsAddUp(engine, steps);
    if steps != [] && CountInvoked(engine, steps) > 0 {
      SomeInvoked(engine, steps);
    } else if steps != [] && CountSkipped(steps) == 0 {
      NoneSkipped(steps);
    }
  }

  lemma {:induction false} SomeInvoked(engine: Engine, steps: seq<Step>)
    requires CountInvoked(engine, steps) > 0
    ensures exists i :: 0 <= i < |steps| && steps[i].Tried?
    decreases |steps|
  {
    var init := steps[..|steps| - 1];
    if steps[|steps| - 1].Skipped? {
      SomeInvoked(engine, init);
      var i :| 0 <= i < |init| && init[i].Tried?;
      assert steps[i].Tried?;
    } else {
      assert steps[|steps| - 1].Tried?;
    }
  }

  lemma NoneSkipped(steps: seq<Step>)
    requires steps != [] && CountSkipped(steps) == 0
    ensures exists i :: 0 <= i < |steps| && steps[i].Tried?
  {
    assert steps[|steps| - 1].Tried?;
  }
}
