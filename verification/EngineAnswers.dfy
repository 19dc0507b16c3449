/** What execution makes of each answer of a Provider, and what it answers itself. */
module ExecutionAnswers {
  import opened Prelude
  import opened Domain
  import opened HealthModels
  import opened HealthMachine
  import opened HealthTheorems
  import opened HealthOutcomes
  import opened RoutingKernel
  import opened Sse
  import opened FirstEvent
  import opened Attempts
  import opened Execution
  import opened ExecutionTheorems

  /** The attempt is lost with this class on record, this Retry-After, and this error. */
  predicate LostAs(v: Verdict, failureClass: FailureClass, retryAfter: Option<real>, code: string, status: int,
                   fallback: bool) {
    && v.Lost? && v.failureClass == failureClass && v.retryAfter == retryAfter
    && v.error.code == code && v.error.httpStatus == status && v.error.fallbackAllowed == fallback
  }

  // ------------------------------------------------------------------- statuses of errors

  /** An answer with a status other than success: whether another target may be tried,
      what is held against whom, what the client would be told, and that the parsed
      Retry-After reaches both. */
  lemma StatusExactly(engine: Engine, envelope: Envelope, target: ModelTarget, status: int, retryAfter: Option<real>,
                      eventStream: bool, first: FirstRead, json: JsonRead)
    requires target.provider in engine.providers && (status < 200 || status >= 300)
    ensures var v := Judge(engine, envelope, target, Opened(status, retryAfter, eventStream, first, json));
      && v.Lost? && v.retryAfter == retryAfter && v.error.retryAfter == retryAfter
      && (v.error.fallbackAllowed <==> status in {429, 500, 502, 503, 504, 529})
      && (v.failureClass == TargetPermanent <==> status == 404)
      && (v.failureClass == ProviderPermanent <==> status == 401)
      && (v.failureClass == TargetTransient <==> status == 429)
      && (v.failureClass == ProviderTransient <==> status in {500, 502, 503, 504, 529})
      && (v.failureClass == RequestRejected <==> status !in {401, 404, 429, 500, 502, 503, 504, 529})
      && (v.error.code, v.error.httpStatus) ==
           (if v.error.fallbackAllowed then ("router_upstream_retryable", 503) else ("router_upstream_rejected", 502))
  {}

  /** On the coordinator such an answer blocks the target iff it says not found and the
      Provider iff it says unauthorized. It is a transient failure, with the Provider's
      wish for the cooldown, of the target iff it says too many requests and of the
      Provider iff it is one of five server errors. Any other leaves both domains as they
      were, but for the token of a probe. */
  lemma StatusOnHealth(w: World, ops: seq<Op>, op: Op, at: Time, d: DomainKey, r: Record, r': Record,
                       engine: Engine, envelope: Envelope, target: ModelTarget, status: int, retryAfter: Option<real>,
                       eventStream: bool, first: FirstRead, json: JsonRead)
    requires target.provider in engine.providers && (status < 200 || status >= 300)
    requires op.RecordOp? && w.Valid() && Moves(w, ops, op, d, r, r') && Settles(From(w, ops), op, d)
    requires Some(op.outcome) ==
      OutcomeOf(Judge(engine, envelope, target, Opened(status, retryAfter, eventStream, first, json)), at)
    ensures r'.state == Blocked <==> if d.TargetDomain? then status == 404 else status == 401
    ensures TransientClass(op.outcome.failureClass, d) <==>
      if d.TargetDomain? then status == 429 else status in {500, 502, 503, 504, 529}
    ensures op.outcome.retryAfter == retryAfter && op.outcome.observedAt == at
    ensures status !in {401, 404, 429, 500, 502, 503, 504, 529} ==> r' in {r, r.(token := None)}
  {
    StatusCharges(engine, envelope, target, status, retryAfter, eventStream, first, json, op.outcome, at, d);
    hide Judge, OutcomeOf, Moves, From, Settles, TransientClass, PermanentClass, ChargedElsewhere;
    BlockedOnlyByPermanent(w, ops, op, d, r, r');
    if status !in {401, 404, 429, 500, 502, 503, 504, 529} {
      NeutralOutcomeReleases(w, ops, op, d, r, r');
    }
  }

  lemma StatusCharges(engine: Engine, envelope: Envelope, target: ModelTarget, status: int, retryAfter: Option<real>,
                      eventStream: bool, first: FirstRead, json: JsonRead, outcome: AttemptOutcome, at: Time,
                      d: DomainKey)
    requires target.provider in engine.providers && (status < 200 || status >= 300)
    requires Some(outcome) ==
      OutcomeOf(Judge(engine, envelope, target, Opened(status, retryAfter, eventStream, first, json)), at)
    ensures outcome.failureClass != Success && outcome.retryAfter == retryAfter && outcome.observedAt == at
    ensures PermanentClass(outcome.failureClass, d) <==> if d.TargetDomain? then status == 404 else status == 401
    ensures TransientClass(outcome.failureClass, d) <==>
      if d.TargetDomain? then status == 429 else status in {500, 502, 503, 504, 529}
  {
    StatusExactly(engine, envelope, target, status, retryAfter, eventStream, first, json);
    hide Judge;
  }

  // ----------------------------------------------------------------------- other answers

  /** How an attempt whose Provider gives no answer ends. */
  lemma InvocationExactly(engine: Engine, envelope: Envelope, target: ModelTarget, answer: Answer)
    requires !answer.Opened? || target.provider !in engine.providers
    ensures var v := Judge(engine, envelope, target, answer);
      if target.provider !in engine.providers then
        LostAs(v, ProviderTransient, None, "router_upstream_retryable", 503, true)
      else match answer
        case InvokeLate => LostAs(v, ProviderTransient, None, "router_upstream_header_timeout", 503, true)
        case InvokeCancelled => v == Interrupted
        case InvokeCrashed => LostAs(v, ProviderTransient, None, "router_upstream_retryable", 503, true)
        case InvokeRaised(error) =>
          && v.Lost? && v.error == error && v.retryAfter == None
          && v.failureClass == (
               if error.code in {"router_upstream_empty_stream", "router_upstream_header_timeout",
                                 "router_upstream_invalid_stream", "router_upstream_read_failed"}
               then ProviderTransient else RequestRejected)
        case InvokeFailed(failureClass, retryAfter) =>
          && v.Lost? && v.error.retryAfter == retryAfter
          && (match failureClass
              case ProviderTransient => LostAs(v, ProviderTransient, retryAfter, "router_upstream_retryable", 503, true)
              case TargetTransient => LostAs(v, TargetTransient, retryAfter, "router_upstream_retryable", 503, true)
              case ClientCancelled => LostAs(v, ClientCancelled, retryAfter, "router_cancelled", 499, false)
              case PostCommitStreamFailure =>
                LostAs(v, PostCommitStreamFailure, retryAfter, "router_upstream_read_failed", 502, false)
              case Success => LostAs(v, Success, retryAfter, "router_internal_error", 500, false)
              case _ => LostAs(v, failureClass, retryAfter, "router_upstream_rejected", 502, false))
        case Opened(_, _, _, _, _) => false
  {}

  /** How one that is answered with success, but not by a stream, ends. */
  lemma BodyExactly(engine: Engine, envelope: Envelope, target: ModelTarget, answer: Answer)
    requires target.provider in engine.providers && answer.Opened? && 200 <= answer.status < 300 && !envelope.stream
    ensures var v := Judge(engine, envelope, target, answer);
      match answer.json
      case HeaderLate => LostAs(v, ProviderTransient, None, "router_upstream_header_timeout", 503, true)
      case Overdue => LostAs(v, RequestRejected, None, "router_timeout", 504, false)
      case JsonBroke => LostAs(v, ProviderTransient, None, "router_upstream_read_failed", 503, true)
      case JsonCancelled => v == Interrupted
      case Collected(payload, usable) =>
        if usable then v == Delivered(payload) else LostAs(v, Success, None, "router_upstream_retryable", 503, true)
  {}

  /** How one that is answered by a stream ends: it is handed over on its first event if
      that exists, is not blank and is accepted. */
  lemma StreamExactly(engine: Engine, envelope: Envelope, target: ModelTarget, answer: Answer)
    requires target.provider in engine.providers && answer.Opened? && 200 <= answer.status < 300 && envelope.stream
    ensures var v := Judge(engine, envelope, target, answer);
      if !answer.eventStream then LostAs(v, RequestRejected, None, "router_upstream_rejected", 502, false)
      else match answer.first
        case ReadLate => LostAs(v, ProviderTransient, None, "router_upstream_header_timeout", 503, true)
        case ReadCancelled => v == Interrupted
        case Reads(body) =>
          var stream := Flatten(body.chunks);
          if Drain(stream).0 == [] || Blank(Drain(stream).0[0]) then
            (match body.ending
             case EndOfBody => LostAs(v, ProviderTransient, None, "router_upstream_empty_stream", 503, true)
             case BodyBroke => LostAs(v, ProviderTransient, None, "router_upstream_read_failed", 503, true)
             case BodyRaised(error) => v.Lost? && v.error == error && v.retryAfter == None)
          else if envelope.protocol !in engine.semantics then
            LostAs(v, ProviderTransient, None, "router_upstream_retryable", 503, true)
          else match engine.semantics[envelope.protocol].validate(Drain(stream).0[0])
            case Accepted => v.HandedOver? && v.opening.first == Drain(stream).0[0]
            case InvalidEvent => LostAs(v, ProviderTransient, None, "router_upstream_invalid_stream", 502, true)
            case ValidationCrashed => LostAs(v, ProviderTransient, None, "router_upstream_retryable", 503, true)
  {
    if answer.eventStream && answer.first.Reads? {
      var body := answer.first.body;
      CommittableExactly(body.chunks);
      FirstOpeningMeaning(body, 0);
      if FirstOpening(body, 0).Ok? {
        var (o, taken) := FirstOpening(body, 0).value;
        FirstEventIsOfTheStream(body.chunks, taken, o);
      }
    }
    hide Opens, FirstOpening, Drain, Flatten, Blank;
  }

  // ------------------------------------------------------------------------------ events

  /** The event of each visited target tells how its visit ended, the upstream status if
      there was one, and the error if the attempt was lost or cancelled. */
  lemma EventsExactly(w: World, history: seq<Op>, engine: Engine, envelope: Envelope, plan: ExecutionPlan,
                      script: Script, steps: seq<Step>, i: nat)
    requires w.Valid() && Executed(w, history, engine, envelope, plan, script, steps) && i < |steps|
    ensures var step, e := steps[i], steps[i].event;
      && e.upstreamInvoked == step.Tried?
      && (e.status == HealthSkipped <==> step.Skipped?)
      && (e.status == Committed <==> step.Tried? && step.verdict.HandedOver?)
      && (e.status == AttemptSucceeded <==> step.Tried? && step.verdict.Delivered?)
      && (e.status == CancelledAttempt <==> step.Tried? && step.verdict.Interrupted?)
      && (e.status == FailedAttempt <==> step.Tried? && step.verdict.Lost?)
      && e.errorCode == (
           if e.status == FailedAttempt then Some(step.verdict.error.code)
           else if e.status == CancelledAttempt then Some("router_cancelled")
           else None)
      && (e.httpStatus.Some? <==> step.Tried? && OpensExchange(engine, plan.Targets()[i], script(i).answer))
      && (e.httpStatus.Some? ==> e.httpStatus.value == script(i).answer.status)
  {
    assert Faithful(w, history, engine, envelope, plan, script, steps, i);
    hide Judge, From, GrantedLease, AllCalls;
  }

  // ----------------------------------------------------------------------------- answers

  /** A target is refused for its protocol, or the deadline passes, before the n-th visit. */
  ghost predicate RefusedAt(envelope: Envelope, plan: ExecutionPlan, script: Script, n: nat) {
    n < |plan.Targets()| && !script(n).expired && plan.Targets()[n].protocol != envelope.protocol
  }

  ghost predicate ExpiredAt(plan: ExecutionPlan, script: Script, n: nat) {
    n < |plan.Targets()| && script(n).expired
  }

  predicate IsFailure(r: Response, code: string, status: int) {
    r.Failed? && r.error.code == code && r.error.httpStatus == status
  }

  /** What the client gets. The last visit decides if it answered, was cancelled or was lost
      without a fallback; else a refused protocol; else, if no upstream was called and some
      target was skipped, that none is available, with the fresh snapshot's word on when;
      else a deadline that passed; else exhaustion, unless the last error reads as a timeout. */
  ghost predicate AnswerIs(engine: Engine, envelope: Envelope, plan: ExecutionPlan, script: Script, steps: seq<Step>,
                           snap: Option<AvailabilitySnapshot>, r: Response)
    requires |steps| <= |plan.Targets()|
  {
    var n := |steps|;
    if n > 0 && steps[n - 1].Tried? && !steps[n - 1].verdict.Lost? then
      match steps[n - 1].verdict
      case HandedOver(opening, taken) => r == CommittedStream(plan.Targets()[n - 1], opening, taken)
      case Delivered(payload) => r == Complete(plan.Targets()[n - 1], payload)
      case _ => IsFailure(r, "router_cancelled", 499)
    else if StillGoing(steps) && RefusedAt(envelope, plan, script, n) then
      IsFailure(r, "router_protocol_mismatch", 500)
    else if NeverInvoked(engine, steps) then
      && IsFailure(r, "router_no_available_target", 503)
      && snap.Some? && r.error.retryAfter == RetryAfter(snap.value)
      && r.error.healthSnapshotRevision == snap.value.revision
      && r.error.healthFilteredCount == plan.healthFilteredCount
      && r.error.healthSkippedCount == CountSkipped(steps)
      && r.error.healthReason == Some("health_lease_unavailable")
    else if StillGoing(steps) && ExpiredAt(plan, script, n) then
      IsFailure(r, "router_timeout", 504)
    else if !StillGoing(steps) then
      r == Failed(steps[n - 1].verdict.error)
    else if ReadsAsTimeout(LastError(steps)) then
      r == Failed(LastError(steps).value)
    else
      IsFailure(r, "router_upstream_exhausted", 503)
  }

  lemma AnswerExactly(w: World, history: seq<Op>, engine: Engine, envelope: Envelope, plan: ExecutionPlan,
                      script: Script, steps: seq<Step>, snap: Option<AvailabilitySnapshot>)
    requires w.Valid() && Executed(w, history, engine, envelope, plan, script, steps)
    requires Stopped(envelope, plan, script, steps)
    requires FellThrough(envelope, plan, script, steps) && NeverInvoked(engine, steps) ==> snap.Some?
    ensures AnswerIs(engine, envelope, plan, script, steps, snap, Answered(engine, envelope, plan, script, steps, snap))
  {
    assert forall i | 0 <= i < |steps| - 1 :: GoesOn(steps[i]);
    if steps != [] {
      LastTarget(w, history, engine, envelope, plan, script, steps);
    }
    hide Executed, AnswerIs, Answered, Stopped, FellThrough, NeverInvoked;
    AnswerOfVisits(engine, envelope, plan, script, steps, snap);
  }

  lemma AnswerOfVisits(engine: Engine, envelope: Envelope, plan: ExecutionPlan, script: Script, steps: seq<Step>,
                       snap: Option<AvailabilitySnapshot>)
    requires |steps| <= |plan.Targets()| && Stopped(envelope, plan, script, steps)
    requires forall i | 0 <= i < |steps| - 1 :: GoesOn(steps[i])
    requires steps != [] ==> steps[|steps| - 1].target == plan.Targets()[|steps| - 1]
    requires FellThrough(envelope, plan, script, steps) && NeverInvoked(engine, steps) ==> snap.Some?
    ensures AnswerIs(engine, envelope, plan, script, steps, snap, Answered(engine, envelope, plan, script, steps, snap))
  {
    OwnCodes();
    LastErrorIsLost(steps);
    var lastError := ErrorAtEnd(plan, script, steps);
    if FellThrough(envelope, plan, script, steps) {
      TerminalExactly(plan, lastError, CountInvoked(engine, steps), CountSkipped(steps), snap);
    }
    hide CountInvoked, CountSkipped, LastError, RetryAfter, TerminalError;
    hide UpstreamExhausted, ProtocolMismatch, CancelledError, TimeoutError;
  }

  lemma OwnCodes()
    ensures IsFailure(Failed(CancelledError()), "router_cancelled", 499)
    ensures IsFailure(Failed(ProtocolMismatch()), "router_protocol_mismatch", 500)
    ensures IsFailure(Failed(TimeoutError()), "router_timeout", 504) && ReadsAsTimeout(Some(TimeoutError()))
    ensures IsFailure(Failed(UpstreamExhausted()), "router_upstream_exhausted", 503)
  {}

  lemma TerminalExactly(plan: ExecutionPlan, lastError: Option<RouterError>, invoked: nat, skipped: nat,
                        snap: Option<AvailabilitySnapshot>)
    requires invoked == 0 && skipped > 0 ==> snap.Some?
    ensures var r := Failed(TerminalError(plan, lastError, invoked, skipped, snap));
      if invoked == 0 && skipped > 0 then
        && IsFailure(r, "router_no_available_target", 503)
        && r.error.retryAfter == RetryAfter(snap.value)
        && r.error.healthSnapshotRevision == snap.value.revision
        && r.error.healthFilteredCount == plan.healthFilteredCount
        && r.error.healthSkippedCount == skipped
        && r.error.healthReason == Some("health_lease_unavailable")
      else if ReadsAsTimeout(lastError) || (lastError.Some? && !lastError.value.fallbackAllowed) then
        r.error == lastError.value
      else r.error == UpstreamExhausted()
  {
    hide RetryAfter;
  }

  lemma LastTarget(w: World, history: seq<Op>, engine: Engine, envelope: Envelope, plan: ExecutionPlan, script: Script,
                   steps: seq<Step>)
    requires w.Valid() && Executed(w, history, engine, envelope, plan, script, steps) && steps != []
    ensures |steps| <= |plan.Targets()| && steps[|steps| - 1].target == plan.Targets()[|steps| - 1]
  {
    assert Faithful(w, history, engine, envelope, plan, script, steps, |steps| - 1);
    hide Judge, From, GrantedLease, AllCalls, HttpOf;
  }
}
