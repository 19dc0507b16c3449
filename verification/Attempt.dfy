/** One admitted attempt of the execution engine (the body of the loop in execution/engine.py). */
module Attempts {
  import opened Prelude
  import opened Domain
  import opened HealthModels
  import opened HealthMachine
  import opened HealthCoordinator
  import opened Failures
  import opened Sse
  import opened StreamObserver
  import opened FirstEvent
  import opened Exchanges

  // ---------------------------------------------------------------- what may happen

  datatype FirstRead = Reads(body: Body) | ReadLate | ReadCancelled

  /** `usable` is false when normalising the usage of the payload raises. */
  datatype JsonRead = Collected(payload: Bytes, usable: bool) | HeaderLate | Overdue | JsonBroke | JsonCancelled

  datatype Answer =
    | Opened(status: int, retryAfter: Option<real>, eventStream: bool, first: FirstRead, json: JsonRead)
    | InvokeLate
    | InvokeCancelled
    | InvokeFailed(failureClass: FailureClass, failedRetryAfter: Option<real>)  // ProviderFailure
    | InvokeRaised(error: RouterError)
    | InvokeCrashed

  datatype Envelope = Envelope(stream: bool, protocol: Protocol)

  datatype Engine = Engine(providers: set<string>, semantics: map<Protocol, Semantics>)

  // ------------------------------------------------------------------ specification

  /** How an attempt ends, and with which class its lease is recorded. */
  datatype Verdict =
    | HandedOver(opening: Opening, taken: nat)
    | Delivered(payload: Bytes)
    | Interrupted
    | Lost(failureClass: FailureClass, retryAfter: Option<real>, error: RouterError)

  function LostBy(d: FailureDecision): Verdict {
    Lost(d.failureClass, d.retryAfter, d.routerError)
  }

  function LostTo(error: RouterError): Verdict {
    LostBy(DecisionForRouterError(error))
  }

  function Crash(): Verdict {
    Lost(ProviderTransient, None, RouterErrorForFailure(ProviderTransient))
  }

  /** An exception after success was recorded. */
  function LateCrash(): Verdict {
    Lost(Success, None, RouterErrorForFailure(ProviderTransient))
  }

  function JudgeStream(engine: Engine, protocol: Protocol, eventStream: bool, first: FirstRead): Verdict {
    if !eventStream then LostTo(UpstreamRejected())
    else match first
      case ReadLate => LostTo(ResponseHeaderTimeout())
      case ReadCancelled => Interrupted
      case Reads(body) =>
        match FirstOpening(body, 0)
        case Err(error) => LostTo(error)
        case Ok((opening, taken)) =>
          if protocol !in engine.semantics then Crash()
          else match engine.semantics[protocol].validate(opening.first)
            case Accepted => HandedOver(opening, taken)
            case InvalidEvent => LostTo(InvalidStream())
            case ValidationCrashed => Crash()
  }

  function JudgeJson(read: JsonRead): Verdict {
    match read
    case HeaderLate => LostTo(ResponseHeaderTimeout())
    case Overdue => LostTo(TimeoutError())
    case JsonBroke => LostTo(ReadFailed())
    case JsonCancelled => Interrupted
    case Collected(payload, usable) => if usable then Delivered(payload) else LateCrash()
  }

  function JudgeOpened(engine: Engine, envelope: Envelope, status: int, retryAfter: Option<real>, eventStream: bool,
                       first: FirstRead, json: JsonRead): Verdict {
    if status < 200 || status >= 300 then LostBy(DecisionForHttp(status, retryAfter))
    else if envelope.stream then JudgeStream(engine, envelope.protocol, eventStream, first)
    else JudgeJson(json)
  }

  function Judge(engine: Engine, envelope: Envelope, target: ModelTarget, answer: Answer): Verdict {
    if target.provider !in engine.providers then Crash()
    else match answer
      case InvokeLate => LostTo(ResponseHeaderTimeout())
      case InvokeCancelled => Interrupted
      case InvokeFailed(failureClass, retryAfter) => LostBy(DecisionForClass(failureClass, retryAfter))
      case InvokeRaised(error) => LostTo(error)
      case InvokeCrashed => Crash()
      case Opened(status, retryAfter, eventStream, first, json) =>
        JudgeOpened(engine, envelope, status, retryAfter, eventStream, first, json)
  }

  /** The outcome recorded for the lease; none when the lease is handed to the relay. */
  function OutcomeOf(v: Verdict, at: Time): Option<AttemptOutcome> {
    match v
    case HandedOver(_, _) => None
    case Delivered(_) => Some(AttemptOutcome(Success, at, None))
    case Interrupted => Some(AttemptOutcome(ClientCancelled, at, None))
    case Lost(failureClass, retryAfter, _) => Some(AttemptOutcome(failureClass, at, retryAfter))
  }

  function HttpOf(engine: Engine, target: ModelTarget, answer: Answer): Option<int> {
    if target.provider in engine.providers && answer.Opened? then Some(answer.status) else None
  }

  /** The Provider opens an exchange, which then has to be closed. */
  predicate OpensExchange(engine: Engine, target: ModelTarget, answer: Answer) {
    target.provider in engine.providers && answer.Opened?
  }

  /** How often the exchange of an attempt is closed by its end; None if none was opened. */
  function ClosesOf(engine: Engine, target: ModelTarget, answer: Answer, v: Verdict): Option<nat> {
    if OpensExchange(engine, target, answer) then Some(if v.HandedOver? then 0 else 1) else None
  }

  // ---------------------------------------------------------------------- lease guard

  /** The record_lease closure of one attempt. */
  class LeaseGuard {
    const lease: HealthLease
    const health: InMemoryHealthCoordinator
    var recorded: bool

    constructor (lease: HealthLease, health: InMemoryHealthCoordinator)
      ensures this.lease == lease && this.health == health && !recorded
    {
      this.lease := lease;
      this.health := health;
      recorded := false;
    }

    method Record(outcome: AttemptOutcome)
      requires health.Valid() && this !in health.Repr
      modifies this, health.Repr
      ensures health.Valid() && recorded
      ensures health.history == old(health.history) + if old(recorded) then [] else [RecordOp(lease, outcome)]
    {
      if recorded {
        return;
      }
      recorded := true;
      health.Record(lease, outcome);
    }
  }

  // ---------------------------------------------------------------------- the attempt

  datatype Raised =
    | NothingRaised
    | CancelledRaised
    | FailureRaised(failureClass: FailureClass, retryAfter: Option<real>)
    | RouterRaised(error: RouterError)
    | OtherRaised

  datatype TryResult = TryResult(
    raised: Raised,
    decision: Option<FailureDecision>,
    http: Option<int>,
    opening: Option<(Opening, nat)>,
    payload: Bytes)

  function Nothing(http: Option<int>): TryResult {
    TryResult(NothingRaised, None, http, None, [])
  }

  /** What the try block leaves to its handlers, for an attempt with this verdict: whether
      it recorded the lease, opened an exchange, and still holds it. */
  ghost predicate Leaves(v: Verdict, t: TryResult, recorded: bool, opens: bool, held: bool) {
    && (match t.raised
        case NothingRaised =>
          && v == (if t.opening.Some? then HandedOver(t.opening.value.0, t.opening.value.1) else Delivered(t.payload))
          && (opens ==> (held <==> v.HandedOver?))
        case CancelledRaised => v == Interrupted
        case FailureRaised(failureClass, retryAfter) =>
          !opens && v == LostBy(DecisionForClass(failureClass, retryAfter))
        case RouterRaised(error) =>
          v == if t.decision.Some? then LostBy(t.decision.value).(error := error) else LostTo(error)
        case OtherRaised => v == if recorded then LateCrash() else Crash())
    && (held ==> opens)
    && (recorded ==> !v.HandedOver?)
    && (v.Delivered? ==> recorded)
  }

  /** The try block: everything up to the first exception or the return. */
  method TryInvoke(engine: Engine, envelope: Envelope, target: ModelTarget, answer: Answer, at: Time, guard: LeaseGuard)
    returns (t: TryResult, invoked: bool, exchange: Option<Exchange>, held: bool)
    requires guard.health.Valid() && guard !in guard.health.Repr && !guard.recorded
    modifies guard, guard.health.Repr
    ensures guard.health.Valid()
    ensures invoked <==> target.provider in engine.providers
    ensures t.http == HttpOf(engine, target, answer)
    ensures exchange.Some? <==> OpensExchange(engine, target, answer)
    ensures exchange.Some? ==> fresh(exchange.value) && exchange.value.closes == if held then 0 else 1
    ensures Leaves(Judge(engine, envelope, target, answer), t, guard.recorded, exchange.Some?, held)
    ensures guard.health.history == old(guard.health.history) +
      if guard.recorded
      then [RecordOp(guard.lease, OutcomeOf(Judge(engine, envelope, target, answer), at).value)]
      else []
  {
    hide InMemoryHealthCoordinator.Linked;
    t, invoked, exchange, held := Nothing(None), false, None, false;
    if target.provider !in engine.providers {
      return t.(raised := OtherRaised), false, None, false;
    }
    invoked := true;
    match answer {
      case InvokeLate =>
        t := t.(raised := RouterRaised(ResponseHeaderTimeout()));
      case InvokeCancelled =>
        t := t.(raised := CancelledRaised);
      case InvokeFailed(failureClass, retryAfter) =>
        t := t.(raised := FailureRaised(failureClass, retryAfter));
      case InvokeRaised(error) =>
        t := t.(raised := RouterRaised(error));
      case InvokeCrashed =>
        t := t.(raised := OtherRaised);
      case Opened(status, retryAfter, eventStream, first, json) =>
        var made;
        t, made, held := TryOpened(engine, envelope, status, retryAfter, eventStream, first, json, at, guard);
        exchange := Some(made);
    }
  }

  lemma LeavesAnyHttp(v: Verdict, t: TryResult, http: Option<int>, recorded: bool, held: bool)
    requires Leaves(v, t, recorded, true, held)
    ensures Leaves(v, t.(http := http), recorded, true, held)
  {}

  lemma RejectedLeaves(decision: FailureDecision, http: Option<int>)
    ensures Leaves(LostBy(decision),
                   Nothing(http).(decision := Some(decision), raised := RouterRaised(decision.routerError)),
                   true, true, false)
  {}

  /** The part of the try block that follows the opening of an exchange. */
  method TryOpened(engine: Engine, envelope: Envelope, status: int, retryAfter: Option<real>, eventStream: bool,
                   first: FirstRead, json: JsonRead, at: Time, guard: LeaseGuard)
    returns (t: TryResult, exchange: Exchange, held: bool)
    requires guard.health.Valid() && guard !in guard.health.Repr && !guard.recorded
    modifies guard, guard.health.Repr
    ensures guard.health.Valid()
    ensures t.http == Some(status)
    ensures fresh(exchange) && exchange.closes == if held then 0 else 1
    ensures var v := JudgeOpened(engine, envelope, status, retryAfter, eventStream, first, json);
      && Leaves(v, t, guard.recorded, true, held)
      && guard.health.history == old(guard.health.history) +
           if guard.recorded then [RecordOp(guard.lease, OutcomeOf(v, at).value)] else []
  {
    hide InMemoryHealthCoordinator.Linked, JudgeStream, JudgeJson, Leaves;
    exchange := new Exchange();
    t, held := Nothing(Some(status)), true;
    if status < 200 || status >= 300 {
      var decision := DecisionForHttp(status, retryAfter);
      exchange.Close();
      held := false;
      guard.Record(AttemptOutcome(decision.failureClass, at, decision.retryAfter));
      t := t.(decision := Some(decision), raised := RouterRaised(decision.routerError));
      RejectedLeaves(decision, t.http);
    } else if envelope.stream {
      var raised, opening := TryStream(engine, envelope.protocol, eventStream, first);
      LeavesAnyHttp(JudgeStream(engine, envelope.protocol, eventStream, first),
                    Nothing(None).(raised := raised, opening := opening), t.http, false, held);
      t := t.(raised := raised, opening := opening);
    } else {
      var raised, payload;
      raised, payload, held := TryJson(json, at, guard, exchange);
      LeavesAnyHttp(JudgeJson(json),
                    Nothing(None).(raised := raised, payload := payload), t.http, guard.recorded, held);
      t := t.(raised := raised, payload := payload);
    }
  }

  /** Collect a body that is not a stream; once it is collected, close and record. */
  method TryJson(json: JsonRead, at: Time, guard: LeaseGuard, exchange: Exchange)
    returns (raised: Raised, payload: Bytes, held: bool)
    requires guard.health.Valid() && guard !in guard.health.Repr && !guard.recorded
    requires exchange !in guard.health.Repr && exchange.closes == 0
    modifies guard, guard.health.Repr, exchange
    ensures guard.health.Valid() && exchange.closes == if held then 0 else 1
    ensures Leaves(JudgeJson(json), Nothing(None).(raised := raised, payload := payload), guard.recorded, true, held)
    ensures guard.health.history == old(guard.health.history) +
      if guard.recorded then [RecordOp(guard.lease, OutcomeOf(JudgeJson(json), at).value)] else []
  {
    hide InMemoryHealthCoordinator.Linked, Leaves, JudgeJson;
    JsonLeaves(json);
    raised := JsonRaises(json);
    payload := if json.Collected? then json.payload else [];
    held := !json.Collected?;
    if !held {
      exchange.Close();
      guard.Record(AttemptOutcome(Success, at, None));
    }
  }

  function JsonRaises(json: JsonRead): Raised {
    match json
    case HeaderLate => RouterRaised(ResponseHeaderTimeout())
    case Overdue => RouterRaised(TimeoutError())
    case JsonBroke => RouterRaised(ReadFailed())
    case JsonCancelled => CancelledRaised
    case Collected(_, usable) => if usable then NothingRaised else OtherRaised
  }

  lemma JsonLeaves(json: JsonRead)
    ensures var payload := if json.Collected? then json.payload else [];
      Leaves(JudgeJson(json), Nothing(None).(raised := JsonRaises(json), payload := payload),
             json.Collected?, true, !json.Collected?)
    ensures json.Collected? ==>
      forall at: Time :: OutcomeOf(JudgeJson(json), at) == Some(AttemptOutcome(Success, at, None))
  {}

  method TryStream(engine: Engine, protocol: Protocol, eventStream: bool, first: FirstRead)
    returns (raised: Raised, opening: Option<(Opening, nat)>)
    ensures Leaves(JudgeStream(engine, protocol, eventStream, first),
                   Nothing(None).(raised := raised, opening := opening), false, true, true)
  {
    if !eventStream {
      return RouterRaised(UpstreamRejected()), None;
    }
    match first {
      case ReadLate => return RouterRaised(ResponseHeaderTimeout()), None;
      case ReadCancelled => return CancelledRaised, None;
      case Reads(body) =>
        var read, taken := ReadFirstEvent(body);
        if read.Err? {
          return RouterRaised(read.error), None;
        }
        if protocol !in engine.semantics {
          return OtherRaised, None;
        }
        match engine.semantics[protocol].validate(read.value.first) {
          case Accepted => return NothingRaised, Some((read.value, taken));
          case InvalidEvent => return RouterRaised(InvalidStream()), None;
          case ValidationCrashed => return OtherRaised, None;
        }
    }
  }

  /** The whole attempt: the try block, then its handlers. The lease is recorded exactly
      once, with the outcome of the verdict, and its exchange closed exactly once, unless
      the attempt hands both over. */
  method Attempt(engine: Engine, envelope: Envelope, target: ModelTarget, answer: Answer, at: Time, guard: LeaseGuard)
    returns (v: Verdict, invoked: bool, http: Option<int>, exchange: Option<Exchange>)
    requires guard.health.Valid() && guard !in guard.health.Repr && !guard.recorded
    modifies guard, guard.health.Repr
    ensures guard.health.Valid()
    ensures v == Judge(engine, envelope, target, answer)
    ensures invoked <==> target.provider in engine.providers
    ensures http == HttpOf(engine, target, answer)
    ensures exchange.Some? <==> OpensExchange(engine, target, answer)
    ensures exchange.Some? ==>
      fresh(exchange.value) && Some(exchange.value.closes) == ClosesOf(engine, target, answer, v)
    ensures guard.recorded <==> !v.HandedOver?
    ensures guard.health.history == old(guard.health.history)
      + if v.HandedOver? then [] else [RecordOp(guard.lease, OutcomeOf(v, at).value)]
  {
    hide InMemoryHealthCoordinator.Linked, Judge, HttpOf, OpensExchange;
    var t, held;
    t, invoked, exchange, held := TryInvoke(engine, envelope, target, answer, at, guard);
    http := t.http;
    var outcome;
    v, outcome := Handled(t, guard.recorded, at);
    if held && t.raised != NothingRaised {
      exchange.value.Close();
    }
    if outcome.Some? {
      guard.Record(outcome.value);
    }
  }

  /** What each handler makes of an exception, and the outcome it asks the guard to record. */
  method Handled(t: TryResult, recorded: bool, at: Time) returns (v: Verdict, outcome: Option<AttemptOutcome>)
    ensures forall verdict, opens, held :: Leaves(verdict, t, recorded, opens, held) ==> v == verdict
    ensures outcome.Some? <==> t.raised != NothingRaised
    ensures outcome.Some? && !recorded ==> outcome == OutcomeOf(v, at)
  {
    match t.raised {
      case NothingRaised =>
        return if t.opening.Some? then HandedOver(t.opening.value.0, t.opening.value.1) else Delivered(t.payload), None;
      case CancelledRaised =>
        return Interrupted, Some(AttemptOutcome(ClientCancelled, at, None));
      case FailureRaised(failureClass, retryAfter) =>
        var decision := DecisionForClass(failureClass, retryAfter);
        return LostBy(decision), Some(AttemptOutcome(decision.failureClass, at, decision.retryAfter));
      case RouterRaised(error) =>
        var decision := if t.decision.Some? then t.decision.value else DecisionForRouterError(error);
        v := Lost(decision.failureClass, decision.retryAfter, error);
        return v, Some(AttemptOutcome(decision.failureClass, at, decision.retryAfter));
      case OtherRaised =>
        v := if recorded then LateCrash() else Crash();
        return v, Some(AttemptOutcome(ProviderTransient, at, None));
    }
  }
}
