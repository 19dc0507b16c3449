/** What each answer of a Provider, and the end of each stream, does to the failure domains of its lease. */
module ExecutionEffects {
  import opened Prelude
  import opened Domain
  import opened HealthModels
  import opened HealthMachine
  import opened HealthTheorems
  import opened HealthOutcomes
  import opened Failures
  import opened Sse
  import opened StreamRelay
  import opened FirstEvent
  import opened Attempts
  import opened Execution
  import opened ExecutionLeases
  import opened ExecutionProbes
  import opened Serving

  // --------------------------------------------------------------------- four treatments

  /** What becomes of a domain: its circuit closes, it is blocked, it has failed once more, or it is spared. */
  datatype Treatment = Closes | Blocks | Fails | Spares

  /** One more transient failure, at this time and with the Provider's wish for the cooldown. */
  ghost predicate FailedOnce(c: HealthConfig, r: Record, r': Record, token: nat, at: Time, retryAfter: Option<real>) {
    exists failures: nat, windowStart: Time :: Counted(c, r, at, failures, windowStart) &&
      if (r.state == HalfOpen && r.token == Some(token)) || failures >= c.failureThreshold then
        && r'.state == Cooldown && r'.token == None && r'.backoff == r.backoff + 1
        && r'.cooldownUntil.Some? && CooldownLasts(c, r.backoff, retryAfter, r'.cooldownUntil.value - at)
      else r' == r.(failures := failures, windowStart := Some(windowStart), token := None)
  }

  ghost predicate Treats(treatment: Treatment, c: HealthConfig, r: Record, r': Record, token: nat, at: Time,
                         retryAfter: Option<real>) {
    match treatment
    case Closes =>
      && r'.state == Healthy && r'.failures == 0 && r'.backoff == 0
      && r'.windowStart == None && r'.cooldownUntil == None && r'.token == None
    case Blocks => r'.state == Blocked && r'.token == None && r'.backoff == r.backoff
    case Fails => FailedOnce(c, r, r', token, at, retryAfter)
    case Spares => r' == r || r' == r.(token := None)
  }

  function TreatmentOfClass(failureClass: FailureClass, d: DomainKey): Treatment {
    if failureClass == Success then Closes
    else if PermanentClass(failureClass, d) then Blocks
    else if TransientClass(failureClass, d) then Fails
    else Spares
  }

  lemma OutcomeTreats(w: World, ops: seq<Op>, op: Op, d: DomainKey, r: Record, r': Record)
    requires w.Valid() && Moves(w, ops, op, d, r, r') && Settles(From(w, ops), op, d)
    ensures Treats(TreatmentOfClass(op.outcome.failureClass, d), w.config, r, r', op.lease.token,
                   op.outcome.observedAt, op.outcome.retryAfter)
  {
    var failureClass := op.outcome.failureClass;
    hide Moves, Settles, From, CooldownLasts, ChargedElsewhere;
    if failureClass == Success {
      SuccessCloses(w, ops, op, d, r, r');
    } else if PermanentClass(failureClass, d) {
      PermanentFailureBlocks(w, ops, op, d, r, r');
    } else if TransientClass(failureClass, d) {
      FailureTreats(w, ops, op, d, r, r');
      hide FailedOnce;
    } else {
      NeutralOutcomeReleases(w, ops, op, d, r, r');
    }
  }

  lemma FailureTreats(w: World, ops: seq<Op>, op: Op, d: DomainKey, r: Record, r': Record)
    requires w.Valid() && Moves(w, ops, op, d, r, r') && Settles(From(w, ops), op, d)
    requires TransientClass(op.outcome.failureClass, d)
    ensures FailedOnce(w.config, r, r', op.lease.token, op.outcome.observedAt, op.outcome.retryAfter)
  {
    var at := op.outcome.observedAt;
    var inWindow := r.windowStart.Some? && at <= r.windowStart.value + w.config.failureWindow;
    var failures: nat := if inWindow then r.failures + 1 else 1;
    var windowStart := if inWindow then r.windowStart.value else at;
    assert Counted(w.config, r, at, failures, windowStart);
    hide Moves, Settles, From, CooldownLasts, Counted, TransientClass;
    if (r.state == HalfOpen && r.token == Some(op.lease.token)) || failures >= w.config.failureThreshold {
      TransientFailureOpens(w, ops, op, d, r, r', failures, windowStart);
    } else {
      TransientFailureCounts(w, ops, op, d, r, r', failures, windowStart);
    }
  }

  // -------------------------------------------------------------------------- the answers

  /** A failure of the Provider spares the target. */
  function ProviderFails(d: DomainKey): Treatment {
    if d.ProviderDomain? then Fails else Spares
  }

  const READING_CODES := {
    "router_upstream_empty_stream", "router_upstream_header_timeout", "router_upstream_invalid_stream",
    "router_upstream_read_failed"}

  /** A routing error raised by others counts against the Provider if it is one of reading. */
  function ForeignError(code: string, d: DomainKey): Treatment {
    if code in READING_CODES then ProviderFails(d) else Spares
  }

  function StatusTreats(status: int, d: DomainKey): Treatment {
    if d.TargetDomain? then if status == 404 then Blocks else if status == 429 then Fails else Spares
    else if status == 401 then Blocks
    else if status in {500, 502, 503, 504, 529} then Fails
    else Spares
  }

  function StreamTreats(eventStream: bool, first: FirstRead, d: DomainKey): Treatment {
    if !eventStream then Spares
    else match first
      case ReadLate => ProviderFails(d)
      case ReadCancelled => Spares
      case Reads(body) =>
        if !Opens(Flatten(body.chunks)) && body.ending.BodyRaised? then ForeignError(body.ending.error.code, d)
        else ProviderFails(d)
  }

  function JsonTreats(json: JsonRead, d: DomainKey): Treatment {
    match json
    case Collected(_, _) => Closes
    case HeaderLate => ProviderFails(d)
    case JsonBroke => ProviderFails(d)
    case Overdue => Spares
    case JsonCancelled => Spares
  }

  /** What an answer that commits no stream does to a domain. */
  function AnswerTreats(engine: Engine, envelope: Envelope, target: ModelTarget, answer: Answer, d: DomainKey)
    : Treatment {
    if target.provider !in engine.providers then ProviderFails(d)
    else match answer
      case InvokeLate => ProviderFails(d)
      case InvokeCrashed => ProviderFails(d)
      case InvokeCancelled => Spares
      case InvokeRaised(error) => ForeignError(error.code, d)
      case InvokeFailed(failureClass, _) => TreatmentOfClass(failureClass, d)
      case Opened(status, _, eventStream, first, json) =>
        if status < 200 || status >= 300 then StatusTreats(status, d)
        else if envelope.stream then StreamTreats(eventStream, first, d)
        else JsonTreats(json, d)
  }

  /** The cooldown that an answer asks for. */
  function WishOf(engine: Engine, target: ModelTarget, answer: Answer): Option<real> {
    if target.provider !in engine.providers then None
    else match answer
      case Opened(status, retryAfter, _, _, _) => if status < 200 || status >= 300 then retryAfter else None
      case InvokeFailed(_, retryAfter) => retryAfter
      case _ => None
  }

  /** What the outcome recorded for a verdict does to a domain. */
  function VerdictTreats(v: Verdict, d: DomainKey): Treatment {
    match v
    case Lost(failureClass, _, _) => TreatmentOfClass(failureClass, d)
    case Delivered(_) => Closes
    case _ => Spares
  }

  function VerdictWish(v: Verdict): Option<real> {
    if v.Lost? then v.retryAfter else None
  }

  lemma OutcomeOfVerdict(v: Verdict, at: Time, d: DomainKey)
    requires !v.HandedOver?
    ensures var outcome := OutcomeOf(v, at);
      && outcome.Some? && outcome.value.observedAt == at && outcome.value.retryAfter == VerdictWish(v)
      && TreatmentOfClass(outcome.value.failureClass, d) == VerdictTreats(v, d)
  {}

  lemma OwnVerdicts(error: RouterError, d: DomainKey)
    ensures VerdictTreats(LostTo(error), d) == ForeignError(error.code, d) && VerdictWish(LostTo(error)) == None
    ensures VerdictTreats(Crash(), d) == ProviderFails(d) && VerdictWish(Crash()) == None
    ensures VerdictTreats(LateCrash(), d) == Closes && VerdictWish(LateCrash()) == None
  {}

  lemma OwnCodes(d: DomainKey)
    ensures ForeignError(ResponseHeaderTimeout().code, d) == ForeignError(InvalidStream().code, d) == ProviderFails(d)
    ensures ForeignError(ReadFailed().code, d) == ProviderFails(d)
    ensures ForeignError(TimeoutError().code, d) == ForeignError(UpstreamRejected().code, d) == Spares
  {}

  lemma StreamClass(engine: Engine, protocol: Protocol, eventStream: bool, first: FirstRead, d: DomainKey)
    ensures var v := JudgeStream(engine, protocol, eventStream, first);
      v.HandedOver? || (VerdictTreats(v, d) == StreamTreats(eventStream, first, d) && VerdictWish(v) == None)
  {
    forall error
      ensures VerdictTreats(LostTo(error), d) == ForeignError(error.code, d) && VerdictWish(LostTo(error)) == None
      ensures VerdictTreats(Crash(), d) == ProviderFails(d) && VerdictWish(Crash()) == None
    {
      OwnVerdicts(error, d);
    }
    OwnCodes(d);
    if first.Reads? {
      OpeningDecides(first.body);
      OwnEndings(first.body.ending, d);
    }
    hide Opens, FirstOpening, Flatten, EndingError, LostTo, Crash, ForeignError, ProviderFails;
    hide VerdictTreats, VerdictWish, ResponseHeaderTimeout, InvalidStream, UpstreamRejected;
  }

  lemma OpeningDecides(body: Body)
    ensures FirstOpening(body, 0).Ok? <==> Opens(Flatten(body.chunks))
    ensures FirstOpening(body, 0).Err? ==> FirstOpening(body, 0).error == EndingError(body.ending)
  {
    CommittableExactly(body.chunks);
    FirstOpeningMeaning(body, 0);
    assert body.chunks[..|body.chunks|] == body.chunks;
    hide Opens, FirstOpening, Flatten;
  }

  lemma OwnEndings(ending: Ending, d: DomainKey)
    ensures ForeignError(EndingError(ending).code, d) ==
      if ending.BodyRaised? then ForeignError(ending.error.code, d) else ProviderFails(d)
  {}

  lemma JsonClass(json: JsonRead, d: DomainKey)
    ensures VerdictTreats(JudgeJson(json), d) == JsonTreats(json, d) && VerdictWish(JudgeJson(json)) == None
  {
    OwnVerdicts(ResponseHeaderTimeout(), d);
    OwnVerdicts(TimeoutError(), d);
    OwnVerdicts(ReadFailed(), d);
    OwnCodes(d);
    hide LostTo, Crash, LateCrash, ForeignError, ProviderFails, TreatmentOfClass;
  }

  lemma StatusClass(status: int, retryAfter: Option<real>, d: DomainKey)
    requires status < 200 || status >= 300
    ensures var v := LostBy(DecisionForHttp(status, retryAfter));
      VerdictTreats(v, d) == StatusTreats(status, d) && VerdictWish(v) == retryAfter
  {}

  lemma AnswerClass(engine: Engine, envelope: Envelope, target: ModelTarget, answer: Answer, d: DomainKey)
    ensures var v := Judge(engine, envelope, target, answer);
      v.HandedOver?
      || (&& VerdictTreats(v, d) == AnswerTreats(engine, envelope, target, answer, d)
          && VerdictWish(v) == WishOf(engine, target, answer))
  {
    OwnCodes(d);
    OwnVerdicts(if answer.InvokeRaised? then answer.error else ResponseHeaderTimeout(), d);
    if answer.Opened? {
      StreamClass(engine, envelope.protocol, answer.eventStream, answer.first, d);
      JsonClass(answer.json, d);
      if answer.status < 200 || answer.status >= 300 {
        StatusClass(answer.status, answer.retryAfter, d);
      }
    }
    hide JudgeStream, StreamTreats, JudgeJson, JsonTreats, StatusTreats, DecisionForHttp, LostTo, Crash, ForeignError;
    hide TreatmentOfClass;
  }

  /** Over every run of the engine: a visit that commits no stream ends by settling its
      lease, and that does to each domain whose generation the lease still carries what the
      Provider's answer calls for, whatever the calls of others did before. */
  lemma VisitOnHealth(w: World, history: seq<Op>, engine: Engine, envelope: Envelope, plan: ExecutionPlan,
                      script: Script, steps: seq<Step>, i: nat, d: DomainKey, r: Record, r': Record)
    requires w.Valid() && Executed(w, history, engine, envelope, plan, script, steps) && i < |steps|
    requires steps[i].Tried? && !steps[i].verdict.HandedOver? && d in w.Domains()
    requires r == From(w, Until(history, script, steps, i) + BeforeOutcome(script(i), steps[i])).records[d]
    requires r' == From(w, Until(history, script, steps, i + 1)).records[d]
    requires var s := From(w, Until(history, script, steps, i) + BeforeOutcome(script(i), steps[i]));
      Genuine(s, steps[i].lease) && Current(s, steps[i].lease, d)
    ensures Treats(AnswerTreats(engine, envelope, plan.Targets()[i], script(i).answer, d), w.config, r, r',
                   steps[i].lease.token, script(i).recordedAt, WishOf(engine, plan.Targets()[i], script(i).answer))
  {
    var visit, step := script(i), steps[i];
    assert Faithful(w, history, engine, envelope, plan, script, steps, i);
    var outcome := OutcomeOf(step.verdict, visit.recordedAt).value;
    var before, op := Until(history, script, steps, i) + BeforeOutcome(visit, step), RecordOp(step.lease, outcome);
    OutcomeOfVerdict(step.verdict, visit.recordedAt, d);
    AnswerClass(engine, envelope, plan.Targets()[i], visit.answer, d);
    VisitEndsIn(history, script, steps, i);
    hide From, Until, Treats, Judge, AnswerTreats, WishOf, TreatmentOfClass, VerdictTreats, VerdictWish, GrantedLease,
      Genuine, Current, Executed, BeforeOutcome, OutcomeOf;
    assert Moves(w, before, op, d, r, r') && Settles(From(w, before), op, d);
    hide Moves, Settles;
    OutcomeTreats(w, before, op, d, r, r');
  }

  lemma VisitEndsIn(history: seq<Op>, script: Script, steps: seq<Step>, i: nat)
    requires i < |steps| && steps[i].Tried? && !steps[i].verdict.HandedOver?
    ensures Until(history, script, steps, i + 1) ==
      Until(history, script, steps, i) + BeforeOutcome(script(i), steps[i])
        + [RecordOp(steps[i].lease, OutcomeOf(steps[i].verdict, script(i).recordedAt).value)]
  {
    var base, visit, step := Until(history, script, steps, i), script(i), steps[i];
    UntilNext(history, script, steps, i);
    hide Until, OutcomeOf;
    var op := RecordOp(step.lease, OutcomeOf(step.verdict, visit.recordedAt).value);
    assert CallsOf(visit, step) == BeforeOutcome(visit, step) + [op];
    ConcatAssociates(base, BeforeOutcome(visit, step), [op]);
  }

  // -------------------------------------------------------------------------- the streams

  /** A committed stream whose relay comes to an end does to each domain of its lease what
      the run's one outcome calls for: a success closes both, a failure counts against the
      Provider alone, and if the client left both are spared. */
  lemma StreamOnHealth(w: World, ops: seq<Op>, engine: Engine, envelope: Envelope, response: Response,
                       lease: HealthLease, delivery: Delivery, d: DomainKey, r: Record, r': Record)
    requires w.Valid() && Runs(engine, envelope, response, delivery) && d in w.Domains()
    requires RelayRun(engine, envelope, response, delivery).stop.Some?
    requires r == From(w, ops + delivery.others).records[d]
    requires r' == From(w, ops + CallsAfterCommit(engine, envelope, response, lease, delivery)).records[d]
    requires Genuine(From(w, ops + delivery.others), lease) && Current(From(w, ops + delivery.others), lease, d)
    ensures var outcomes :=
        TranscriptOf(engine.semantics[envelope.protocol], RelayRun(engine, envelope, response, delivery)).outcomes;
      |outcomes| == 1 && Treats(RelayTreats(outcomes[0], d), w.config, r, r', lease.token, delivery.doneAt, None)
  {
    hide From, Treats, RelayRun, Genuine, Current, CallsAfterCommit, TranscriptOf, RelayTreats;
    DeliveryEndsIn(ops, engine, envelope, response, lease, delivery);
    var outcomes :=
      TranscriptOf(engine.semantics[envelope.protocol], RelayRun(engine, envelope, response, delivery)).outcomes;
    var before, op := ops + delivery.others, RecordOp(lease, AttemptOutcome(outcomes[0], delivery.doneAt, None));
    hide Runs;
    assert Moves(w, before, op, d, r, r') && Settles(From(w, before), op, d);
    hide Moves, Settles, TreatmentOfClass;
    OutcomeTreats(w, before, op, d, r, r');
    RelayClass(outcomes[0], d);
  }

  function RelayTreats(failureClass: FailureClass, d: DomainKey): Treatment {
    match failureClass
    case Success => Closes
    case PostCommitStreamFailure => ProviderFails(d)
    case _ => Spares
  }

  lemma RelayClass(failureClass: FailureClass, d: DomainKey)
    requires failureClass in {Success, PostCommitStreamFailure, ClientCancelled}
    ensures TreatmentOfClass(failureClass, d) == RelayTreats(failureClass, d)
  {}

  lemma DeliveryEndsIn(ops: seq<Op>, engine: Engine, envelope: Envelope, response: Response, lease: HealthLease,
                       delivery: Delivery)
    requires Runs(engine, envelope, response, delivery)
    requires RelayRun(engine, envelope, response, delivery).stop.Some?
    ensures var outcomes :=
        TranscriptOf(engine.semantics[envelope.protocol], RelayRun(engine, envelope, response, delivery)).outcomes;
      && |outcomes| == 1 && outcomes[0] in {Success, PostCommitStreamFailure, ClientCancelled}
      && ops + CallsAfterCommit(engine, envelope, response, lease, delivery) ==
           ops + delivery.others + [RecordOp(lease, AttemptOutcome(outcomes[0], delivery.doneAt, None))]
  {
    var p := RelayRun(engine, envelope, response, delivery);
    var failureClass := FinishOf(p.stop.value, p.observer.seen, p.abandoned).outcome;
    assert failureClass in {Success, PostCommitStreamFailure, ClientCancelled};
    hide RelayRun, Runs, FinishOf;
    ConcatAssociates(ops, delivery.others, [RecordOp(lease, AttemptOutcome(failureClass, delivery.doneAt, None))]);
  }
}
