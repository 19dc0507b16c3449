/** The execution engine: bounded attempts over one plan (execution/engine.py). */
module Execution {
  import opened Prelude
  import opened Domain
  import opened HealthModels
  import opened HealthMachine
  import opened HealthTheorems
  import opened HealthCoordinator
  import opened RoutingKernel
  import opened Sse
  import opened FirstEvent
  import opened Exchanges
  import opened Attempts

  // -------------------------------------------------------------------- the script

  /** What the world does around one target: whether the deadline has passed, the calls
      that others make on the coordinator before the lease is asked for and while the
      attempt is under way, and how the attempt goes. */
  datatype Visit = Visit(expired: bool, before: seq<Op>, at: Time, during: seq<Op>, answer: Answer, recordedAt: Time)

  type Script = nat -> Visit

  // --------------------------------------------------------------------- what happens

  datatype EventStatus = HealthSkipped | Committed | AttemptSucceeded | CancelledAttempt | FailedAttempt

  datatype AttemptEvent = AttemptEvent(
    sequence: nat,
    provider: string,
    model: string,
    status: EventStatus,
    httpStatus: Option<int>,
    errorCode: Option<string>,
    upstreamInvoked: bool)

  /** One visited target; `closes` counts how often its exchange had been closed by then, if one was opened. */
  datatype Step =
    | Skipped(target: ModelTarget, event: AttemptEvent)
    | Tried(target: ModelTarget, event: AttemptEvent, lease: HealthLease, verdict: Verdict, closes: Option<nat>)

  function StatusOf(v: Verdict): EventStatus {
    match v
    case HandedOver(_, _) => Committed
    case Delivered(_) => AttemptSucceeded
    case Interrupted => CancelledAttempt
    case Lost(_, _, _) => FailedAttempt
  }

  function ErrorCodeOf(v: Verdict): Option<string> {
    match v
    case Interrupted => Some(CancelledError().code)
    case Lost(_, _, error) => Some(error.code)
    case _ => None
  }

  function SkippedEvent(sequence: nat, target: ModelTarget): AttemptEvent {
    AttemptEvent(sequence, target.provider, target.alias, HealthSkipped, None, None, false)
  }

  function TriedEvent(sequence: nat, target: ModelTarget, v: Verdict, http: Option<int>): AttemptEvent {
    AttemptEvent(sequence, target.provider, target.alias, StatusOf(v), http, ErrorCodeOf(v), true)
  }

  /** The visit of a target for which the coordinator answered `lease`. */
  function StepOf(engine: Engine, envelope: Envelope, target: ModelTarget, visit: Visit, lease: Option<HealthLease>,
                  sequence: nat): Step {
    if lease.None? then Skipped(target, SkippedEvent(sequence, target))
    else
      var v := Judge(engine, envelope, target, visit.answer);
      Tried(target, TriedEvent(sequence, target, v, HttpOf(engine, target, visit.answer)), lease.value, v,
            ClosesOf(engine, target, visit.answer, v))
  }

  /** After this step the loop goes on to the next target, if there is one. */
  predicate GoesOn(step: Step) {
    step.Skipped? || (step.verdict.Lost? && step.verdict.error.fallbackAllowed)
  }

  /** The calls between a granted lease and the end of the visit. */
  function SettledCalls(visit: Visit, lease: HealthLease, v: Verdict): seq<Op> {
    if v.HandedOver? then visit.during else visit.during + [RecordOp(lease, OutcomeOf(v, visit.recordedAt).value)]
  }

  /** The calls on the coordinator during one visit, in order. */
  function CallsOf(visit: Visit, step: Step): seq<Op> {
    var asked := visit.before + [AcquireOp(step.target, visit.at)];
    if step.Skipped? then asked
    else asked + SettledCalls(visit, step.lease, step.verdict)
  }

  function AllCalls(script: Script, steps: seq<Step>): seq<Op>
    decreases |steps|
  {
    if steps == [] then []
    else AllCalls(script, steps[..|steps| - 1]) + CallsOf(script(|steps| - 1), steps[|steps| - 1])
  }

  predicate IsInvoked(engine: Engine, step: Step) { step.Tried? && step.target.provider in engine.providers }

  function CountSkipped(steps: seq<Step>): nat {
    if steps == [] then 0 else CountSkipped(steps[..|steps| - 1]) + if steps[|steps| - 1].Skipped? then 1 else 0
  }

  function CountInvoked(engine: Engine, steps: seq<Step>): nat {
    if steps == [] then 0
    else CountInvoked(engine, steps[..|steps| - 1]) + if IsInvoked(engine, steps[|steps| - 1]) then 1 else 0
  }

  /** The error kept from the last attempt that was lost. */
  function LastError(steps: seq<Step>): Option<RouterError> {
    if steps == [] then None
    else
      var last := steps[|steps| - 1];
      if last.Tried? && last.verdict.Lost? then Some(last.verdict.error) else LastError(steps[..|steps| - 1])
  }

  datatype Response =
    | CommittedStream(target: ModelTarget, opening: Opening, taken: nat)
    | Complete(target: ModelTarget, payload: Bytes)
    | Failed(error: RouterError)

  function ProtocolMismatch(): RouterError { PlainError("router_protocol_mismatch", 500, false) }

  /** The error after the loop, when nothing was returned or raised within it. */
  function TerminalError(plan: ExecutionPlan, lastError: Option<RouterError>, invoked: nat, skipped: nat,
                         snap: Option<AvailabilitySnapshot>): RouterError
    requires invoked == 0 && skipped > 0 ==> snap.Some?
  {
    if invoked == 0 && skipped > 0 then
      NoAvailableTarget(RetryAfter(snap.value)).(
        healthSnapshotRevision := snap.value.revision,
        healthFilteredCount := plan.healthFilteredCount,
        healthSkippedCount := skipped,
        healthReason := Some("health_lease_unavailable"))
    else if lastError.Some? && lastError.value.code == TimeoutError().code then lastError.value
    else if lastError.Some? && !lastError.value.fallbackAllowed then lastError.value
    else UpstreamExhausted()
  }

  // ------------------------------------------------------------- the relation to prove

  /** The n-th visit is what the plan, the script and the coordinator's state dictate. */
  ghost predicate Faithful(w: World, history: seq<Op>, engine: Engine, envelope: Envelope, plan: ExecutionPlan,
                           script: Script, steps: seq<Step>, i: nat)
    requires w.Valid() && i < |steps| <= |plan.Targets()|
  {
    var target, visit := plan.Targets()[i], script(i);
    && !visit.expired
    && target.protocol == envelope.protocol
    && var asked := From(w, history + AllCalls(script, steps[..i]) + visit.before);
       steps[i] == StepOf(engine, envelope, target, visit, GrantedLease(w, asked, target, visit.at), i + 1)
  }

  /** Every visit is faithful, and each but the last lets the loop go on. */
  ghost predicate Executed(w: World, history: seq<Op>, engine: Engine, envelope: Envelope, plan: ExecutionPlan,
                           script: Script, steps: seq<Step>)
    requires w.Valid()
  {
    && |steps| <= |plan.Targets()|
    && (forall i | 0 <= i < |steps| :: Faithful(w, history, engine, envelope, plan, script, steps, i))
    && (forall i | 0 <= i < |steps| - 1 :: GoesOn(steps[i]))
  }

  ghost predicate StillGoing(steps: seq<Step>) {
    steps == [] || GoesOn(steps[|steps| - 1])
  }

  /** The next target is refused for its protocol. */
  ghost predicate Mismatched(envelope: Envelope, plan: ExecutionPlan, script: Script, n: nat) {
    n < |plan.Targets()| && !script(n).expired && plan.Targets()[n].protocol != envelope.protocol
  }

  ghost predicate Expired(plan: ExecutionPlan, script: Script, n: nat) {
    n < |plan.Targets()| && script(n).expired
  }

  /** The loop stops only where it must. */
  ghost predicate Stopped(envelope: Envelope, plan: ExecutionPlan, script: Script, steps: seq<Step>) {
    StillGoing(steps) ==>
      |steps| >= |plan.Targets()| || Expired(plan, script, |steps|) || Mismatched(envelope, plan, script, |steps|)
  }

  /** Nothing was returned or raised within the loop. */
  ghost predicate FellThrough(envelope: Envelope, plan: ExecutionPlan, script: Script, steps: seq<Step>) {
    if StillGoing(steps) then !Mismatched(envelope, plan, script, |steps|) else steps[|steps| - 1].verdict.Lost?
  }

  /** Every target that was visited had been skipped. */
  ghost predicate NeverInvoked(engine: Engine, steps: seq<Step>) {
    CountInvoked(engine, steps) == 0 && CountSkipped(steps) > 0
  }

  /** The error in hand when the loop is left. */
  ghost function ErrorAtEnd(plan: ExecutionPlan, script: Script, steps: seq<Step>): Option<RouterError> {
    if StillGoing(steps) && Expired(plan, script, |steps|) then Some(TimeoutError()) else LastError(steps)
  }

  /** What the loop itself returns or raises; None when it is merely left. */
  ghost function AnsweredWithin(envelope: Envelope, plan: ExecutionPlan, script: Script, steps: seq<Step>)
    : Option<Response>
  {
    if FellThrough(envelope, plan, script, steps) then None
    else if StillGoing(steps) then Some(Failed(ProtocolMismatch()))
    else
      var last := steps[|steps| - 1];
      match last.verdict
      case HandedOver(opening, taken) => Some(CommittedStream(last.target, opening, taken))
      case Delivered(payload) => Some(Complete(last.target, payload))
      case _ => Some(Failed(CancelledError()))
  }

  /** The answer to the client, given the visits and, if one was taken, the final snapshot. */
  ghost function Answered(engine: Engine, envelope: Envelope, plan: ExecutionPlan, script: Script, steps: seq<Step>,
                          snap: Option<AvailabilitySnapshot>): Response
    requires FellThrough(envelope, plan, script, steps) && NeverInvoked(engine, steps) ==> snap.Some?
  {
    var within := AnsweredWithin(envelope, plan, script, steps);
    if within.Some? then within.value
    else
      var lastError := ErrorAtEnd(plan, script, steps);
      Failed(TerminalError(plan, lastError, CountInvoked(engine, steps), CountSkipped(steps), snap))
  }

  /** A stream that was handed over comes with its lease, not yet recorded, and its
      exchange, not yet closed. */
  ghost predicate HoldsLease(health: InMemoryHealthCoordinator, steps: seq<Step>, guard: Option<LeaseGuard>,
                             exchange: Option<Exchange>)
    reads if guard.Some? then {guard.value} else {}, if exchange.Some? then {exchange.value} else {}
  {
    && exchange.Some? && exchange.value !in health.Repr && exchange.value.closes == 0
    && guard.Some? && steps != [] && steps[|steps| - 1].Tried?
    && guard.value !in health.Repr && guard.value.health == health
    && !guard.value.recorded && guard.value.lease == steps[|steps| - 1].lease
  }

  // ------------------------------------------------------------------------ the engine

  /** Calls of other tasks, let through by the coordinator's lock. */
  method Interleave(health: InMemoryHealthCoordinator, ops: seq<Op>)
    requires health.Valid()
    modifies health.Repr
    ensures health.Valid() && health.history == old(health.history) + ops
  {
    hide InMemoryHealthCoordinator.Linked;
    var i := 0;
    while i < |ops|
      invariant i <= |ops|
      invariant health.Valid() && health.history == old(health.history) + ops[..i]
    {
      match ops[i] {
        case AcquireOp(target, now) => var lease := health.Acquire(target, now);
        case RecordOp(lease, outcome) => health.Record(lease, outcome);
      }
      assert ops[..i + 1] == ops[..i] + [ops[i]];
      i := i + 1;
    }
    assert ops[..i] == ops;
  }

  /** One pass of the loop body: ask for a lease, attempt, and note the event. */
  method VisitTarget(health: InMemoryHealthCoordinator, engine: Engine, envelope: Envelope, target: ModelTarget,
                     visit: Visit, sequence: nat)
    returns (step: Step, invoked: bool, guard: Option<LeaseGuard>, exchange: Option<Exchange>)
    requires health.Valid()
    modifies health.Repr
    ensures health.Valid()
    ensures var asked := From(health.W(), old(health.history) + visit.before);
      step == StepOf(engine, envelope, target, visit, GrantedLease(health.W(), asked, target, visit.at), sequence)
    ensures health.history == old(health.history) + CallsOf(visit, step)
    ensures step.target == target && (invoked <==> IsInvoked(engine, step))
    ensures guard.Some? <==> step.Tried?
    ensures guard.Some? ==>
      && fresh(guard.value) && guard.value !in health.Repr
      && guard.value.health == health && guard.value.lease == step.lease
      && (guard.value.recorded <==> !step.verdict.HandedOver?)
    ensures exchange.Some? ==> fresh(exchange.value) && exchange.value !in health.Repr
    ensures step.Tried? && step.verdict.HandedOver? ==> exchange.Some? && exchange.value.closes == 0
  {
    hide InMemoryHealthCoordinator.Linked, Judge, From, GrantedLease;
    Interleave(health, visit.before);
    var lease := health.Acquire(target, visit.at);
    if lease.None? {
      return Skipped(target, SkippedEvent(sequence, target)), false, None, None;
    }
    var v, called, http, bound;
    v, called, http, bound, exchange := TryTarget(health, engine, envelope, target, visit, lease.value);
    var closes := if exchange.Some? then Some(exchange.value.closes) else None;
    step := Tried(target, TriedEvent(sequence, target, v, http), lease.value, v, closes);
    return step, called, Some(bound), exchange;
  }

  method TryTarget(health: InMemoryHealthCoordinator, engine: Engine, envelope: Envelope, target: ModelTarget,
                   visit: Visit, lease: HealthLease)
    returns (v: Verdict, invoked: bool, http: Option<int>, guard: LeaseGuard, exchange: Option<Exchange>)
    requires health.Valid()
    modifies health.Repr
    ensures health.Valid() && health.history == old(health.history) + SettledCalls(visit, lease, v)
    ensures v == Judge(engine, envelope, target, visit.answer)
    ensures http == HttpOf(engine, target, visit.answer)
    ensures invoked <==> target.provider in engine.providers
    ensures fresh(guard) && guard !in health.Repr && guard.health == health && guard.lease == lease
    ensures guard.recorded <==> !v.HandedOver?
    ensures exchange.Some? ==> fresh(exchange.value) && exchange.value !in health.Repr
    ensures (if exchange.Some? then Some(exchange.value.closes) else None) == ClosesOf(engine, target, visit.answer, v)
    ensures v.HandedOver? ==> exchange.Some?
  {
    HandedOverIsOpened(engine, envelope, target, visit.answer);
    hide InMemoryHealthCoordinator.Linked, Judge;
    Interleave(health, visit.during);
    guard := new LeaseGuard(lease, health);
    v, invoked, http, exchange := Attempt(engine, envelope, target, visit.answer, visit.recordedAt, guard);
  }

  lemma HandedOverIsOpened(engine: Engine, envelope: Envelope, target: ModelTarget, answer: Answer)
    ensures Judge(engine, envelope, target, answer).HandedOver? ==> OpensExchange(engine, target, answer)
  {}

  lemma OneMoreStep(w: World, history: seq<Op>, engine: Engine, envelope: Envelope, plan: ExecutionPlan, script: Script,
                    steps: seq<Step>, step: Step)
    requires w.Valid() && Executed(w, history, engine, envelope, plan, script, steps) && StillGoing(steps)
    requires |steps| < |plan.Targets()| && !script(|steps|).expired
    requires plan.Targets()[|steps|].protocol == envelope.protocol
    requires var target, visit := plan.Targets()[|steps|], script(|steps|);
      step == StepOf(engine, envelope, target, visit,
                     GrantedLease(w, From(w, history + AllCalls(script, steps) + visit.before), target, visit.at),
                     |steps| + 1)
    ensures Executed(w, history, engine, envelope, plan, script, steps + [step])
    ensures AllCalls(script, steps + [step]) == AllCalls(script, steps) + CallsOf(script(|steps|), step)
    ensures CountSkipped(steps + [step]) == CountSkipped(steps) + if step.Skipped? then 1 else 0
    ensures CountInvoked(engine, steps + [step]) ==
      CountInvoked(engine, steps) + if IsInvoked(engine, step) then 1 else 0
    ensures LastError(steps + [step]) ==
      if step.Tried? && step.verdict.Lost? then Some(step.verdict.error) else LastError(steps)
  {
    hide StepOf, GrantedLease, From;
    var all := steps + [step];
    assert all[..|all| - 1] == steps && all[|all| - 1] == step;
    forall i | 0 <= i < |all|
      ensures Faithful(w, history, engine, envelope, plan, script, all, i)
    {
      assert all[..i] == steps[..i];
      if i == |steps| {
        assert steps[..i] == steps;
      } else {
        assert Faithful(w, history, engine, envelope, plan, script, steps, i);
      }
    }
  }

  /** The loop of execute(): visit targets until one answers, one may not be followed, or none is left. */
  method VisitTargets(health: InMemoryHealthCoordinator, engine: Engine, envelope: Envelope, plan: ExecutionPlan,
                      script: Script)
    returns (within: Option<Response>, steps: seq<Step>, upstream: nat, skipped: nat, lastError: Option<RouterError>,
             guard: Option<LeaseGuard>, exchange: Option<Exchange>)
    requires health.Valid() && health.W().Valid()
    modifies health.Repr
    ensures health.Valid() && health.history == old(health.history) + AllCalls(script, steps)
    ensures Executed(health.W(), old(health.history), engine, envelope, plan, script, steps)
    ensures Stopped(envelope, plan, script, steps)
    ensures upstream == CountInvoked(engine, steps) && skipped == CountSkipped(steps)
    ensures within == AnsweredWithin(envelope, plan, script, steps)
    ensures within.None? ==> lastError == ErrorAtEnd(plan, script, steps)
    ensures within.Some? && within.value.CommittedStream? ==>
      HoldsLease(health, steps, guard, exchange) && fresh(guard.value) && fresh(exchange.value)
  {
    hide InMemoryHealthCoordinator.Linked, StepOf, GrantedLease, From, CallsOf, Faithful, AllCalls;
    ghost var w, history := health.W(), health.history;
    var targets := plan.Targets();
    within, steps, upstream, skipped, lastError, guard, exchange := None, [], 0, 0, None, None, None;
    NoCalls(script);
    while |steps| < |targets|
      invariant health.Valid() && health.history == history + AllCalls(script, steps)
      invariant Executed(w, history, engine, envelope, plan, script, steps) && StillGoing(steps)
      invariant upstream == CountInvoked(engine, steps) && skipped == CountSkipped(steps)
      invariant lastError == LastError(steps) && within == None
      decreases |targets| - |steps|
    {
      var visit, target := script(|steps|), targets[|steps|];
      if visit.expired {
        lastError := Some(TimeoutError());
        break;
      }
      if target.protocol != envelope.protocol {
        within := Some(Failed(ProtocolMismatch()));
        break;
      }
      var step, invoked;
      step, invoked, guard, exchange := VisitTarget(health, engine, envelope, target, visit, |steps| + 1);
      OneMoreStep(w, history, engine, envelope, plan, script, steps, step);
      steps := steps + [step];
      if step.Skipped? {
        skipped := skipped + 1;
        continue;
      }
      if invoked {
        upstream := upstream + 1;
      }
      match step.verdict {
        case HandedOver(opening, taken) => within := Some(CommittedStream(target, opening, taken));
        case Delivered(payload) => within := Some(Complete(target, payload));
        case Interrupted => within := Some(Failed(CancelledError()));
        case Lost(_, _, error) => lastError := Some(error);
      }
      if within.Some? || !lastError.value.fallbackAllowed {
        break;
      }
    }
  }

  /** execute() */
  method Execute(health: InMemoryHealthCoordinator, engine: Engine, envelope: Envelope, plan: ExecutionPlan,
                 script: Script, snapshotAt: Time)
    returns (r: Response, steps: seq<Step>, upstream: nat, skipped: nat, snap: Option<AvailabilitySnapshot>,
             guard: Option<LeaseGuard>, exchange: Option<Exchange>)
    requires health.Valid()
    modifies health.Repr
    ensures health.Valid() && health.history == old(health.history) + AllCalls(script, steps)
    ensures Executed(health.W(), old(health.history), engine, envelope, plan, script, steps)
    ensures Stopped(envelope, plan, script, steps)
    ensures upstream == CountInvoked(engine, steps) && skipped == CountSkipped(steps)
    ensures FellThrough(envelope, plan, script, steps) && NeverInvoked(engine, steps) ==>
      snap.Some? && IsSnapshot(health.W(), health.model, snapshotAt, snap.value)
    ensures r == Answered(engine, envelope, plan, script, steps, snap)
    ensures r.CommittedStream? ==>
      HoldsLease(health, steps, guard, exchange) && fresh(guard.value) && fresh(exchange.value)
  {
    assert health.W().Valid();
    hide InMemoryHealthCoordinator.Linked, Executed, Stopped, IsSnapshot;
    var within, lastError;
    within, steps, upstream, skipped, lastError, guard, exchange :=
      VisitTargets(health, engine, envelope, plan, script);
    snap := None;
    if within.Some? {
      return within.value, steps, upstream, skipped, snap, guard, exchange;
    }
    if upstream == 0 && skipped > 0 {
      var taken := health.Snapshot(snapshotAt);
      snap := Some(taken);
    }
    r := Failed(TerminalError(plan, lastError, upstream, skipped, snap));
  }

  lemma NoCalls(script: Script)
    ensures AllCalls(script, []) == []
  {}
}
