/**
 A request from admission to the end of its stream: the engine hands the
 lease of a committed stream to the relay, which records it.
 */
module Serving {
  import opened Prelude
  import opened Domain
  import opened HealthModels
  import opened HealthMachine
  import opened HealthTheorems
  import opened HealthCoordinator
  import opened Usage
  import opened Sse
  import opened StreamObserver
  import opened FirstEvent
  import opened Exchanges
  import opened StreamRelay
  import opened Attempts
  import opened Execution
  import opened ExecutionLeases

  /** The stream that follows a commit: whether its generator is ever entered, what happens
      while it runs, and what others call on the coordinator meanwhile. */
  datatype Delivery = Delivery(entered: bool, turns: seq<Turn>, consumer: Consumer, others: seq<Op>, doneAt: Time)

  /** The relay runs: it was entered, and observing what was already read does not raise. */
  predicate Runs(engine: Engine, envelope: Envelope, r: Response, d: Delivery) {
    && r.CommittedStream? && d.entered
    && envelope.protocol in engine.semantics
    && FedAll(engine.semantics[envelope.protocol], Head(r.opening.first, r.opening.remainder)).1
  }

  /** The calls on the coordinator while the stream is delivered. */
  function DeliveryCalls(lease: HealthLease, d: Delivery, outcomes: seq<FailureClass>): seq<Op> {
    if outcomes == [] then d.others else d.others + [RecordOp(lease, AttemptOutcome(outcomes[0], d.doneAt, None))]
  }

  /** The run of the relay for a committed stream. */
  function RelayRun(engine: Engine, envelope: Envelope, r: Response, d: Delivery): Progress
    requires Runs(engine, envelope, r, d)
  {
    Progressed(engine.semantics[envelope.protocol], r.opening.first, r.opening.remainder, d.turns, d.consumer)
  }

  /** The calls on the coordinator after a commit: none before the relay runs. */
  function CallsAfterCommit(engine: Engine, envelope: Envelope, r: Response, lease: HealthLease, d: Delivery): seq<Op> {
    if Runs(engine, envelope, r, d)
    then DeliveryCalls(lease, d,
      TranscriptOf(engine.semantics[envelope.protocol], RelayRun(engine, envelope, r, d)).outcomes)
    else []
  }

  method Serve(health: InMemoryHealthCoordinator, engine: Engine, envelope: Envelope, plan: ExecutionPlan,
               script: Script, snapshotAt: Time, d: Delivery)
    returns (r: Response, steps: seq<Execution.Step>, t: Option<Transcript>, exchange: Option<Exchange>)
    requires health.Valid()
    modifies health.Repr
    ensures health.Valid()
    ensures Executed(health.W(), old(health.history), engine, envelope, plan, script, steps)
    ensures r.CommittedStream? ==>
      steps != [] && steps[|steps| - 1].Tried? && HandsOver(steps, r, steps[|steps| - 1].lease)
    ensures t.Some? <==> Runs(engine, envelope, r, d)
    ensures r.CommittedStream? ==>
      && exchange.Some?
      && exchange.value.closes ==
         if Runs(engine, envelope, r, d) && RelayRun(engine, envelope, r, d).stop.Some? then 1 else 0
    ensures t.Some? ==> t.value == TranscriptOf(engine.semantics[envelope.protocol], RelayRun(engine, envelope, r, d))
    ensures health.history == old(health.history) + AllCalls(script, steps) +
      if r.CommittedStream? then CallsAfterCommit(engine, envelope, r, steps[|steps| - 1].lease, d) else []
  {
    assert health.W().Valid();
    hide InMemoryHealthCoordinator.Linked, Executed, Stopped, AllCalls, IsSnapshot, RelayRun, TranscriptOf, FedAll,
      From;
    var upstream, skipped, snap, guard;
    r, steps, upstream, skipped, snap, guard, exchange := Execute(health, engine, envelope, plan, script, snapshotAt);
    t := None;
    if Runs(engine, envelope, r, d) {
      var relayed := Deliver(engine, envelope, r, d, guard.value, exchange.value);
      t := Some(relayed);
    }
  }

  /** Run the relay of a committed stream, with the calls of others meanwhile. */
  method Deliver(engine: Engine, envelope: Envelope, r: Response, d: Delivery, guard: LeaseGuard, exchange: Exchange)
    returns (t: Transcript)
    requires Runs(engine, envelope, r, d)
    requires guard.health.Valid() && guard !in guard.health.Repr && !guard.recorded
    requires exchange !in guard.health.Repr && exchange.closes == 0
    modifies guard, guard.health.Repr, exchange
    ensures guard.health.Valid()
    ensures t == TranscriptOf(engine.semantics[envelope.protocol], RelayRun(engine, envelope, r, d))
    ensures exchange.closes == if RelayRun(engine, envelope, r, d).stop.Some? then 1 else 0
    ensures guard.health.history ==
      old(guard.health.history) + CallsAfterCommit(engine, envelope, r, guard.lease, d)
  {
    hide InMemoryHealthCoordinator.Linked, Progressed, TranscriptOf, FedAll;
    var sem, opening := engine.semantics[envelope.protocol], r.opening;
    t := RelayStream(sem, opening.first, opening.remainder, d.turns, d.consumer, exchange);
    OneOutcome(sem, opening.first, opening.remainder, d.turns, d.consumer);
    Interleave(guard.health, d.others);
    if t.outcomes != [] {
      guard.Record(AttemptOutcome(t.outcomes[0], d.doneAt, None));
    }
  }

  lemma OneOutcome(sem: Semantics, first: Bytes, remainder: Bytes, turns: seq<Turn>, consumer: Consumer)
    ensures var p := Progressed(sem, first, remainder, turns, consumer);
      |TranscriptOf(sem, p).outcomes| == TranscriptOf(sem, p).closes == if p.stop.Some? then 1 else 0
  {}

  lemma LateRecord(w: World, history: seq<Op>, calls: seq<Op>, others: seq<Op>, lease: HealthLease,
                   outcome: AttemptOutcome)
    requires w.Valid() && LeaseIsLive(w, history + calls, lease)
    requires RecordsOf(calls, lease.token) == 0 && RecordsOf(others, lease.token) == 0
    ensures RecordsOf(calls + (others + [RecordOp(lease, outcome)]), lease.token) == 1
    ensures LeaseIsGone(w, history + (calls + (others + [RecordOp(lease, outcome)])), lease.token)
  {
    hide RecordsOf, LeaseIsGone, LeaseIsLive, NextToken;
    var record := RecordOp(lease, outcome);
    RecordsConcat(others, [record], lease.token);
    RecordsConcat(calls, others + [record], lease.token);
    RecordsOfOne(record, lease.token);
    LiveStaysLive(w, history + calls, others, lease);
    LiveIsIssued(w, history + calls + others, lease);
    RecordedIsGone(w, history + calls + others, lease, outcome);
    assert history + (calls + (others + [record])) == history + calls + others + [record];
  }

  lemma LiveIsIssued(w: World, ops: seq<Op>, lease: HealthLease)
    requires w.Valid() && LeaseIsLive(w, ops, lease)
    ensures lease.token < NextToken(w, ops)
  {}

  /** The run ends by handing over this stream with this lease. */
  ghost predicate HandsOver(steps: seq<Execution.Step>, r: Response, lease: HealthLease) {
    && r.CommittedStream?
    && steps != [] && steps[|steps| - 1].Tried?
    && steps[|steps| - 1].verdict == HandedOver(r.opening, r.taken) && steps[|steps| - 1].lease == lease
  }

  lemma HandedOverUnrecorded(w: World, history: seq<Op>, engine: Engine, envelope: Envelope, plan: ExecutionPlan,
                             script: Script, steps: seq<Execution.Step>, r: Response, lease: HealthLease)
    requires w.Valid() && Executed(w, history, engine, envelope, plan, script, steps)
    requires HandsOver(steps, r, lease) && OthersAbstain(script, steps, lease.token)
    ensures RecordsOf(AllCalls(script, steps), lease.token) == 0
    ensures LeaseIsLive(w, history + AllCalls(script, steps), lease)
  {
    hide Executed, AllCalls, RecordsOf, LeaseIsGone, LeaseIsLive, OthersAbstain;
    LeasesAreConserved(w, history, engine, envelope, plan, script, steps, |steps| - 1);
  }

  /** A committed stream's lease is recorded exactly once over the whole request, and then
      gone, if its relay runs and comes to an end; otherwise nothing records it, and it
      stays active as it was issued. */
  lemma StreamLeaseIsRecordedExactly(w: World, history: seq<Op>, engine: Engine, envelope: Envelope,
                                     plan: ExecutionPlan, script: Script,
                                     steps: seq<Execution.Step>, lease: HealthLease, r: Response, d: Delivery)
    requires w.Valid() && Executed(w, history, engine, envelope, plan, script, steps)
    requires HandsOver(steps, r, lease)
    requires OthersAbstain(script, steps, lease.token) && RecordsOf(d.others, lease.token) == 0
    ensures var calls := AllCalls(script, steps) + CallsAfterCommit(engine, envelope, r, lease, d);
      if Runs(engine, envelope, r, d) && RelayRun(engine, envelope, r, d).stop.Some?
      then RecordsOf(calls, lease.token) == 1 && LeaseIsGone(w, history + calls, lease.token)
      else RecordsOf(calls, lease.token) == 0 && LeaseIsLive(w, history + calls, lease)
  {
    HandedOverUnrecorded(w, history, engine, envelope, plan, script, steps, r, lease);
    hide Executed, HandsOver, AllCalls, RecordsOf, OthersAbstain, RelayRun, LeaseIsGone, LeaseIsLive, FedAll;
    if Runs(engine, envelope, r, d) {
      var p := RelayRun(engine, envelope, r, d);
      DeliveredLease(w, history, AllCalls(script, steps), lease, d,
        TranscriptOf(engine.semantics[envelope.protocol], p).outcomes);
    } else {
      assert AllCalls(script, steps) + [] == AllCalls(script, steps);
    }
  }

  lemma DeliveredLease(w: World, history: seq<Op>, calls: seq<Op>, lease: HealthLease, d: Delivery,
                       outcomes: seq<FailureClass>)
    requires w.Valid() && LeaseIsLive(w, history + calls, lease)
    requires RecordsOf(calls, lease.token) == 0 && RecordsOf(d.others, lease.token) == 0
    ensures var all := calls + DeliveryCalls(lease, d, outcomes);
      if outcomes != []
      then RecordsOf(all, lease.token) == 1 && LeaseIsGone(w, history + all, lease.token)
      else RecordsOf(all, lease.token) == 0 && LeaseIsLive(w, history + all, lease)
  {
    hide RecordsOf, LeaseIsGone, LeaseIsLive;
    if outcomes == [] {
      LateSilence(w, history, calls, d.others, lease);
    } else {
      LateRecord(w, history, calls, d.others, lease, AttemptOutcome(outcomes[0], d.doneAt, None));
    }
  }

  lemma LateSilence(w: World, history: seq<Op>, calls: seq<Op>, others: seq<Op>, lease: HealthLease)
    requires w.Valid() && LeaseIsLive(w, history + calls, lease)
    requires RecordsOf(calls, lease.token) == 0 && RecordsOf(others, lease.token) == 0
    ensures RecordsOf(calls + others, lease.token) == 0 && LeaseIsLive(w, history + (calls + others), lease)
  {
    hide RecordsOf, LeaseIsLive;
    RecordsConcat(calls, others, lease.token);
    LiveStaysLive(w, history + calls, others, lease);
    ConcatAssociates(history, calls, others);
  }

  // ----------------------------------------------------------- when the relay can run

  /** Every usage fragment has been built, so alone it is consistent. */
  ghost predicate Built(sem: Semantics) {
    forall e | sem.extract(e).Some? :: sem.extract(e).value.Consistent()
  }

  lemma FedFirst(sem: Semantics, first: Bytes)
    requires IsEvent(first)
    ensures FedAll(sem, [first]).1 ==> !FedAll(sem, [first]).0.overflowed
    ensures FedAll(sem, [first]).1 <==> ObserveEvent(sem, NOTHING, first).Some?
  {
    var none: Bytes := [];
    assert none + first == first && first[..|first|] == first && first[|first|..] == none;
    var next := ObserveEvent(sem, NOTHING, first);
    assert Extract(sem, NOTHING, first) ==
      if next.None? then Extraction(NOTHING, none, false) else Extract(sem, next.value, none);
    assert next.Some? ==> Extract(sem, next.value, none) == Extraction(next.value, none, true);
    assert [first][..0] == [];
    assert FedAll(sem, [first]) == Fed(sem, FRESH_OBSERVER, first);
    hide Extract, ObserveEvent, Cut;
  }

  /** A first event can be observed exactly when it is not faulty; that it was accepted
      is another question, which each protocol answers for itself. */
  lemma FirstEventIsObservedExactly(sem: Semantics, first: Bytes)
    requires Built(sem) && IsEvent(first)
    ensures FedAll(sem, [first]).1 <==> !sem.faulty(first)
  {
    FedFirst(sem, first);
  }

  /** Observing what was read before the commit raises exactly when one of its complete
      events is faulty or their usage fragments cannot be merged. */
  lemma ObservableExactly(sem: Semantics, first: Bytes, remainder: Bytes)
    requires IsEvent(first)
    ensures var events := Drain(first + remainder).0;
      FedAll(sem, Head(first, remainder)).1 <==>
        (forall i | 0 <= i < |events| :: !sem.faulty(events[i])) && MergeAll(Fragments(sem, events)).Some?
  {
    ReportMeaning(sem, Drain(first + remainder).0);
    hide FedAll, Drain, Fragments;
    HeadIsReported(sem, first, remainder);
  }

  /** Before the commit nothing overflows, so the head is observed as one stream. */
  lemma HeadIsReported(sem: Semantics, first: Bytes, remainder: Bytes)
    requires IsEvent(first)
    ensures FedAll(sem, Head(first, remainder)).1 == StreamReport(sem, first + remainder).ok
  {
    HeadReports(sem, first);
    if remainder == [] {
      assert first + remainder == first;
    } else if FedAll(sem, [first]).1 {
      RemainderIsReported(sem, first, remainder);
    } else {
      assert Head(first, remainder)[..1] == [first];
      AfterFailure(sem, first, remainder);
    }
    hide Fed, StreamReport;
  }

  lemma RemainderIsReported(sem: Semantics, first: Bytes, remainder: Bytes)
    requires IsEvent(first) && remainder != [] && FedAll(sem, [first]).1
    ensures FedAll(sem, Head(first, remainder)).1 == StreamReport(sem, first + remainder).ok
  {
    var one := FedAll(sem, [first]);
    FedFirst(sem, first);
    FlattenOne(first);
    ObserverSeesTheStream(sem, [first]);
    OneMoreChunk(sem, one.0, first, remainder);
    assert Head(first, remainder)[..1] == [first];
    assert FedAll(sem, Head(first, remainder)) == Fed(sem, one.0, remainder);
    FedIsExtraction(sem, one.0, remainder);
    hide Fed, FedAll, Extract, StreamReport;
  }

  lemma FedIsExtraction(sem: Semantics, s: Observer, chunk: Bytes)
    ensures Fed(sem, s, chunk).1 == Extract(sem, s.seen, s.buffer + chunk).ok
  {}

  lemma HeadReports(sem: Semantics, first: Bytes)
    requires IsEvent(first)
    ensures FedAll(sem, [first]).1 == StreamReport(sem, first).ok
  {
    assert [first][..0] == [] && [] + first == first;
    ExtractMeaning(sem, NOTHING, first);
  }

  lemma {:induction false} FlattenPrefixes(xs: seq<Bytes>, ys: seq<Bytes>)
    requires xs <= ys
    ensures Flatten(xs) <= Flatten(ys)
  {
    PrefixBytes(ys, |xs|);
    assert ys[..|xs|] == xs;
  }

  /** End to end: for a committed attempt whose body was read, the bytes sent to the client
      before any error event are a prefix of the bytes upstream sent, first those read
      before the commit and then those relayed; all of them if upstream ended by itself. */
  lemma EndToEndTransparency(engine: Engine, envelope: Envelope, target: ModelTarget, answer: Answer, d: Delivery)
    requires answer.Opened? && answer.first.Reads?
    requires var v := Judge(engine, envelope, target, answer);
      v.HandedOver? && Runs(engine, envelope, CommittedStream(target, v.opening, v.taken), d)
    ensures Judge(engine, envelope, target, answer).taken <= |answer.first.body.chunks|
    ensures var v := Judge(engine, envelope, target, answer);
      var sem := engine.semantics[envelope.protocol];
      var p := Progressed(sem, v.opening.first, v.opening.remainder, d.turns, d.consumer);
      var upstream := Flatten(answer.first.body.chunks[..v.taken]) + Flatten(UpstreamChunks(d.turns, 0));
      && Flatten(p.sent) <= upstream
      && (p.stop == Some(Ended) ==> Flatten(p.sent) == upstream)
  {
    var v := Judge(engine, envelope, target, answer);
    HandedOverIsRead(engine, envelope, target, answer);
    hide Progressed, FedAll, Judge, FirstOpening, Opens, Cut;
    var head, chunks := Head(v.opening.first, v.opening.remainder), UpstreamChunks(d.turns, 0);
    RelayIsTransparent(engine.semantics[envelope.protocol], v.opening.first, v.opening.remainder, d.turns, d.consumer);
    FlattenConcat(head, chunks);
    var sem := engine.semantics[envelope.protocol];
    FlattenPrefixes(Progressed(sem, v.opening.first, v.opening.remainder, d.turns, d.consumer).sent, head + chunks);
  }

  lemma HandedOverIsRead(engine: Engine, envelope: Envelope, target: ModelTarget, answer: Answer)
    requires answer.Opened? && answer.first.Reads? && Judge(engine, envelope, target, answer).HandedOver?
    ensures var v := Judge(engine, envelope, target, answer);
      && v.taken <= |answer.first.body.chunks|
      && v.opening.first + v.opening.remainder == Flatten(answer.first.body.chunks[..v.taken])
      && IsEvent(v.opening.first)
  {
    FirstOpeningMeaning(answer.first.body, 0);
  }
}
