/**
 The relay of a committed stream (execution/streaming.py, relay_stream).

 A run of the generator is driven by two scripts: what upstream does at each
 pull, and what the consumer does at each yield. At every suspension another
 task may also cancel the completion future.
 */
module StreamRelay {
  import opened Prelude
  import opened Domain
  import opened HealthModels
  import opened Usage
  import opened Sse
  import opened StreamObserver
  import opened Exchanges

  datatype Pull =
    | Chunk(bytes: Bytes)
    | EndOfStream
    | PullRaised(error: RouterError)
    | PullBroke          // any other exception, the idle timeout included
    | PastDeadline
    | PullCancelled

  datatype Turn = Turn(abandons: bool, pull: Pull)

  datatype Action = Resume | Close | Throw  // aclose, or a cancellation delivered at the yield

  datatype Move = Move(abandons: bool, action: Action)

  type Consumer = nat -> Move

  datatype Stats = Stats(status: string, errorCode: Option<string>, usage: Option<UsageBreakdown>)

  /** The future that reports how the stream went. Abandoned: cancelled by whoever awaited it. */
  datatype Completion = Pending | Abandoned | Settled(stats: Stats)

  /** Why the generator left its loop. */
  datatype Stop =
    | Ended
    | RouterFailed(code: string)
    | Broke
    | Left

  const READ_FAILED := "router_upstream_read_failed"
  const INCOMPLETE := "router_upstream_incomplete_stream"

  // ------------------------------------------------------------------- specification

  /** How far the relay got: the upstream bytes it yielded, what the observer knew then,
      and why it stopped; None while it is suspended. */
  datatype Progress = Progress(sent: seq<Bytes>, observer: Observer, abandoned: bool, stop: Option<Stop>)

  function StopOfPull(pull: Pull): Stop
    requires !pull.Chunk?
  {
    match pull
    case EndOfStream => Ended
    case PullRaised(error) => RouterFailed(error.code)
    case PullBroke => Broke
    case PastDeadline => RouterFailed(TimeoutError().code)
    case PullCancelled => Left
  }

  /** One turn of the loop; `nth` numbers the next yield. */
  function OneTurn(sem: Semantics, s: Observer, turn: Turn, consumer: Consumer, nth: nat, abandoned: bool): Progress {
    var gone := abandoned || turn.abandons;
    if !turn.pull.Chunk? then Progress([], s, gone, Some(StopOfPull(turn.pull)))
    else
      var fed := Fed(sem, s, turn.pull.bytes);
      if !fed.1 then Progress([], fed.0, gone, Some(Broke))
      else Yielded(turn.pull.bytes, fed.0, consumer(nth), gone)
  }

  function Yielded(bytes: Bytes, s: Observer, move: Move, abandoned: bool): Progress {
    Progress([bytes], s, abandoned || move.abandons, if move.action == Resume then None else Some(Left))
  }

  /** The loop, from its head at turn i. */
  function Flow(sem: Semantics, s: Observer, turns: seq<Turn>, i: nat, consumer: Consumer, nth: nat, abandoned: bool)
    : Progress
    requires i <= |turns|
    decreases |turns| - i
  {
    if i == |turns| then Progress([], s, abandoned, None)
    else
      var now := OneTurn(sem, s, turns[i], consumer, nth, abandoned);
      if now.stop.Some? then now
      else Prepend(now.sent, Flow(sem, now.observer, turns, i + 1, consumer, nth + 1, now.abandoned))
  }

  function Prepend(sent: seq<Bytes>, p: Progress): Progress {
    p.(sent := sent + p.sent)
  }

  /** What was read before the stream was committed. */
  function Head(first: Bytes, remainder: Bytes): seq<Bytes> {
    if remainder == [] then [first] else [first, remainder]
  }

  /** The head, already observed, is yielded first. */
  function Opened(s: Observer, first: Bytes, remainder: Bytes, consumer: Consumer): Progress {
    var one := Yielded(first, s, consumer(0), false);
    if one.stop.Some? || remainder == [] then one
    else Prepend([first], Yielded(remainder, s, consumer(1), one.abandoned))
  }

  /** The whole run. */
  function Progressed(sem: Semantics, first: Bytes, remainder: Bytes, turns: seq<Turn>, consumer: Consumer): Progress {
    var head := Opened(FedAll(sem, Head(first, remainder)).0, first, remainder, consumer);
    if head.stop.Some? then head
    else Prepend(head.sent, Flow(sem, head.observer, turns, 0, consumer, |head.sent|, head.abandoned))
  }

  /** What the relay leaves behind when it stops. */
  datatype Finish = Finish(outcome: FailureClass, stats: Stats, trailer: Option<string>)

  function FinishOf(stop: Stop, seen: Seen, abandoned: bool): Finish {
    match stop
    case Left => Finish(ClientCancelled, Stats("cancelled", Some("router_cancelled"), None), None)
    case RouterFailed(code) => Finish(PostCommitStreamFailure, Stats("error", Some(code), None), Some(code))
    case Broke => Finish(PostCommitStreamFailure, Stats("error", Some(READ_FAILED), None), Some(READ_FAILED))
    case Ended =>
      // Settling an abandoned future raises, which here only adds the error event.
      var trailer := if abandoned then Some(READ_FAILED) else None;
      if seen.terminal == Some(PostCommitStreamFailure) then
        Finish(PostCommitStreamFailure, Stats("error", Some("router_upstream_stream_error"), Some(seen.usage)), trailer)
      else if seen.terminal == Some(Success) then
        Finish(Success, Stats("success", None, Some(seen.usage)), trailer)
      else
        Finish(PostCommitStreamFailure, Stats("error", Some(INCOMPLETE), None), Some(INCOMPLETE))
  }

  /** Everything a run leaves behind: bytes sent, outcomes recorded, the future, and how often upstream was closed. */
  datatype Transcript = Transcript(sent: seq<Bytes>, outcomes: seq<FailureClass>, completion: Completion, closes: nat)

  function TranscriptOf(sem: Semantics, p: Progress): Transcript {
    if p.stop.None? then Transcript(p.sent, [], if p.abandoned then Abandoned else Pending, 0)
    else
      var f := FinishOf(p.stop.value, p.observer.seen, p.abandoned);
      Transcript(
        p.sent + if f.trailer.Some? then [sem.render(f.trailer.value)] else [],
        [f.outcome],
        if p.abandoned then Abandoned else Settled(f.stats),
        1)
  }

  // -------------------------------------------------------------------- the generator

  class CompletionFuture {
    var state: Completion

    constructor ()
      ensures state == Pending
    {
      state := Pending;
    }

    /** False when it raises because the future is already done. */
    method SetResult(stats: Stats) returns (ok: bool)
      modifies this
      ensures ok <==> old(state) == Pending
      ensures state == if ok then Settled(stats) else old(state)
    {
      ok := state == Pending;
      if ok {
        state := Settled(stats);
      }
    }

    method Cancel(now: bool)
      modifies this
      ensures state == if now && old(state) == Pending then Abandoned else old(state)
    {
      if now && state == Pending {
        state := Abandoned;
      }
    }
  }

  /** How control leaves the body of the generator. */
  datatype Exit = Returned | Cancelled | RouterRaised(code: string) | Raised

  /** The lease callback behind its once-flag. */
  class Recorder {
    var outcomes: seq<FailureClass>
    var recorded: bool

    constructor ()
      ensures outcomes == [] && !recorded
    {
      outcomes, recorded := [], false;
    }

    method Finish(failureClass: FailureClass)
      modifies this
      ensures recorded
      ensures outcomes == if old(recorded) then old(outcomes) else old(outcomes) + [failureClass]
    {
      if recorded {
        return;
      }
      recorded := true;
      outcomes := outcomes + [failureClass];
    }
  }

  /** Upstream ended normally: the terminal event decides. */
  method Conclude(seen: Seen, recorder: Recorder, completion: CompletionFuture) returns (exit: Exit)
    requires !recorder.recorded && recorder.outcomes == [] && !completion.state.Settled?
    modifies recorder, completion
    ensures old(completion.state) == Abandoned ==> completion.state == Abandoned
    ensures exit != Cancelled
    ensures exit.RouterRaised? <==> seen.terminal !in {Some(Success), Some(PostCommitStreamFailure)}
    ensures exit.RouterRaised? ==>
      && exit.code == INCOMPLETE && !recorder.recorded && recorder.outcomes == []
      && completion.state == old(completion.state)
    ensures var f := FinishOf(Ended, seen, old(completion.state) == Abandoned);
      !exit.RouterRaised? ==>
        && recorder.recorded && recorder.outcomes == [f.outcome]
        && (exit == Raised <==> f.trailer.Some?)
        && (old(completion.state) == Pending ==> completion.state == Settled(f.stats))
  {
    var ok := true;
    if seen.terminal == Some(PostCommitStreamFailure) {
      recorder.Finish(PostCommitStreamFailure);
      ok := completion.SetResult(Stats("error", Some("router_upstream_stream_error"), Some(seen.usage)));
    } else if seen.terminal != Some(Success) {
      return RouterRaised(INCOMPLETE);
    } else {
      recorder.Finish(Success);
      ok := completion.SetResult(Stats("success", None, Some(seen.usage)));
    }
    return if ok then Returned else Raised;
  }

  /** The ways out of the generator: the normal end and the four handlers. */
  method Leave(sem: Semantics, stop: Stop, seen: Seen, recorder: Recorder, completion: CompletionFuture)
    returns (trailer: seq<Bytes>)
    requires !recorder.recorded && recorder.outcomes == [] && !completion.state.Settled?
    modifies recorder, completion
    ensures var f := FinishOf(stop, seen, old(completion.state) == Abandoned);
      && recorder.outcomes == [f.outcome]
      && completion.state == (if old(completion.state) == Abandoned then Abandoned else Settled(f.stats))
      && trailer == if f.trailer.Some? then [sem.render(f.trailer.value)] else []
  {
    trailer := [];
    var ok := true;
    var exit: Exit;
    match stop {
      case Ended => exit := Conclude(seen, recorder, completion);
      case RouterFailed(code) => exit := RouterRaised(code);
      case Broke => exit := Raised;
      case Left => exit := Cancelled;
    }
    match exit {
      case Returned =>
      case Cancelled =>
        recorder.Finish(ClientCancelled);
        if completion.state == Pending {
          ok := completion.SetResult(Stats("cancelled", Some("router_cancelled"), None));
        }
      case RouterRaised(code) =>
        recorder.Finish(PostCommitStreamFailure);
        if completion.state == Pending {
          ok := completion.SetResult(Stats("error", Some(code), None));
        }
        trailer := [sem.render(code)];
      case Raised =>
        recorder.Finish(PostCommitStreamFailure);
        if completion.state == Pending {
          ok := completion.SetResult(Stats("error", Some(READ_FAILED), None));
        }
        trailer := [sem.render(READ_FAILED)];
    }
  }

  method Yield(bytes: Bytes, completion: CompletionFuture, move: Move, ghost s: Observer) returns (stop: Option<Stop>)
    requires !completion.state.Settled?
    modifies completion
    ensures !completion.state.Settled?
    ensures Progress([bytes], s, completion.state == Abandoned, stop) ==
      Yielded(bytes, s, move, old(completion.state) == Abandoned)
  {
    completion.Cancel(move.abandons);
    return if move.action == Resume then None else Some(Left);
  }

  method TakeTurn(usage: SSEUsageAccumulator, completion: CompletionFuture, turn: Turn, consumer: Consumer, nth: nat)
    returns (sent: seq<Bytes>, stop: Option<Stop>)
    requires !completion.state.Settled?
    modifies usage, completion
    ensures !completion.state.Settled?
    ensures Progress(sent, usage.State(), completion.state == Abandoned, stop)
      == OneTurn(usage.semantics, old(usage.State()), turn, consumer, nth, old(completion.state) == Abandoned)
  {
    completion.Cancel(turn.abandons);
    match turn.pull {
      case Chunk(chunk) =>
        var ok := usage.Feed(chunk);
        if !ok {
          return [], Some(Broke);
        }
        stop := Yield(chunk, completion, consumer(nth), usage.State());
        return [chunk], stop;
      case EndOfStream => return [], Some(Ended);
      case PullRaised(error) => return [], Some(RouterFailed(error.code));
      case PullBroke => return [], Some(Broke);
      case PastDeadline => return [], Some(RouterFailed(TimeoutError().code));
      case PullCancelled => return [], Some(Left);
    }
  }

  lemma AfterTurn(sem: Semantics, s: Observer, turns: seq<Turn>, i: nat, consumer: Consumer, nth: nat, abandoned: bool,
                  sent: seq<Bytes>, now: Progress)
    requires i < |turns| && now == OneTurn(sem, s, turns[i], consumer, nth, abandoned)
    ensures Prepend(sent, Flow(sem, s, turns, i, consumer, nth, abandoned)) ==
      if now.stop.Some? then Prepend(sent, now)
      else Prepend(sent + now.sent, Flow(sem, now.observer, turns, i + 1, consumer, nth + 1, now.abandoned))
  {
    if now.stop.None? {
      var later := Flow(sem, now.observer, turns, i + 1, consumer, nth + 1, now.abandoned).sent;
      assert sent + (now.sent + later) == (sent + now.sent) + later;
    }
  }

  lemma FlowEnds(sem: Semantics, s: Observer, turns: seq<Turn>, consumer: Consumer, nth: nat, abandoned: bool)
    ensures Flow(sem, s, turns, |turns|, consumer, nth, abandoned) == Progress([], s, abandoned, None)
  {}

  /** Pull, observe and yield until something stops the relay or the script ends. */
  method Pump(usage: SSEUsageAccumulator, completion: CompletionFuture, turns: seq<Turn>, consumer: Consumer,
              start: nat)
    returns (sent: seq<Bytes>, stop: Option<Stop>)
    requires !completion.state.Settled?
    modifies usage, completion
    ensures !completion.state.Settled?
    ensures Progress(sent, usage.State(), completion.state == Abandoned, stop)
      == Flow(usage.semantics, old(usage.State()), turns, 0, consumer, start, old(completion.state) == Abandoned)
  {
    hide OneTurn, Flow, Fed;
    sent, stop := [], None;
    ghost var sem, s, abandoned := usage.semantics, usage.State(), completion.state == Abandoned;
    ghost var whole := Flow(sem, s, turns, 0, consumer, start, abandoned);
    assert Prepend([], whole) == whole;
    var i := 0;
    while i < |turns| && stop.None?
      invariant i <= |turns|
      invariant !completion.state.Settled? && s == usage.State() && abandoned == (completion.state == Abandoned)
      invariant stop.None? ==> whole == Prepend(sent, Flow(sem, s, turns, i, consumer, start + i, abandoned))
      invariant stop.Some? ==> whole == Progress(sent, s, abandoned, stop)
    {
      var bytes;
      bytes, stop := TakeTurn(usage, completion, turns[i], consumer, start + i);
      ghost var now := Progress(bytes, usage.State(), completion.state == Abandoned, stop);
      AfterTurn(sem, s, turns, i, consumer, start + i, abandoned, sent, now);
      s, abandoned := now.observer, now.abandoned;
      sent := sent + bytes;
      i := i + 1;
    }
    FlowEnds(sem, s, turns, consumer, start + i, abandoned);
  }

  method Open(completion: CompletionFuture, first: Bytes, remainder: Bytes, consumer: Consumer, ghost s: Observer)
    returns (sent: seq<Bytes>, stop: Option<Stop>)
    requires completion.state == Pending
    modifies completion
    ensures !completion.state.Settled?
    ensures Progress(sent, s, completion.state == Abandoned, stop) == Opened(s, first, remainder, consumer)
  {
    sent := [first];
    stop := Yield(first, completion, consumer(0), s);
    if stop.None? && remainder != [] {
      sent := sent + [remainder];
      stop := Yield(remainder, completion, consumer(1), s);
    }
  }

  /** The generator, from its first step. The first event and the remainder are observed
      outside its error handling, so that must not raise. */
  method RelayStream(sem: Semantics, first: Bytes, remainder: Bytes, turns: seq<Turn>, consumer: Consumer,
                     exchange: Exchange)
    returns (t: Transcript)
    requires FedAll(sem, Head(first, remainder)).1 && exchange.closes == 0
    modifies exchange
    ensures exchange.closes == t.closes
    ensures t == TranscriptOf(sem, Progressed(sem, first, remainder, turns, consumer))
  {
    var usage := new SSEUsageAccumulator(sem);
    var completion := new CompletionFuture();
    var recorder := new Recorder();
    HeadFeeds(sem, first, remainder);
    var ok := usage.Feed(first);
    if remainder != [] {
      ok := usage.Feed(remainder);
    }
    var sent, stop := Open(completion, first, remainder, consumer, usage.State());
    if stop.None? {
      var body;
      body, stop := Pump(usage, completion, turns, consumer, |sent|);
      sent := sent + body;
    }
    assert Progressed(sem, first, remainder, turns, consumer)
      == Progress(sent, usage.State(), completion.state == Abandoned, stop);
    if stop.None? {
      return Transcript(sent, recorder.outcomes, completion.state, exchange.closes);
    }
    var trailer := Leave(sem, stop.value, usage.State().seen, recorder, completion);
    exchange.Close();
    return Transcript(sent + trailer, recorder.outcomes, completion.state, exchange.closes);
  }

  lemma HeadFeeds(sem: Semantics, first: Bytes, remainder: Bytes)
    requires FedAll(sem, Head(first, remainder)).1
    ensures Fed(sem, FRESH_OBSERVER, first).1
    ensures FedAll(sem, Head(first, remainder)) ==
      if remainder == [] then Fed(sem, FRESH_OBSERVER, first)
      else Fed(sem, Fed(sem, FRESH_OBSERVER, first).0, remainder)
  {
    assert FedAll(sem, [first]) == Fed(sem, FRESH_OBSERVER, first) by {
      assert [first][..0] == [];
    }
    if remainder != [] {
      assert [first, remainder][..1] == [first];
    }
  }

  // ------------------------------------------------------------------------- theorems

  /** The chunks upstream delivers before it does anything else. */
  function UpstreamChunks(turns: seq<Turn>, i: nat): seq<Bytes>
    requires i <= |turns|
    decreases |turns| - i
  {
    if i == |turns| || !turns[i].pull.Chunk? then [] else [turns[i].pull.bytes] + UpstreamChunks(turns, i + 1)
  }

  /** What the loop leaves, as a whole: a prefix of upstream's chunks, observed in order. */
  ghost predicate FlowHolds(sem: Semantics, fed: seq<Bytes>, turns: seq<Turn>, i: nat, p: Progress)
    requires i <= |turns|
  {
    && p.sent <= UpstreamChunks(turns, i)
    && (p.stop in {None, Some(Ended), Some(Left)} ==> FedAll(sem, fed + p.sent) == (p.observer, true))
    && (p.stop in {None, Some(Ended)} ==> p.sent == UpstreamChunks(turns, i))
    && (p.stop == Some(Ended) ==> i + |p.sent| < |turns| && turns[i + |p.sent|].pull == EndOfStream)
  }

  lemma FedOneMore(sem: Semantics, fed: seq<Bytes>, s: Observer, chunk: Bytes)
    requires FedAll(sem, fed) == (s, true)
    ensures FedAll(sem, fed + [chunk]) == Fed(sem, s, chunk)
  {
    assert (fed + [chunk])[..|fed|] == fed;
  }

  lemma TurnHolds(sem: Semantics, fed: seq<Bytes>, s: Observer, turns: seq<Turn>, i: nat, consumer: Consumer, nth: nat,
                  abandoned: bool)
    requires i < |turns| && FedAll(sem, fed) == (s, true)
    ensures var now := OneTurn(sem, s, turns[i], consumer, nth, abandoned);
      && (now.stop.Some? ==> FlowHolds(sem, fed, turns, i, now))
      && (now.stop.None? ==>
            && turns[i].pull.Chunk?
            && now.sent == [turns[i].pull.bytes]
            && FedAll(sem, fed + now.sent) == (now.observer, true))
  {
    hide Fed, FedAll;
    assert fed + [] == fed;
    if turns[i].pull.Chunk? {
      FedOneMore(sem, fed, s, turns[i].pull.bytes);
    }
  }

  lemma FlowHoldsBefore(sem: Semantics, fed: seq<Bytes>, turns: seq<Turn>, i: nat, chunk: Bytes, later: Progress)
    requires i < |turns| && turns[i].pull == Chunk(chunk)
    requires FlowHolds(sem, fed + [chunk], turns, i + 1, later)
    ensures FlowHolds(sem, fed, turns, i, Prepend([chunk], later))
  {
    hide FedAll, UpstreamChunks;
    ConcatAssociates(fed, [chunk], later.sent);
    var rest := UpstreamChunks(turns, i + 1);
    assert UpstreamChunks(turns, i) == [chunk] + rest by {
      UpstreamChunksStep(turns, i);
    }
    PrefixAfter(chunk, later.sent, rest);
  }

  lemma UpstreamChunksStep(turns: seq<Turn>, i: nat)
    requires i < |turns| && turns[i].pull.Chunk?
    ensures UpstreamChunks(turns, i) == [turns[i].pull.bytes] + UpstreamChunks(turns, i + 1)
  {}

  lemma {:induction false} FlowIsTransparent(
    sem: Semantics, fed: seq<Bytes>, s: Observer, turns: seq<Turn>, i: nat, consumer: Consumer, nth: nat,
    abandoned: bool)
    requires i <= |turns| && FedAll(sem, fed) == (s, true)
    ensures FlowHolds(sem, fed, turns, i, Flow(sem, s, turns, i, consumer, nth, abandoned))
    decreases |turns| - i
  {
    hide Fed, FedAll, OneTurn;
    if i == |turns| {
      assert fed + [] == fed;
    } else {
      TurnHolds(sem, fed, s, turns, i, consumer, nth, abandoned);
      var now := OneTurn(sem, s, turns[i], consumer, nth, abandoned);
      if now.stop.None? {
        FlowIsTransparent(sem, fed + now.sent, now.observer, turns, i + 1, consumer, nth + 1, now.abandoned);
        FlowHoldsBefore(sem, fed, turns, i, turns[i].pull.bytes,
          Flow(sem, now.observer, turns, i + 1, consumer, nth + 1, now.abandoned));
      }
    }
  }

  lemma HeadBytes(first: Bytes, remainder: Bytes)
    ensures Flatten(Head(first, remainder)) == first + remainder
  {
    FlattenOne(first);
    if remainder != [] {
      FlattenConcat([first], [remainder]);
      FlattenOne(remainder);
      assert [first] + [remainder] == [first, remainder];
    }
  }

  /** The relay never alters, reorders, repeats or splits: at every moment of every run the
      bytes sent are a chunk-wise prefix of first event, remainder and upstream chunks. */
  lemma RelayIsTransparent(sem: Semantics, first: Bytes, remainder: Bytes, turns: seq<Turn>, consumer: Consumer)
    requires FedAll(sem, Head(first, remainder)).1
    ensures var p := Progressed(sem, first, remainder, turns, consumer);
      && p.sent != []
      && p.sent <= Head(first, remainder) + UpstreamChunks(turns, 0)
      && Flatten(Head(first, remainder)) == first + remainder
      && (p.stop in {None, Some(Ended)} ==>
            && p.sent == Head(first, remainder) + UpstreamChunks(turns, 0)
            && FedAll(sem, p.sent) == (p.observer, true))
      && (p.stop == Some(Ended) ==>
            |UpstreamChunks(turns, 0)| < |turns| && turns[|UpstreamChunks(turns, 0)|].pull == EndOfStream)
  {
    hide FedAll, Fed;
    var head := Head(first, remainder);
    HeadBytes(first, remainder);
    var start := Opened(FedAll(sem, head).0, first, remainder, consumer);
    if start.stop.None? {
      FlowIsTransparent(sem, head, FedAll(sem, head).0, turns, 0, consumer, |start.sent|, start.abandoned);
    }
  }

  /** Exactly once: at every moment the outcome has been recorded, upstream closed and, if
      nobody abandoned it, the future settled, once if the run is over and else not at all;
      and at most one error event follows the relayed bytes. */
  lemma RelayFinishesOnce(sem: Semantics, first: Bytes, remainder: Bytes, turns: seq<Turn>, consumer: Consumer)
    ensures var p := Progressed(sem, first, remainder, turns, consumer);
      var t := TranscriptOf(sem, p);
      && |t.outcomes| == t.closes == (if p.stop.Some? then 1 else 0)
      && (t.completion.Settled? <==> p.stop.Some? && !p.abandoned)
      && (|| t.sent == p.sent
          || (p.stop.Some? && p.stop != Some(Left) && exists code :: t.sent == p.sent + [sem.render(code)]))
  {
    var p := Progressed(sem, first, remainder, turns, consumer);
    if p.stop.Some? {
      var f := FinishOf(p.stop.value, p.observer.seen, p.abandoned);
      if f.trailer.Some? {
        assert TranscriptOf(sem, p).sent == p.sent + [sem.render(f.trailer.value)];
      }
    }
  }

  /** Success is recorded exactly when upstream ended by itself and the last terminal event
      seen was a success. Every byte had then been sent; and if no event was too long, it
      was the last terminal event of the whole stream, by its own framing. */
  lemma SuccessExactly(sem: Semantics, first: Bytes, remainder: Bytes, turns: seq<Turn>, consumer: Consumer)
    requires FedAll(sem, Head(first, remainder)).1
    ensures var p := Progressed(sem, first, remainder, turns, consumer);
      var all := Head(first, remainder) + UpstreamChunks(turns, 0);
      && (TranscriptOf(sem, p).outcomes == [Success] <==>
         p.stop == Some(Ended) && p.observer.seen.terminal == Some(Success))
      && (p.stop == Some(Ended) ==> p.sent == all)
      && (p.stop == Some(Ended) && !TailTooLong(all) ==>
            (TranscriptOf(sem, p).outcomes == [Success] <==> LastTerminal(sem, Drain(Flatten(all)).0) == Some(Success)))
  {
    hide FedAll, Fed, Flow, OneTurn, Opened, Progressed;
    RelayIsTransparent(sem, first, remainder, turns, consumer);
    var p := Progressed(sem, first, remainder, turns, consumer);
    if p.stop == Some(Ended) {
      OverflowExactly(sem, p.sent);
      ObserverSeesTheStream(sem, p.sent);
      ReportMeaning(sem, Drain(Flatten(p.sent)).0);
    }
  }

  // ------------------------------------------------- which event of the script ends a run

  /** The consumer left at the last yield. */
  predicate LeftAtYield(consumer: Consumer, nth: nat, sent: seq<Bytes>) {
    sent != [] && consumer(nth + |sent| - 1).action != Resume
  }

  function StopAtTurn(turns: seq<Turn>, n: nat): Option<Stop>
    requires n <= |turns|
  {
    if n == |turns| then None else Some(if turns[n].pull.Chunk? then Broke else StopOfPull(turns[n].pull))
  }

  /** Somebody cancels the future at one of these pulls or yields. */
  ghost predicate AbandonedWithin(turns: seq<Turn>, i: nat, j: nat, consumer: Consumer, m: nat, n: nat) {
    || (exists k :: i <= k < j && k < |turns| && turns[k].abandons)
    || (exists k :: m <= k < n && consumer(k).abandons)
  }

  ghost predicate FlowEndsAt(turns: seq<Turn>, i: nat, consumer: Consumer, nth: nat, abandoned: bool, p: Progress)
    requires i <= |turns|
  {
    var left, n := LeftAtYield(consumer, nth, p.sent), |p.sent|;
    && i + n <= |turns|
    && p.stop == (if left then Some(Left) else StopAtTurn(turns, i + n))
    && (p.abandoned <==>
       abandoned || AbandonedWithin(turns, i, if left then i + n else i + n + 1, consumer, nth, nth + n))
  }

  lemma OneTurnEndsAt(sem: Semantics, s: Observer, turns: seq<Turn>, i: nat, consumer: Consumer, nth: nat,
                      abandoned: bool)
    requires i < |turns|
    ensures var now := OneTurn(sem, s, turns[i], consumer, nth, abandoned);
      && (now.stop.Some? ==> FlowEndsAt(turns, i, consumer, nth, abandoned, now))
      && (now.stop.None? ==>
            && |now.sent| == 1 && consumer(nth).action == Resume
            && (now.abandoned <==> abandoned || turns[i].abandons || consumer(nth).abandons))
  {
    hide Fed;
    var now := OneTurn(sem, s, turns[i], consumer, nth, abandoned);
    if turns[i].abandons {
      assert i <= i < |turns| && turns[i].abandons;
    }
    if now.sent != [] && consumer(nth).abandons {
      assert nth <= nth < nth + 1 && consumer(nth).abandons;
    }
  }

  lemma AbandonedStep(turns: seq<Turn>, i: nat, j: nat, consumer: Consumer, m: nat, n: nat)
    requires i < j && m < n && i < |turns|
    ensures AbandonedWithin(turns, i, j, consumer, m, n) <==>
      turns[i].abandons || consumer(m).abandons || AbandonedWithin(turns, i + 1, j, consumer, m + 1, n)
  {
    if turns[i].abandons {
      assert i <= i < j && turns[i].abandons;
    }
    if consumer(m).abandons {
      assert m <= m < n && consumer(m).abandons;
    }
  }

  lemma {:induction false} FlowEndsAtScript(
    sem: Semantics, s: Observer, turns: seq<Turn>, i: nat, consumer: Consumer, nth: nat, abandoned: bool)
    requires i <= |turns|
    ensures FlowEndsAt(turns, i, consumer, nth, abandoned, Flow(sem, s, turns, i, consumer, nth, abandoned))
    decreases |turns| - i
  {
    hide OneTurn, Fed, AbandonedWithin;
    if i == |turns| {
      NothingAbandoned(turns, consumer, nth);
    } else {
      OneTurnEndsAt(sem, s, turns, i, consumer, nth, abandoned);
      var now := OneTurn(sem, s, turns[i], consumer, nth, abandoned);
      if now.stop.None? {
        var later := Flow(sem, now.observer, turns, i + 1, consumer, nth + 1, now.abandoned);
        FlowEndsAtScript(sem, now.observer, turns, i + 1, consumer, nth + 1, now.abandoned);
        var n := |later.sent|;
        var end := if LeftAtYield(consumer, nth + 1, later.sent) then i + 1 + n else i + 1 + n + 1;
        AbandonedStep(turns, i, end, consumer, nth, nth + 1 + n);
      }
    }
  }

  lemma NothingAbandoned(turns: seq<Turn>, consumer: Consumer, nth: nat)
    ensures !AbandonedWithin(turns, |turns|, |turns| + 1, consumer, nth, nth)
  {}

  /** How far the script was followed: which event ended the run and whether the future was
      cancelled at any suspension before that. `pulls` counts the pulls made. */
  ghost predicate RunEndsAt(first: Bytes, remainder: Bytes, turns: seq<Turn>, consumer: Consumer, p: Progress,
                            pulls: nat) {
    var left, n := LeftAtYield(consumer, 0, p.sent), |p.sent| - |Head(first, remainder)|;
    && (left ==> p.stop == Some(Left) && pulls == if n < 0 then 0 else n)
    && (!left ==> 0 <= n <= |turns| && p.stop == StopAtTurn(turns, n) && pulls == n + 1)
    && (p.abandoned <==> AbandonedWithin(turns, 0, pulls, consumer, 0, |p.sent|))
  }

  lemma RunFollowsScript(sem: Semantics, first: Bytes, remainder: Bytes, turns: seq<Turn>, consumer: Consumer)
    returns (pulls: nat)
    ensures RunEndsAt(first, remainder, turns, consumer, Progressed(sem, first, remainder, turns, consumer), pulls)
  {
    hide FedAll, Flow, AbandonedWithin;
    var s := FedAll(sem, Head(first, remainder)).0;
    var start := Opened(s, first, remainder, consumer);
    var m := |start.sent|;
    HeadAbandons(turns, first, remainder, s, consumer);
    if start.stop.Some? {
      pulls := 0;
    } else {
      var body := Flow(sem, start.observer, turns, 0, consumer, m, start.abandoned);
      FlowEndsAtScript(sem, start.observer, turns, 0, consumer, m, start.abandoned);
      var n := |body.sent|;
      pulls := if LeftAtYield(consumer, m, body.sent) then n else n + 1;
      AbandonedJoins(turns, pulls, consumer, m, m + n);
    }
  }

  lemma HeadAbandons(turns: seq<Turn>, first: Bytes, remainder: Bytes, s: Observer, consumer: Consumer)
    ensures var start := Opened(s, first, remainder, consumer);
      && (start.abandoned <==> AbandonedWithin(turns, 0, 0, consumer, 0, |start.sent|))
      && (start.stop.Some? <==> LeftAtYield(consumer, 0, start.sent))
      && 1 <= |start.sent| <= |Head(first, remainder)|
      && (start.stop.None? ==> |start.sent| == |Head(first, remainder)|)
      && (start.stop.Some? ==> start.stop == Some(Left))
  {
    var n := |Opened(s, first, remainder, consumer).sent|;
    if consumer(0).abandons {
      assert 0 <= 0 < n && consumer(0).abandons;
    }
    if n == 2 && consumer(1).abandons {
      assert 0 <= 1 < n && consumer(1).abandons;
    }
  }

  lemma AbandonedJoins(turns: seq<Turn>, pulls: nat, consumer: Consumer, m: nat, n: nat)
    requires m <= n
    ensures AbandonedWithin(turns, 0, pulls, consumer, 0, n) <==>
      AbandonedWithin(turns, 0, 0, consumer, 0, m) || AbandonedWithin(turns, 0, pulls, consumer, m, n)
  {}

  /** A client that leaves, or a relay cancelled while it waits for upstream, is never held
      against the Provider; every other end is, except upstream's own end after a terminal
      success. Which of these it was can be read off the script: what the consumer did at
      the last yield, or else what upstream did at the next pull. */
  lemma ProviderIsChargedExactly(sem: Semantics, first: Bytes, remainder: Bytes, turns: seq<Turn>, consumer: Consumer)
    requires Progressed(sem, first, remainder, turns, consumer).stop.Some?
    ensures var p := Progressed(sem, first, remainder, turns, consumer);
      var left, n := LeftAtYield(consumer, 0, p.sent), |p.sent| - |Head(first, remainder)|;
      var outcomes := TranscriptOf(sem, p).outcomes;
      && (left || 0 <= n < |turns|)
      && (outcomes == [ClientCancelled] <==> left || turns[n].pull == PullCancelled)
      && (outcomes == [Success] <==> !left && turns[n].pull == EndOfStream && p.observer.seen.terminal == Some(Success))
      && (outcomes == [PostCommitStreamFailure] <==>
            && !left && turns[n].pull != PullCancelled
            && !(turns[n].pull == EndOfStream && p.observer.seen.terminal == Some(Success)))
  {
    hide Progressed, AbandonedWithin;
    var pulls := RunFollowsScript(sem, first, remainder, turns, consumer);
  }

  /** Relaying does not depend on how upstream cut its bytes: two runs that reach the end
      of the same bytes, with no event too long, record the same outcome and usage. */
  lemma EndIsChunkingInvariant(
    sem: Semantics, first: Bytes, remainder: Bytes, first': Bytes, remainder': Bytes,
    turns: seq<Turn>, turns': seq<Turn>, consumer: Consumer, consumer': Consumer)
    requires FedAll(sem, Head(first, remainder)).1 && FedAll(sem, Head(first', remainder')).1
    requires Flatten(Head(first, remainder) + UpstreamChunks(turns, 0)) ==
      Flatten(Head(first', remainder') + UpstreamChunks(turns', 0))
    requires !TailTooLong(Head(first, remainder) + UpstreamChunks(turns, 0))
    requires !TailTooLong(Head(first', remainder') + UpstreamChunks(turns', 0))
    requires Progressed(sem, first, remainder, turns, consumer).stop == Some(Ended)
    requires Progressed(sem, first', remainder', turns', consumer').stop == Some(Ended)
    ensures Progressed(sem, first, remainder, turns, consumer).observer
      == Progressed(sem, first', remainder', turns', consumer').observer
    ensures TranscriptOf(sem, Progressed(sem, first, remainder, turns, consumer)).outcomes
      == TranscriptOf(sem, Progressed(sem, first', remainder', turns', consumer')).outcomes
  {
    hide FedAll, Fed, Flow, OneTurn, Opened, Progressed;
    RelayIsTransparent(sem, first, remainder, turns, consumer);
    RelayIsTransparent(sem, first', remainder', turns', consumer');
    var p, q :=
      Progressed(sem, first, remainder, turns, consumer), Progressed(sem, first', remainder', turns', consumer');
    OverflowExactly(sem, p.sent);
    OverflowExactly(sem, q.sent);
    ChunkingInvariance(sem, p.sent, q.sent);
  }

  /** A recorded success is followed by an error event exactly when somebody cancelled the
      future at a suspension of the run: at any of its yields, or at any pull up to the one
      that found the end. Otherwise the client got every byte and nothing else. */
  lemma ErrorAfterSuccessExactly(sem: Semantics, first: Bytes, remainder: Bytes, turns: seq<Turn>, consumer: Consumer)
    requires FedAll(sem, Head(first, remainder)).1
    requires TranscriptOf(sem, Progressed(sem, first, remainder, turns, consumer)).outcomes == [Success]
    ensures var all := Head(first, remainder) + UpstreamChunks(turns, 0);
      var t := TranscriptOf(sem, Progressed(sem, first, remainder, turns, consumer));
      var cancelled :=
        || (exists k :: 0 <= k <= |UpstreamChunks(turns, 0)| && k < |turns| && turns[k].abandons)
        || (exists k :: 0 <= k < |all| && consumer(k).abandons);
      && t.sent == all + (if cancelled then [sem.render(READ_FAILED)] else [])
      && (t.completion == Abandoned <==> cancelled)
  {
    hide FedAll, Progressed, UpstreamChunks;
    SuccessExactly(sem, first, remainder, turns, consumer);
    var pulls := RunFollowsScript(sem, first, remainder, turns, consumer);
  }
}
