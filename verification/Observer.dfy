/**
 The bounded observer of a relayed stream (execution/streaming.py,
 SSEUsageAccumulator), and why its answer does not depend on how the stream
 was cut into chunks.
 */
module StreamObserver {
  import opened Prelude
  import opened HealthModels
  import opened Usage
  import opened Sse

  const MAX_USAGE_EVENT_BYTES := 4 * 1024 * 1024

  datatype Validation = Accepted | InvalidEvent | ValidationCrashed

  /** A protocol's reading of single events. `faulty` marks events whose observation
      raises, such as one whose data is JSON but not an object. */
  datatype Semantics = Semantics(
    extract: Bytes -> Option<UsageBreakdown>,
    terminal: Bytes -> Option<FailureClass>,
    faulty: Bytes -> bool,
    validate: Bytes -> Validation,
    render: string -> Bytes)

  datatype Seen = Seen(usage: UsageBreakdown, terminal: Option<FailureClass>)

  const NOTHING := Seen(Empty(Missing), None)

  /** What one event adds; None when observing it raises. */
  function ObserveEvent(sem: Semantics, seen: Seen, event: Bytes): Option<Seen> {
    if sem.faulty(event) then None
    else
      var fragment, terminal := sem.extract(event), sem.terminal(event);
      var usage := if fragment.Some? then MergeUsage(seen.usage, fragment.value) else Some(seen.usage);
      if usage.None? then None
      else Some(Seen(usage.value, if terminal.Some? then terminal else seen.terminal))
  }

  datatype Report = Report(seen: Seen, ok: bool)

  /** Observe events in order, up to the first that raises. */
  function ObserveAll(sem: Semantics, seen: Seen, events: seq<Bytes>): Report
    decreases |events|
  {
    if events == [] then Report(seen, true)
    else
      var next := ObserveEvent(sem, seen, events[0]);
      if next.None? then Report(seen, false) else ObserveAll(sem, next.value, events[1..])
  }

  lemma {:induction false} ObserveConcat(sem: Semantics, seen: Seen, xs: seq<Bytes>, ys: seq<Bytes>)
    ensures ObserveAll(sem, seen, xs + ys) ==
      if ObserveAll(sem, seen, xs).ok then ObserveAll(sem, ObserveAll(sem, seen, xs).seen, ys)
      else ObserveAll(sem, seen, xs)
    decreases |xs|
  {
    if xs == [] {
      assert xs + ys == ys;
    } else {
      assert (xs + ys)[0] == xs[0] && (xs + ys)[1..] == xs[1..] + ys;
      var next := ObserveEvent(sem, seen, xs[0]);
      if next.Some? {
        ObserveConcat(sem, next.value, xs[1..], ys);
      }
    }
  }

  /** The observation of a whole stream, with no reference to chunks. */
  function StreamReport(sem: Semantics, stream: Bytes): Report {
    ObserveAll(sem, NOTHING, Drain(stream).0)
  }

  // ------------------------------------------------------------ the observer as a value

  datatype Observer = Observer(buffer: Bytes, seen: Seen, overflowed: bool)

  const FRESH_OBSERVER := Observer([], NOTHING, false)

  datatype Extraction = Extraction(seen: Seen, rest: Bytes, ok: bool)

  /** Cut and observe complete events until none is left or one raises. */
  function Extract(sem: Semantics, seen: Seen, buffer: Bytes): Extraction
    decreases |buffer|
  {
    var e := Cut(buffer);
    if e.None? then Extraction(seen, buffer, true)
    else
      var next := ObserveEvent(sem, seen, buffer[..e.value]);
      if next.None? then Extraction(seen, buffer[e.value..], false)
      else Extract(sem, next.value, buffer[e.value..])
  }

  function Degraded(usage: UsageBreakdown): UsageBreakdown {
    usage.(status := Partial)
  }

  /** The bound on an unfinished event, and what exceeding it costs. */
  function Bounded(seen: Seen, rest: Bytes, overflowed: bool): Observer {
    var usage := if overflowed && seen.usage.status == Complete then Degraded(seen.usage) else seen.usage;
    if |rest| > MAX_USAGE_EVENT_BYTES
    then Observer([], seen.(usage := if usage.status != Invalid then Degraded(usage) else usage), true)
    else Observer(rest, seen.(usage := usage), overflowed)
  }

  function Fed(sem: Semantics, s: Observer, chunk: Bytes): (Observer, bool) {
    var x := Extract(sem, s.seen, s.buffer + chunk);
    if x.ok then (Bounded(x.seen, x.rest, s.overflowed), true)
    else (Observer(x.rest, x.seen, s.overflowed), false)
  }

  /** A fresh observer fed chunk by chunk until one raises. */
  function FedAll(sem: Semantics, chunks: seq<Bytes>): (Observer, bool) {
    if chunks == [] then (FRESH_OBSERVER, true)
    else
      var before := FedAll(sem, chunks[..|chunks| - 1]);
      if before.1 then Fed(sem, before.0, chunks[|chunks| - 1]) else before
  }

  // ---------------------------------------------------------------- the observer itself

  class SSEUsageAccumulator {
    const semantics: Semantics
    var buffer: Bytes
    var usage: UsageBreakdown
    var overflowed: bool
    var terminalOutcome: Option<FailureClass>

    function State(): Observer
      reads this
    {
      Observer(buffer, Seen(usage, terminalOutcome), overflowed)
    }

    constructor (semantics: Semantics)
      ensures this.semantics == semantics && State() == FRESH_OBSERVER
    {
      this.semantics := semantics;
      buffer, usage, overflowed, terminalOutcome := [], Empty(Missing), false, None;
    }

    /** `ok` is false when observing an event raised. */
    method Feed(chunk: Bytes) returns (ok: bool)
      modifies this
      ensures (State(), ok) == Fed(semantics, old(State()), chunk)
    {
      buffer := buffer + chunk;
      ghost var start := buffer;
      ghost var seen := State().seen;
      var delimiter := Delimiter(buffer);
      while delimiter.Some?
        invariant delimiter == Delimiter(buffer)
        invariant overflowed == old(overflowed)
        invariant Extract(semantics, seen, start) == Extract(semantics, Seen(usage, terminalOutcome), buffer)
        decreases |buffer|
      {
        var end := Cut(buffer).value;
        var event := buffer[..end];
        buffer := buffer[end..];
        if semantics.faulty(event) {
          return false;
        }
        var fragment, terminal := semantics.extract(event), semantics.terminal(event);
        if fragment.Some? {
          var merged := MergeUsage(usage, fragment.value);
          if merged.None? {
            return false;
          }
          usage := merged.value;
        }
        if terminal.Some? {
          terminalOutcome := terminal;
        }
        delimiter := Delimiter(buffer);
      }
      if overflowed && usage.status == Complete {
        usage := Degraded(usage);
      }
      if |buffer| > MAX_USAGE_EVENT_BYTES {
        buffer, overflowed := [], true;
        if usage.status != Invalid {
          usage := Degraded(usage);
        }
      }
      return true;
    }
  }

  // ------------------------------------------------------------------------- theorems

  lemma {:induction false} ExtractMeaning(sem: Semantics, seen: Seen, buffer: Bytes)
    ensures var x := Extract(sem, seen, buffer);
      && Report(x.seen, x.ok) == ObserveAll(sem, seen, Drain(buffer).0)
      && (x.ok ==> x.rest == Drain(buffer).1)
    decreases |buffer|
  {
    var e := Cut(buffer);
    if e.Some? {
      var next := ObserveEvent(sem, seen, buffer[..e.value]);
      assert Drain(buffer).0[0] == buffer[..e.value] && Drain(buffer).0[1..] == Drain(buffer[e.value..]).0;
      if next.Some? {
        ExtractMeaning(sem, next.value, buffer[e.value..]);
      }
    }
  }

  lemma FlattenSnoc(chunks: seq<Bytes>)
    requires chunks != []
    ensures Flatten(chunks) == Flatten(chunks[..|chunks| - 1]) + chunks[|chunks| - 1]
  {
    var init, last := chunks[..|chunks| - 1], chunks[|chunks| - 1];
    assert init + [last] == chunks;
    FlattenConcat(init, [last]);
    FlattenOne(last);
  }

  /** s is what an observer that never overflowed knows about the stream seen so far. */
  ghost predicate Reports(sem: Semantics, s: (Observer, bool), stream: Bytes) {
    && Report(s.0.seen, s.1) == StreamReport(sem, stream)
    && (s.1 ==> s.0.buffer == Drain(stream).1)
  }

  lemma OneMoreChunk(sem: Semantics, s: Observer, stream: Bytes, chunk: Bytes)
    requires Reports(sem, (s, true), stream)
    ensures var x := Extract(sem, s.seen, s.buffer + chunk);
      && Report(x.seen, x.ok) == StreamReport(sem, stream + chunk)
      && (x.ok ==> x.rest == Drain(stream + chunk).1)
  {
    DrainIsIncremental(stream, chunk);
    ExtractMeaning(sem, s.seen, s.buffer + chunk);
    ObserveConcat(sem, NOTHING, Drain(stream).0, Drain(s.buffer + chunk).0);
  }

  lemma AfterFailure(sem: Semantics, stream: Bytes, chunk: Bytes)
    requires !StreamReport(sem, stream).ok
    ensures StreamReport(sem, stream + chunk) == StreamReport(sem, stream)
  {
    DrainIsIncremental(stream, chunk);
    ObserveConcat(sem, NOTHING, Drain(stream).0, Drain(Drain(stream).1 + chunk).0);
  }

  /** An observer that has not overflowed reports exactly the whole stream so far. */
  lemma {:induction false} ObserverSeesTheStream(sem: Semantics, chunks: seq<Bytes>)
    ensures !FedAll(sem, chunks).0.overflowed ==> Reports(sem, FedAll(sem, chunks), Flatten(chunks))
    decreases |chunks|
  {
    if chunks != [] && !FedAll(sem, chunks).0.overflowed {
      var init, last := chunks[..|chunks| - 1], chunks[|chunks| - 1];
      ObserverSeesTheStream(sem, init);
      FlattenSnoc(chunks);
      if FedAll(sem, init).1 {
        OneMoreChunk(sem, FedAll(sem, init).0, Flatten(init), last);
      } else {
        AfterFailure(sem, Flatten(init), last);
      }
    }
  }

  /** Chunking invariance: two ways of cutting one stream into chunks that never overflow
      agree on whether observation raises, on usage and on the terminal outcome, and, if
      it does not raise, on the unfinished rest. */
  lemma ChunkingInvariance(sem: Semantics, xs: seq<Bytes>, ys: seq<Bytes>)
    requires Flatten(xs) == Flatten(ys)
    requires !FedAll(sem, xs).0.overflowed && !FedAll(sem, ys).0.overflowed
    ensures FedAll(sem, xs).1 == FedAll(sem, ys).1
    ensures FedAll(sem, xs).0.seen == FedAll(sem, ys).0.seen
    ensures FedAll(sem, xs).1 ==> FedAll(sem, xs) == FedAll(sem, ys)
  {
    ObserverSeesTheStream(sem, xs);
    ObserverSeesTheStream(sem, ys);
  }

  /** At some chunk boundary the unfinished event exceeds the bound. */
  ghost predicate TailTooLong(chunks: seq<Bytes>) {
    exists k :: 0 <= k <= |chunks| && |Drain(Flatten(chunks[..k])).1| > MAX_USAGE_EVENT_BYTES
  }

  lemma TailTooLongStep(init: seq<Bytes>, last: Bytes)
    ensures TailTooLong(init + [last]) <==>
      TailTooLong(init) || |Drain(Flatten(init + [last])).1| > MAX_USAGE_EVENT_BYTES
  {
    var all := init + [last];
    assert all[..|all|] == all;
    assert forall k | 0 <= k <= |init| :: all[..k] == init[..k];
  }

  /** Overflow happens exactly when some chunk boundary leaves more than the bound of one
      unfinished event; so a stream of shorter events is read alike under every chunking. */
  lemma {:induction false} OverflowExactly(sem: Semantics, chunks: seq<Bytes>)
    requires FedAll(sem, chunks).1
    ensures FedAll(sem, chunks).0.overflowed <==> TailTooLong(chunks)
    decreases |chunks|
  {
    if chunks == [] {
      assert forall k | 0 <= k <= |chunks| :: chunks[..k] == [];
    } else {
      var init, last := chunks[..|chunks| - 1], chunks[|chunks| - 1];
      assert init + [last] == chunks;
      OverflowExactly(sem, init);
      TailTooLongStep(init, last);
      if !FedAll(sem, init).0.overflowed {
        ObserverSeesTheStream(sem, init);
        FlattenSnoc(chunks);
        OneMoreChunk(sem, FedAll(sem, init).0, Flatten(init), last);
      }
    }
  }

  /** The retained state is bounded under every chunking, holds no complete event, and an
      observer that lost bytes never claims complete usage. */
  lemma {:induction false} ObserverIsBounded(sem: Semantics, chunks: seq<Bytes>)
    requires FedAll(sem, chunks).1
    ensures var s := FedAll(sem, chunks).0;
      && |s.buffer| <= MAX_USAGE_EVENT_BYTES
      && Cut(s.buffer).None?
      && (s.overflowed ==> s.seen.usage.status != Complete)
    decreases |chunks|
  {
    if chunks != [] {
      var init, last := chunks[..|chunks| - 1], chunks[|chunks| - 1];
      ObserverIsBounded(sem, init);
      var s := FedAll(sem, init).0;
      ExtractMeaning(sem, s.seen, s.buffer + last);
      DrainFrames(s.buffer + last);
    }
  }

  // --------------------------------------------------- what a report says about the events

  function Fragments(sem: Semantics, events: seq<Bytes>): seq<UsageBreakdown> {
    if events == [] then []
    else
      var last := sem.extract(events[|events| - 1]);
      Fragments(sem, events[..|events| - 1]) + if last.Some? then [last.value] else []
  }

  function LastTerminal(sem: Semantics, events: seq<Bytes>): Option<FailureClass> {
    if events == [] then None
    else
      var last := sem.terminal(events[|events| - 1]);
      if last.Some? then last else LastTerminal(sem, events[..|events| - 1])
  }

  /** Usage is the merge of the fragments in stream order and the terminal outcome is that
      of the last event having one; observing raises exactly when an event is faulty or
      the fragments cannot be merged. */
  lemma {:induction false} ReportMeaning(sem: Semantics, events: seq<Bytes>)
    ensures var r := ObserveAll(sem, NOTHING, events);
      && (r.ok <==> (forall i | 0 <= i < |events| :: !sem.faulty(events[i])) && MergeAll(Fragments(sem, events)).Some?)
      && (r.ok ==> r.seen == Seen(MergeAll(Fragments(sem, events)).value, LastTerminal(sem, events)))
    decreases |events|
  {
    if events != [] {
      var init, last := events[..|events| - 1], events[|events| - 1];
      assert init + [last] == events;
      ReportMeaning(sem, init);
      ObserveConcat(sem, NOTHING, init, [last]);
      assert forall i | 0 <= i < |init| :: events[i] == init[i];
      var all := Fragments(sem, events);
      var fragment := sem.extract(last);
      if fragment.Some? {
        assert all == Fragments(sem, init) + [fragment.value];
        assert all[..|all| - 1] == Fragments(sem, init);
      } else {
        assert all == Fragments(sem, init);
      }
      ObserveLast(sem, ObserveAll(sem, NOTHING, init).seen, last);
    }
  }

  lemma ObserveLast(sem: Semantics, seen: Seen, event: Bytes)
    ensures ObserveAll(sem, seen, [event]) ==
      var next := ObserveEvent(sem, seen, event);
      if next.None? then Report(seen, false) else Report(next.value, true)
  {}
}
