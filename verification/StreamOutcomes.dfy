/** What a run of the relay reports for each protocol, told by the parsed events alone. */
module StreamOutcomes {
  import opened Prelude
  import opened HealthModels
  import opened JsonValues
  import opened Usage
  import opened Sse
  import opened StreamObserver
  import opened StreamRelay
  import opened StreamProtocols

  // ---------------------------------------------------------------------- terminal events

  /** The type of an event that parses to an object with a text for it. */
  function TypeOf(payload: Payload): Option<string> {
    if payload.Parsed? && "type" in payload.fields && payload.fields["type"].JText?
    then Some(payload.fields["type"].text) else None
  }

  /** The type of the last event that has one of these. */
  function LastTyped(parse: Parser, types: set<string>, events: seq<Bytes>): Option<string>
    decreases |events|
  {
    if events == [] then None
    else
      var last := TypeOf(parse(events[|events| - 1]));
      if last.Some? && last.value in types then last else LastTyped(parse, types, events[..|events| - 1])
  }

  lemma {:induction false} AnthropicEnds(parse: Parser, render: string -> Bytes, events: seq<Bytes>)
    ensures LastTerminal(Anthropic(parse, render), events) ==
      match LastTyped(parse, {"message_stop", "error"}, events)
      case None => None
      case Some(name) => Some(if name == "message_stop" then Success else PostCommitStreamFailure)
    decreases |events|
  {
    if events != [] {
      AnthropicEnds(parse, render, events[..|events| - 1]);
      AnthropicReads(parse, render, events[|events| - 1]);
    }
  }

  lemma {:induction false} OpenAIEnds(parse: Parser, render: string -> Bytes, events: seq<Bytes>)
    ensures LastTerminal(OpenAI(parse, render), events) ==
      match LastTyped(parse, {"response.completed", "error", "response.failed", "response.incomplete"}, events)
      case None => None
      case Some(name) => Some(if name == "response.completed" then Success else PostCommitStreamFailure)
    decreases |events|
  {
    if events != [] {
      OpenAIEnds(parse, render, events[..|events| - 1]);
      OpenAIReads(parse, render, events[|events| - 1]);
      OpenAITypes(parse(events[|events| - 1]));
    }
  }

  lemma OpenAITypes(payload: Payload)
    ensures OpenAITerminal(payload) ==
      match TypeOf(payload)
      case None => None
      case Some(name) =>
        if name == "response.completed" then Some(Success)
        else if name in {"error", "response.failed", "response.incomplete"} then Some(PostCommitStreamFailure)
        else None
  {
    assert FAILURE_TYPES[0] in FAILURE_TYPES && FAILURE_TYPES[1] in FAILURE_TYPES && FAILURE_TYPES[2] in FAILURE_TYPES;
  }

  /** Everything a stream consists of, when upstream is done. */
  function Whole(first: Bytes, remainder: Bytes, turns: seq<Turn>): seq<Bytes> {
    Head(first, remainder) + UpstreamChunks(turns, 0)
  }

  /** A run that comes to upstream's own end, none of whose events was too long. */
  ghost predicate RunsToItsEnd(sem: Semantics, first: Bytes, remainder: Bytes, turns: seq<Turn>, consumer: Consumer) {
    && FedAll(sem, Head(first, remainder)).1
    && Progressed(sem, first, remainder, turns, consumer).stop == Some(Ended)
    && !TailTooLong(Whole(first, remainder, turns))
  }

  lemma EndedOutcome(sem: Semantics, first: Bytes, remainder: Bytes, turns: seq<Turn>, consumer: Consumer)
    requires RunsToItsEnd(sem, first, remainder, turns, consumer)
    ensures TranscriptOf(sem, Progressed(sem, first, remainder, turns, consumer)).outcomes ==
      [if LastTerminal(sem, Drain(Flatten(Whole(first, remainder, turns))).0) == Some(Success)
       then Success else PostCommitStreamFailure]
  {
    SuccessExactly(sem, first, remainder, turns, consumer);
    hide FedAll, Progressed, Drain, LastTerminal, TailTooLong, UpstreamChunks;
  }

  /** An Anthropic stream that comes to its end is recorded as a success exactly when the
      last of its events that stops the message or reports an error is the former. */
  lemma AnthropicSucceedsExactly(parse: Parser, render: string -> Bytes, first: Bytes, remainder: Bytes,
                                 turns: seq<Turn>, consumer: Consumer)
    requires RunsToItsEnd(Anthropic(parse, render), first, remainder, turns, consumer)
    ensures var sem, ends := Anthropic(parse, render), {"message_stop", "error"};
      TranscriptOf(sem, Progressed(sem, first, remainder, turns, consumer)).outcomes ==
      [if LastTyped(parse, ends, Drain(Flatten(Whole(first, remainder, turns))).0) == Some("message_stop")
       then Success else PostCommitStreamFailure]
  {
    var sem := Anthropic(parse, render);
    hide FedAll, Progressed, Drain, RunsToItsEnd, Anthropic, TranscriptOf;
    EndedOutcome(sem, first, remainder, turns, consumer);
    AnthropicEnds(parse, render, Drain(Flatten(Whole(first, remainder, turns))).0);
  }

  /** An OpenAI stream, when the last of its events that completes the response or ends it
      otherwise is the former. */
  lemma OpenAISucceedsExactly(parse: Parser, render: string -> Bytes, first: Bytes, remainder: Bytes,
                              turns: seq<Turn>, consumer: Consumer)
    requires RunsToItsEnd(OpenAI(parse, render), first, remainder, turns, consumer)
    ensures var sem := OpenAI(parse, render);
      var ends := {"response.completed", "error", "response.failed", "response.incomplete"};
      TranscriptOf(sem, Progressed(sem, first, remainder, turns, consumer)).outcomes ==
      [if LastTyped(parse, ends, Drain(Flatten(Whole(first, remainder, turns))).0) == Some("response.completed")
       then Success else PostCommitStreamFailure]
  {
    var sem := OpenAI(parse, render);
    hide FedAll, Progressed, Drain, RunsToItsEnd, OpenAI, TranscriptOf;
    EndedOutcome(sem, first, remainder, turns, consumer);
    OpenAIEnds(parse, render, Drain(Flatten(Whole(first, remainder, turns))).0);
  }

  // -------------------------------------------------------------------------------- usage

  /** One reported counter; None if it is absent or not a non-negative integer. */
  function Counter(f: Fields, name: string): Option<nat> {
    if name in f && f[name].JInt? && f[name].number >= 0 then Some(f[name].number) else None
  }

  predicate Malformed(f: Fields, name: string) {
    name in f && Counter(f, name).None?
  }

  /** Which counter each field of an Anthropic usage report feeds. */
  lemma AnthropicUsageExactly(f: Fields)
    ensures var u := NormalizedAnthropic(f);
      var malformed := Malformed(f, "input_tokens") || Malformed(f, "cache_read_input_tokens")
        || Malformed(f, "cache_creation_input_tokens") || Malformed(f, "output_tokens");
      && (u.status == Invalid <==> malformed)
      && (!malformed ==>
            && u.inputUncached == Counter(f, "input_tokens")
            && u.inputCacheRead == Counter(f, "cache_read_input_tokens")
            && u.inputCacheWrite == Counter(f, "cache_creation_input_tokens")
            && u.output == Counter(f, "output_tokens")
            && u.reasoning == None
            && (u.status == Missing <==> !u.Known())
            && (u.status == Complete <==> u.inputUncached.Some? && u.output.Some?))
      && (malformed ==> !u.Known())
  {
    assert ANTHROPIC_SOURCES[0] == "input_tokens" && ANTHROPIC_SOURCES[1] == "cache_read_input_tokens";
    assert ANTHROPIC_SOURCES[2] == "cache_creation_input_tokens" && ANTHROPIC_SOURCES[3] == "output_tokens";
    forall i | 0 <= i < 4
      ensures ANTHROPIC_SOURCES[i] in ANTHROPIC_SOURCES
      ensures Token(f, ANTHROPIC_SOURCES[i]).Err? <==> Malformed(f, ANTHROPIC_SOURCES[i])
      ensures Token(f, ANTHROPIC_SOURCES[i]).Ok? ==>
                Token(f, ANTHROPIC_SOURCES[i]).value == Counter(f, ANTHROPIC_SOURCES[i])
    {}
    hide Token, Malformed, Counter;
    if forall i | 0 <= i < 4 :: Token(f, ANTHROPIC_SOURCES[i]).Ok? {
      var v := seq(4, i requires 0 <= i < 4 => Token(f, ANTHROPIC_SOURCES[i]).value);
      assert v[0] == Token(f, ANTHROPIC_SOURCES[0]).value && v[1] == Token(f, ANTHROPIC_SOURCES[1]).value;
      assert v[2] == Token(f, ANTHROPIC_SOURCES[2]).value && v[3] == Token(f, ANTHROPIC_SOURCES[3]).value;
    }
  }

  function Nested(f: Fields, k: string): Fields {
    if k in f && f[k].JObject? then f[k].fields else map[]
  }

  /** Which counter each field of an OpenAI usage report feeds: cached input is part of the
      reported input and reasoning part of the output, or the report is invalid. */
  lemma OpenAIUsageExactly(f: Fields)
    ensures var u := NormalizedOpenAI(f);
      var input, output := Counter(f, "input_tokens"), Counter(f, "output_tokens");
      var cached := Counter(Nested(f, "input_tokens_details"), "cached_tokens");
      var reasoning := Counter(Nested(f, "output_tokens_details"), "reasoning_tokens");
      var malformed := Malformed(f, "input_tokens") || Malformed(f, "output_tokens")
        || Malformed(Nested(f, "input_tokens_details"), "cached_tokens")
        || Malformed(Nested(f, "output_tokens_details"), "reasoning_tokens")
        || (input.Some? && cached.Some? && cached.value > input.value)
        || (output.Some? && reasoning.Some? && reasoning.value > output.value);
      && (u.status == Invalid <==> malformed)
      && (!malformed ==>
            && u.inputUncached == (if input.Some? && cached.Some? then Some(input.value - cached.value) else input)
            && u.inputCacheRead == cached && u.inputCacheWrite == None
            && u.output == output && u.reasoning == reasoning
            && (u.status == Missing <==> !u.Known())
            && (u.status == Complete <==> input.Some? && output.Some?))
      && (malformed ==> !u.Known())
  {}

  /** Where the two protocols look for it. */
  lemma UsageIsFoundExactly(parse: Parser, render: string -> Bytes, e: Bytes)
    requires parse(e).Parsed?
    ensures var f := parse(e).fields;
      var inMessage := if "message" in f && f["message"].JObject? then f["message"].fields else f;
      Anthropic(parse, render).extract(e) ==
        if "usage" in inMessage && inMessage["usage"].JObject?
        then Some(NormalizedAnthropic(inMessage["usage"].fields)) else None
    ensures var f := parse(e).fields;
      OpenAI(parse, render).extract(e) ==
        if TypeOf(parse(e)) == Some("response.completed") && "usage" in Nested(f, "response")
           && Nested(f, "response")["usage"].JObject?
        then Some(NormalizedOpenAI(Nested(f, "response")["usage"].fields)) else None
  {
    AnthropicReads(parse, render, e);
    OpenAIReads(parse, render, e);
  }

  // -------------------------------------------------------------------------- completion

  /** What the future is settled with, read off the event that ended the run: the consumer's
      last move, or upstream's next pull, and then the terminal event seen. */
  function StatsAt(left: bool, pull: Pull, seen: Seen): Stats {
    if left then Stats("cancelled", Some("router_cancelled"), None)
    else match pull
      case PullCancelled => Stats("cancelled", Some("router_cancelled"), None)
      case PullRaised(error) => Stats("error", Some(error.code), None)
      case PastDeadline => Stats("error", Some("router_timeout"), None)
      case PullBroke => Stats("error", Some("router_upstream_read_failed"), None)
      case Chunk(_) => Stats("error", Some("router_upstream_read_failed"), None)
      case EndOfStream =>
        match seen.terminal
        case Some(Success) => Stats("success", None, Some(seen.usage))
        case Some(PostCommitStreamFailure) => Stats("error", Some("router_upstream_stream_error"), Some(seen.usage))
        case _ => Stats("error", Some("router_upstream_incomplete_stream"), None)
  }

  /** The error the client is shown: none if it left, if upstream ended with a terminal event
      of its own, and else the one reported; but if the future was cancelled, settling it
      after a terminal event shows a read failure. */
  function ShownError(stats: Stats, abandoned: bool): Option<string> {
    if stats.usage.Some? then (if abandoned then Some("router_upstream_read_failed") else None)
    else if stats.status == "cancelled" then None
    else stats.errorCode
  }

  /** How a run that is over is reported to whoever awaits it, and to the client. */
  lemma CompletionExactly(sem: Semantics, first: Bytes, remainder: Bytes, turns: seq<Turn>, consumer: Consumer)
    requires Progressed(sem, first, remainder, turns, consumer).stop.Some?
    ensures var p := Progressed(sem, first, remainder, turns, consumer);
      var t := TranscriptOf(sem, p);
      var left, n := LeftAtYield(consumer, 0, p.sent), |p.sent| - |Head(first, remainder)|;
      && (left || 0 <= n < |turns|)
      && var stats := StatsAt(left, if left then PullCancelled else turns[n].pull, p.observer.seen);
         && t.completion == (if p.abandoned then Abandoned else Settled(stats))
         && t.sent == p.sent + (
              if ShownError(stats, p.abandoned).Some? then [sem.render(ShownError(stats, p.abandoned).value)] else [])
  {
    hide Progressed, AbandonedWithin;
    var pulls := RunFollowsScript(sem, first, remainder, turns, consumer);
  }

  /** The usage reported for a run that comes to its end is, counter by counter, the latest
      value reported by any event of the stream since the last invalid report. */
  lemma UsageOfRunExactly(sem: Semantics, first: Bytes, remainder: Bytes, turns: seq<Turn>, consumer: Consumer)
    requires RunsToItsEnd(sem, first, remainder, turns, consumer)
    ensures Progressed(sem, first, remainder, turns, consumer).observer.seen.usage
      == Summary(Fragments(sem, Drain(Flatten(Whole(first, remainder, turns))).0))
  {
    var p := Progressed(sem, first, remainder, turns, consumer);
    RelayIsTransparent(sem, first, remainder, turns, consumer);
    hide Progressed, FedAll, Drain, Fragments, UpstreamChunks;
    var events := Drain(Flatten(p.sent)).0;
    OverflowExactly(sem, p.sent);
    ObserverSeesTheStream(sem, p.sent);
    ReportMeaning(sem, events);
    MergeAllMeaning(Fragments(sem, events));
  }

  /** A chunk after which more than the bound is left of one event drops it: usage keeps its
      counters, but from then on counts as partial, unless it was invalid. */
  lemma OverflowDegrades(sem: Semantics, s: Observer, chunk: Bytes)
    requires Fed(sem, s, chunk).1 && |Extract(sem, s.seen, s.buffer + chunk).rest| > 4 * 1024 * 1024
    ensures var before, after := Extract(sem, s.seen, s.buffer + chunk).seen, Fed(sem, s, chunk).0;
      && after.overflowed && after.buffer == [] && after.seen.terminal == before.terminal
      && after.seen.usage == (if before.usage.status == Invalid then before.usage else before.usage.(status := Partial))
  {}
}
