/** Streams of the two protocols that show what the relay does not promise. */
module StreamExamples {
  import opened Prelude
  import opened Domain
  import opened HealthModels
  import opened JsonValues
  import opened Sse
  import opened StreamObserver
  import opened FirstEvent
  import opened StreamRelay
  import opened Attempts
  import opened Execution
  import opened Serving
  import opened StreamProtocols

  // data: {}
  function Plain(): Bytes {
    [100, 97, 116, 97, 58, 32, 123, 125, 10, 10]
  }

  // data: []
  function Listed(): Bytes {
    [100, 97, 116, 97, 58, 32, 91, 93, 10, 10]
  }

  // data: {"type":"message_stop"}
  function Stopping(): Bytes {
    [100, 97, 116, 97, 58, 32, 123, 34, 116, 121, 112, 101, 34, 58, 34, 109, 101, 115, 115, 97, 103, 101,
     95, 115, 116, 111, 112, 34, 125, 10, 10]
  }

  // data: {"type":[]}
  function Odd(): Bytes {
    [100, 97, 116, 97, 58, 32, 123, 34, 116, 121, 112, 101, 34, 58, 91, 93, 125, 10, 10]
  }

  /** JSON parsing, as far as these four go. */
  function Parse(event: Bytes): Payload {
    if event == Plain() then Parsed(map[])
    else if event == Listed() then NotAnObject
    else if event == Stopping() then Parsed(map["type" := JText("message_stop")])
    else if event == Odd() then Parsed(map["type" := JArray([])])
    else Unparsable
  }

  function Render(code: string): Bytes {
    Plain()
  }

  const ANTHROPIC := Anthropic(Parse, Render)
  const OPENAI := OpenAI(Parse, Render)

  /** Its only line breaks are the two at its end. */
  lemma OneEvent(b: Bytes)
    requires |b| >= 2 && b[|b| - 2] == LF && b[|b| - 1] == LF
    requires forall i | 0 <= i < |b| - 2 :: b[i] != LF
    ensures IsEvent(b)
  {
    CutIsEarliestEnd(b);
    assert EndsAt(b, |b|);
    assert forall e | 0 <= e < |b| :: !EndsAt(b, e);
  }

  lemma PlainIsEvent()
    ensures IsEvent(Plain()) && !Blank(Plain())
  {
    OneEvent(Plain());
    assert Plain()[0] !in WHITESPACE;
  }

  lemma OddIsEvent()
    ensures IsEvent(Odd()) && !Blank(Odd())
  {
    OneEvent(Odd());
    assert Odd()[0] !in WHITESPACE;
  }

  lemma ListedIsEvent()
    ensures IsEvent(Listed())
  {
    OneEvent(Listed());
  }

  lemma StoppingIsEvent()
    ensures IsEvent(Stopping())
  {
    OneEvent(Stopping());
  }

  lemma TheyParse()
    ensures Parse(Plain()) == Parsed(map[]) && Parse(Listed()) == NotAnObject
    ensures Parse(Stopping()) == Parsed(map["type" := JText("message_stop")])
    ensures Parse(Odd()) == Parsed(map["type" := JArray([])])
  {
    assert |Plain()| == |Listed()| == 10 && Plain()[6] != Listed()[6] && |Stopping()| == 31 && |Odd()| == 19;
  }

  // ------------------------------------------------------- success, and then an error event

  const STAYS: Consumer := (nth: nat) => Move(false, Resume)

  /** An Anthropic stream of its last event only, whose future is cancelled while the end is
      awaited: success is recorded, nothing is left to settle, and the client gets an error
      event. */
  lemma SuccessIsFollowedByAnError()
    ensures FedAll(ANTHROPIC, Head(Stopping(), [])).1
    ensures TranscriptOf(ANTHROPIC, Progressed(ANTHROPIC, Stopping(), [], [Turn(true, EndOfStream)], STAYS))
      == Transcript([Stopping(), ANTHROPIC.render(READ_FAILED)], [Success], Abandoned, 1)
  {
    StoppingIsEvent();
    TheyParse();
    hide Stopping, Parse, FedAll, Anthropic;
    assert AnthropicTerminal(Parsed(map["type" := JText("message_stop")])) == Some(Success);
    hide AnthropicTerminal;
    OneTerminalEvent(Parse, Render, Stopping());
    AbandonedAtTheEnd(ANTHROPIC, Stopping());
  }

  lemma OneTerminalEvent(parse: Parser, render: string -> Bytes, event: Bytes)
    requires IsEvent(event) && parse(event).Parsed? && AnthropicTerminal(parse(event)) == Some(Success)
    ensures FedAll(Anthropic(parse, render), [event]).1
    ensures FedAll(Anthropic(parse, render), [event]).0.seen.terminal == Some(Success)
  {
    var sem := Anthropic(parse, render);
    AnthropicReads(parse, render, event);
    AnthropicFirstEventIsObserved(parse, render, event);
    FedFirst(sem, event);
    ObserverSeesTheStream(sem, [event]);
    FlattenOne(event);
    hide FedAll, Anthropic, AnthropicTerminal;
    ReportMeaning(sem, [event]);
    assert event + [] == event;
    DrainedIs(event, [event], []);
    hide Drain;
    assert [event][..0] == [];
  }

  lemma AbandonedAtTheEnd(sem: Semantics, event: Bytes)
    requires FedAll(sem, [event]).1 && FedAll(sem, [event]).0.seen.terminal == Some(Success)
    ensures FedAll(sem, Head(event, [])).1
    ensures TranscriptOf(sem, Progressed(sem, event, [], [Turn(true, EndOfStream)], STAYS))
      == Transcript([event, sem.render(READ_FAILED)], [Success], Abandoned, 1)
  {
    hide FedAll;
    assert Flow(sem, FedAll(sem, [event]).0, [Turn(true, EndOfStream)], 0, STAYS, 1, false)
      == Progress([], FedAll(sem, [event]).0, true, Some(Ended));
  }

  // --------------------------------------------------------------------- heads that raise

  const ENGINE := Engine({"p"}, map[AnthropicMessages := ANTHROPIC, OpenAIResponses := OPENAI])

  function Target(protocol: Protocol): ModelTarget {
    ModelTarget("m", "p", "u", Fast, {}, 1, None, None, protocol, None)
  }

  /** A streamed answer whose body is one chunk. */
  function Streamed(bytes: Bytes): Answer {
    Opened(200, None, true, Reads(Body([bytes], EndOfBody)), JsonBroke)
  }

  /** The engine commits this stream on its first event, and yet its relay never runs,
      however it is entered: by StreamLeaseIsRecordedExactly nothing ever records its lease. */
  ghost predicate CommittedButNeverRelayed(protocol: Protocol, first: Bytes, remainder: Bytes) {
    var target, envelope, opening := Target(protocol), Envelope(true, protocol), Opening(first, remainder);
    && Judge(ENGINE, envelope, target, Streamed(first + remainder)) == HandedOver(opening, 1)
    && forall d: Delivery :: !Runs(ENGINE, envelope, CommittedStream(target, opening, 1), d)
  }

  /** A valid first event that arrived in one chunk with an event whose data is no object. */
  lemma ARemainderRaises()
    ensures CommittedButNeverRelayed(AnthropicMessages, Plain(), Listed())
  {
    PlainIsEvent();
    ListedIsEvent();
    TheyParse();
    hide Plain, Listed, Parse;
    TwoAreDrained(Plain(), Listed());
    AnthropicReads(Parse, Render, Plain());
    assert Listed() == [Plain(), Listed()][1];
    AnthropicHeadIsObservedExactly(Parse, Render, Plain(), Listed());
    NeverRelayed(AnthropicMessages, Plain(), Listed());
  }

  /** A first event that OpenAI's validation accepts, although its type is a list. */
  lemma AnAcceptedFirstEventRaises()
    ensures OPENAI.validate(Odd()) == Accepted
    ensures CommittedButNeverRelayed(OpenAIResponses, Odd(), [])
  {
    OddIsEvent();
    TheyParse();
    hide Odd, Parse;
    OpenAIReads(Parse, Render, Odd());
    OpenAIFirstEventIsObservedExactly(Parse, Render, Odd());
    NeverRelayed(OpenAIResponses, Odd(), []);
  }

  lemma NeverRelayed(protocol: Protocol, first: Bytes, remainder: Bytes)
    requires IsEvent(first) && !Blank(first) && ENGINE.semantics[protocol].validate(first) == Accepted
    requires !FedAll(ENGINE.semantics[protocol], Head(first, remainder)).1
    ensures CommittedButNeverRelayed(protocol, first, remainder)
  {
    hide FedAll, Anthropic, OpenAI;
    assert OpeningOf(first, remainder) by { OnlyOpening(first, remainder); }
  }

  ghost predicate OpeningOf(first: Bytes, remainder: Bytes) {
    FirstOpening(Body([first + remainder], EndOfBody), 0) == Ok((Opening(first, remainder), 1))
  }

  lemma OnlyOpening(first: Bytes, remainder: Bytes)
    requires IsEvent(first) && !Blank(first)
    ensures OpeningOf(first, remainder)
  {
    var body := Body([first + remainder], EndOfBody);
    assert body.chunks[..0] == [] && body.chunks[..1] == body.chunks;
    FlattenOne(first + remainder);
    CutIsStable(first, remainder);
    assert (first + remainder)[..|first|] == first && (first + remainder)[|first|..] == remainder;
    assert FirstOpening(body, 0) == FirstOpening(body, 1) == Ok((Opening(first, remainder), 1));
  }

  lemma TwoAreDrained(first: Bytes, second: Bytes)
    requires IsEvent(first) && IsEvent(second)
    ensures Drain(first + second).0 == [first, second]
  {
    assert Flatten([first, second]) == first + second by {
      FlattenConcat([first], [second]);
      FlattenOne(first);
      FlattenOne(second);
      assert [first] + [second] == [first, second];
    }
    assert first + second + [] == first + second;
    DrainedIs(first + second, [first, second], []);
  }
}
