/** The two protocols' readings of stream events (execution/stream_semantics.py). */
module StreamProtocols {
  import opened Prelude
  import opened HealthModels
  import opened JsonValues
  import opened Usage
  import opened Sse
  import opened StreamObserver
  import opened StreamRelay
  import opened Serving

  /** What reading an event's data lines as JSON yields: an error that its callers catch;
      JSON other than an object, which raises an error that none of them catches, as does
      nesting too deep for the parser, counted here; or an object. */
  datatype Payload = Unparsable | NotAnObject | Parsed(fields: Fields)

  type Parser = Bytes -> Payload

  /** `mapping.get(key)`; None also for null, which no caller tells apart. */
  function Get(f: Fields, k: string): Option<Json> {
    if k in f && !f[k].JNull? then Some(f[k]) else None
  }

  function GetObject(f: Fields, k: string): Option<Fields> {
    if k in f && f[k].JObject? then Some(f[k].fields) else None
  }

  function IsType(f: Fields, name: string): bool {
    Get(f, "type") == Some(JText(name))
  }

  /** Python cannot look a list or a mapping up in a set. */
  predicate Unhashable(f: Fields) {
    "type" in f && (f["type"].JArray? || f["type"].JObject?)
  }

  /** Both protocols accept a first event just if its payload is an object. */
  function Validate(payload: Payload): Validation {
    match payload
    case Unparsable => InvalidEvent
    case NotAnObject => ValidationCrashed
    case Parsed(_) => Accepted
  }

  // ------------------------------------------------------------------------ Anthropic

  function AnthropicUsage(payload: Payload): Option<UsageBreakdown> {
    if !payload.Parsed? then None
    else
      var message := GetObject(payload.fields, "message");
      var usage := if message.Some? then GetObject(message.value, "usage") else GetObject(payload.fields, "usage");
      if usage.None? then None else Some(NormalizedAnthropic(usage.value))
  }

  function AnthropicTerminal(payload: Payload): Option<FailureClass> {
    if !payload.Parsed? then None
    else if IsType(payload.fields, "message_stop") then Some(Success)
    else if IsType(payload.fields, "error") then Some(PostCommitStreamFailure)
    else None
  }

  function Anthropic(parse: Parser, render: string -> Bytes): Semantics {
    Semantics(
      e => AnthropicUsage(parse(e)),
      e => AnthropicTerminal(parse(e)),
      e => parse(e).NotAnObject?,
      e => Validate(parse(e)),
      render)
  }

  // --------------------------------------------------------------------------- OpenAI

  const FAILURE_TYPES := ["error", "response.failed", "response.incomplete"]

  function OpenAIUsage(payload: Payload): Option<UsageBreakdown> {
    if !payload.Parsed? || !IsType(payload.fields, "response.completed") then None
    else
      var response := GetObject(payload.fields, "response");
      var usage := if response.Some? then GetObject(response.value, "usage") else None;
      if usage.None? then None else Some(NormalizedOpenAI(usage.value))
  }

  function OpenAITerminal(payload: Payload): Option<FailureClass> {
    if !payload.Parsed? then None
    else if IsType(payload.fields, "response.completed") then Some(Success)
    else if exists name | name in FAILURE_TYPES :: IsType(payload.fields, name) then Some(PostCommitStreamFailure)
    else None
  }

  function OpenAI(parse: Parser, render: string -> Bytes): Semantics {
    Semantics(
      e => OpenAIUsage(parse(e)),
      e => OpenAITerminal(parse(e)),
      e => parse(e).NotAnObject? || (parse(e).Parsed? && Unhashable(parse(e).fields)),
      e => Validate(parse(e)),
      render)
  }

  // ------------------------------------------------------------------------- theorems

  lemma AnthropicReads(parse: Parser, render: string -> Bytes, e: Bytes)
    ensures var sem := Anthropic(parse, render);
      && sem.extract(e) == AnthropicUsage(parse(e))
      && sem.terminal(e) == AnthropicTerminal(parse(e))
      && (sem.faulty(e) <==> parse(e).NotAnObject?)
      && (sem.validate(e) == Accepted <==> parse(e).Parsed?)
  {}

  lemma OpenAIReads(parse: Parser, render: string -> Bytes, e: Bytes)
    ensures var sem := OpenAI(parse, render);
      && sem.extract(e) == OpenAIUsage(parse(e))
      && sem.terminal(e) == OpenAITerminal(parse(e))
      && (sem.faulty(e) <==> parse(e).NotAnObject? || (parse(e).Parsed? && Unhashable(parse(e).fields)))
      && (sem.validate(e) == Accepted <==> parse(e).Parsed?)
  {}

  lemma FragmentsAreBuilt(parse: Parser, render: string -> Bytes)
    ensures Built(Anthropic(parse, render)) && Built(OpenAI(parse, render))
  {
    forall e
      ensures Anthropic(parse, render).extract(e).Some? ==> Anthropic(parse, render).extract(e).value.Consistent()
      ensures OpenAI(parse, render).extract(e).Some? ==> OpenAI(parse, render).extract(e).value.Consistent()
    {
      AnthropicReads(parse, render, e);
      OpenAIReads(parse, render, e);
      UsageIsBuilt(parse(e));
    }
  }

  lemma UsageIsBuilt(payload: Payload)
    ensures AnthropicUsage(payload).Some? ==>
      AnthropicUsage(payload).value.Consistent() && AnthropicUsage(payload).value.reasoning == None
    ensures OpenAIUsage(payload).Some? ==> OpenAIUsage(payload).value.Consistent()
  {
    forall f: Fields
      ensures NormalizedAnthropic(f).Consistent() && NormalizedOpenAI(f).Consistent()
    {
      NormalizationMeaning(f);
    }
  }

  /** Every event that may come first can be observed. */
  ghost predicate Lawful(sem: Semantics) {
    forall e | sem.validate(e) == Accepted :: !sem.faulty(e)
  }

  lemma AnthropicIsLawful(parse: Parser, render: string -> Bytes)
    ensures Lawful(Anthropic(parse, render))
  {
    forall e
      ensures Anthropic(parse, render).validate(e) == Accepted ==> !Anthropic(parse, render).faulty(e)
    {
      AnthropicReads(parse, render, e);
    }
  }

  /** In Anthropic streams the accepted first event can always be observed. */
  lemma AnthropicFirstEventIsObserved(parse: Parser, render: string -> Bytes, first: Bytes)
    requires Anthropic(parse, render).validate(first) == Accepted && IsEvent(first)
    ensures FedAll(Anthropic(parse, render), [first]).1
  {
    FragmentsAreBuilt(parse, render);
    AnthropicReads(parse, render, first);
    FirstEventIsObservedExactly(Anthropic(parse, render), first);
  }

  /** In OpenAI streams it can be observed exactly when its type is no list and no mapping. */
  lemma OpenAIFirstEventIsObservedExactly(parse: Parser, render: string -> Bytes, first: Bytes)
    requires OpenAI(parse, render).validate(first) == Accepted && IsEvent(first)
    ensures parse(first).Parsed?
    ensures FedAll(OpenAI(parse, render), [first]).1 <==> !Unhashable(parse(first).fields)
  {
    FragmentsAreBuilt(parse, render);
    OpenAIReads(parse, render, first);
    FirstEventIsObservedExactly(OpenAI(parse, render), first);
  }

  /** So OpenAI's reading is lawful exactly when no event at all parses to such an object. */
  lemma OpenAIIsLawfulExactly(parse: Parser, render: string -> Bytes)
    ensures Lawful(OpenAI(parse, render)) <==> forall e | parse(e).Parsed? :: !Unhashable(parse(e).fields)
  {
    var sem := OpenAI(parse, render);
    forall e | parse(e).Parsed?
      ensures sem.validate(e) == Accepted && (sem.faulty(e) <==> Unhashable(parse(e).fields))
    {
      OpenAIReads(parse, render, e);
    }
    forall e | sem.validate(e) == Accepted
      ensures parse(e).Parsed?
    {
      OpenAIReads(parse, render, e);
    }
  }

  lemma {:induction false} AnthropicFragments(parse: Parser, render: string -> Bytes, events: seq<Bytes>)
    ensures forall u | u in Fragments(Anthropic(parse, render), events) :: u.reasoning == None
    decreases |events|
  {
    if events != [] {
      AnthropicFragments(parse, render, events[..|events| - 1]);
      AnthropicReads(parse, render, events[|events| - 1]);
      UsageIsBuilt(parse(events[|events| - 1]));
    }
  }

  lemma {:induction false} UnreasonedMerge(fragments: seq<UsageBreakdown>)
    requires forall u | u in fragments :: u.reasoning == None
    ensures MergeAll(fragments).Some? && MergeAll(fragments).value.reasoning == None
    decreases |fragments|
  {
    if fragments != [] {
      UnreasonedMerge(fragments[..|fragments| - 1]);
    }
  }

  /** Observing what was read before the commit of an Anthropic stream raises exactly when
      one of its complete events is JSON other than an object; merging never does. */
  lemma AnthropicHeadIsObservedExactly(parse: Parser, render: string -> Bytes, first: Bytes, remainder: Bytes)
    requires IsEvent(first)
    ensures FedAll(Anthropic(parse, render), Head(first, remainder)).1 <==>
      forall e | e in Drain(first + remainder).0 :: !parse(e).NotAnObject?
  {
    var sem, events := Anthropic(parse, render), Drain(first + remainder).0;
    ObservableExactly(sem, first, remainder);
    AnthropicFragments(parse, render, events);
    UnreasonedMerge(Fragments(sem, events));
    hide FedAll, Drain, Fragments;
  }

  /** For an OpenAI stream, when one of them is that or has a list or a mapping for its
      type, or when the usage of its completed responses cannot be merged. */
  lemma OpenAIHeadIsObservedExactly(parse: Parser, render: string -> Bytes, first: Bytes, remainder: Bytes)
    requires IsEvent(first)
    ensures var events := Drain(first + remainder).0;
      FedAll(OpenAI(parse, render), Head(first, remainder)).1 <==>
        && (forall e | e in events :: !parse(e).NotAnObject? && (parse(e).Parsed? ==> !Unhashable(parse(e).fields)))
        && Mergeable(Fragments(OpenAI(parse, render), events))
  {
    var sem, events := OpenAI(parse, render), Drain(first + remainder).0;
    ObservableExactly(sem, first, remainder);
    MergeAllMeaning(Fragments(sem, events));
    hide FedAll, Drain, Fragments;
  }
}
