/** JSON values in canonical form: objects are maps, so key order is immaterial. */
module JsonValues {
  import opened Prelude
  import opened Domain
  import opened HealthModels

  datatype Json =
    | JNull
    | JBool(flag: bool)
    | JInt(number: int)
    | JReal(amount: real)
    | JText(text: string)
    | JInstant(at: Time)  // the RFC 3339 UTC text of an instant
    | JArray(items: seq<Json>)
    | JObject(fields: map<string, Json>)

  type Fields = map<string, Json>

  datatype CodecError = Incompatible | HashInvalid | TooLarge

  // ------------------------------------------------------------ field accessors

  function ObjectOf(j: Json): Result<Fields, CodecError> {
    if j.JObject? then Ok(j.fields) else Err(Incompatible)
  }

  /** Reject missing and unknown fields. */
  function CheckedObject(j: Json, keys: set<string>): Result<Fields, CodecError> {
    if j.JObject? && j.fields.Keys == keys then Ok(j.fields) else Err(Incompatible)
  }

  function Text(f: Fields, k: string): Result<string, CodecError> {
    if k in f && f[k].JText? then Ok(f[k].text) else Err(Incompatible)
  }

  function Integer(f: Fields, k: string): Result<int, CodecError> {
    if k in f && f[k].JInt? then Ok(f[k].number) else Err(Incompatible)
  }

  function Natural(f: Fields, k: string): Result<nat, CodecError> {
    if k in f && f[k].JInt? && f[k].number >= 0 then Ok(f[k].number) else Err(Incompatible)
  }

  function Real(f: Fields, k: string): Result<real, CodecError> {
    if k in f && f[k].JReal? then Ok(f[k].amount) else Err(Incompatible)
  }

  function Flag(f: Fields, k: string): Result<bool, CodecError> {
    if k in f && f[k].JBool? then Ok(f[k].flag) else Err(Incompatible)
  }

  function Items(f: Fields, k: string): Result<seq<Json>, CodecError> {
    if k in f && f[k].JArray? then Ok(f[k].items) else Err(Incompatible)
  }

  function Object(f: Fields, k: string): Result<Fields, CodecError> {
    if k in f then ObjectOf(f[k]) else Err(Incompatible)
  }

  function Instant(f: Fields, k: string): Result<Time, CodecError> {
    if k in f && f[k].JInstant? then Ok(f[k].at) else Err(Incompatible)
  }

  function FromOptionalText(o: Option<string>): Json { if o.Some? then JText(o.value) else JNull }
  function FromOptionalReal(o: Option<real>): Json { if o.Some? then JReal(o.value) else JNull }
  function FromOptionalInstant(o: Option<Time>): Json { if o.Some? then JInstant(o.value) else JNull }

  /** Absent and null both read as None. */
  function OptionalText(f: Fields, k: string): Result<Option<string>, CodecError> {
    if k !in f || f[k].JNull? then Ok(None) else if f[k].JText? then Ok(Some(f[k].text)) else Err(Incompatible)
  }

  function OptionalReal(f: Fields, k: string): Result<Option<real>, CodecError> {
    if k !in f || f[k].JNull? then Ok(None) else if f[k].JReal? then Ok(Some(f[k].amount)) else Err(Incompatible)
  }

  function OptionalInstant(f: Fields, k: string): Result<Option<Time>, CodecError> {
    if k !in f || f[k].JNull? then Ok(None) else if f[k].JInstant? then Ok(Some(f[k].at)) else Err(Incompatible)
  }

  // ---------------------------------------------------------------- enumerations

  function CapabilityText(c: Capability): string {
    match c
    case Streaming => "streaming"
    case Tools => "tools"
    case Thinking => "thinking"
    case Vision => "vision"
    case PromptCache => "prompt_cache"
    case Reasoning => "reasoning"
    case StructuredOutput => "structured_output"
    case ResponseState => "response_state"
    case ProviderManagedTools => "provider_managed_tools"
  }

  /** All capabilities, sorted by their text. */
  const CAPABILITIES := [
    PromptCache, ProviderManagedTools, Reasoning, ResponseState, Streaming, StructuredOutput, Thinking, Tools, Vision]

  function ParseCapability(s: string): Result<Capability, CodecError> {
    if s == "streaming" then Ok(Streaming)
    else if s == "tools" then Ok(Tools)
    else if s == "thinking" then Ok(Thinking)
    else if s == "vision" then Ok(Vision)
    else if s == "prompt_cache" then Ok(PromptCache)
    else if s == "reasoning" then Ok(Reasoning)
    else if s == "structured_output" then Ok(StructuredOutput)
    else if s == "response_state" then Ok(ResponseState)
    else if s == "provider_managed_tools" then Ok(ProviderManagedTools)
    else Err(Incompatible)
  }

  function ProtocolText(p: Protocol): string {
    match p
    case AnthropicMessages => "anthropic_messages"
    case OpenAIResponses => "openai_responses"
  }

  function ParseProtocol(s: string): Result<Protocol, CodecError> {
    if s == "anthropic_messages" then Ok(AnthropicMessages)
    else if s == "openai_responses" then Ok(OpenAIResponses)
    else Err(Incompatible)
  }

  function TierText(t: Tier): string {
    match t
    case Fast => "fast"
    case Balanced => "balanced"
    case Deep => "deep"
  }

  function ParseTier(s: string): Result<Tier, CodecError> {
    if s == "fast" then Ok(Fast)
    else if s == "balanced" then Ok(Balanced)
    else if s == "deep" then Ok(Deep)
    else Err(Incompatible)
  }

  function SignalText(o: OutcomeSignal): string {
    match o
    case SignalSuccess => "success"
    case SignalFailure => "failure"
    case SignalUnknown => "unknown"
  }

  function ParseSignal(s: string): Result<OutcomeSignal, CodecError> {
    if s == "success" then Ok(SignalSuccess)
    else if s == "failure" then Ok(SignalFailure)
    else if s == "unknown" then Ok(SignalUnknown)
    else Err(Incompatible)
  }

  function StateText(s: HealthState): string {
    match s
    case Healthy => "healthy"
    case Cooldown => "cooldown"
    case HalfOpen => "half_open"
    case Blocked => "blocked"
  }

  function ParseState(s: string): Result<HealthState, CodecError> {
    if s == "healthy" then Ok(Healthy)
    else if s == "cooldown" then Ok(Cooldown)
    else if s == "half_open" then Ok(HalfOpen)
    else if s == "blocked" then Ok(Blocked)
    else Err(Incompatible)
  }

  function ReasonText(r: AvailabilityReason): string {
    match r
    case ReasonHealthy => "healthy"
    case ReasonProviderCooldown => "provider_cooldown"
    case ReasonTargetCooldown => "target_cooldown"
    case ReasonProviderBlocked => "provider_blocked"
    case ReasonTargetBlocked => "target_blocked"
    case ReasonProbeEligible => "probe_eligible"
  }

  function ParseReason(s: string): Result<AvailabilityReason, CodecError> {
    if s == "healthy" then Ok(ReasonHealthy)
    else if s == "provider_cooldown" then Ok(ReasonProviderCooldown)
    else if s == "target_cooldown" then Ok(ReasonTargetCooldown)
    else if s == "provider_blocked" then Ok(ReasonProviderBlocked)
    else if s == "target_blocked" then Ok(ReasonTargetBlocked)
    else if s == "probe_eligible" then Ok(ReasonProbeEligible)
    else Err(Incompatible)
  }

  function ScopeText(s: FailureScope): string {
    match s
    case ProviderScope => "provider"
    case TargetScope => "target"
  }

  function ParseScope(s: string): Result<FailureScope, CodecError> {
    if s == "provider" then Ok(ProviderScope) else if s == "target" then Ok(TargetScope) else Err(Incompatible)
  }

  // --------------------------------------------------------------- sets and lists

  /** The members of a set that occur in a list, in the list's order. */
  function PickCapabilities(all: seq<Capability>, chosen: set<Capability>): seq<Json> {
    if all == [] then []
    else (if all[0] in chosen then [JText(CapabilityText(all[0]))] else []) + PickCapabilities(all[1..], chosen)
  }

  /** sorted(item.value for item in capabilities) */
  function EncodeCapabilities(chosen: set<Capability>): Json {
    JArray(PickCapabilities(CAPABILITIES, chosen))
  }

  function DecodeCapabilities(items: seq<Json>): Result<set<Capability>, CodecError> {
    if items == [] then Ok({})
    else if !items[0].JText? then Err(Incompatible)
    else
      var first :- ParseCapability(items[0].text);
      var rest :- DecodeCapabilities(items[1..]);
      Ok({first} + rest)
  }

  lemma {:induction false} PickDecodes(all: seq<Capability>, chosen: set<Capability>)
    ensures DecodeCapabilities(PickCapabilities(all, chosen)) == Ok(set c | c in chosen && c in all)
  {
    if all != [] {
      PickDecodes(all[1..], chosen);
      var rest := PickCapabilities(all[1..], chosen);
      var c := all[0];
      assert all == [c] + all[1..];
      if c in chosen {
        assert PickCapabilities(all, chosen)[1..] == rest;
        assert ParseCapability(CapabilityText(c)) == Ok(c);
        assert {c} + (set d | d in chosen && d in all[1..]) == (set d | d in chosen && d in all);
      } else {
        assert PickCapabilities(all, chosen) == rest;
        assert (set d | d in chosen && d in all[1..]) == (set d | d in chosen && d in all);
      }
    } else {
      assert (set c | c in chosen && c in all) == {};
    }
  }

  lemma CapabilitiesRoundTrip(chosen: set<Capability>)
    ensures DecodeCapabilities(EncodeCapabilities(chosen).items) == Ok(chosen)
  {
    PickDecodes(CAPABILITIES, chosen);
    assert CAPABILITIES[0] == PromptCache && CAPABILITIES[1] == ProviderManagedTools && CAPABILITIES[2] == Reasoning
        && CAPABILITIES[3] == ResponseState && CAPABILITIES[4] == Streaming && CAPABILITIES[5] == StructuredOutput
        && CAPABILITIES[6] == Thinking && CAPABILITIES[7] == Tools && CAPABILITIES[8] == Vision;
    forall c: Capability
      ensures c in CAPABILITIES
    {
      match c
      case Streaming => case Tools => case Thinking => case Vision => case PromptCache => case Reasoning =>
      case StructuredOutput => case ResponseState => case ProviderManagedTools =>
    }
    assert (set c | c in chosen && c in CAPABILITIES) == chosen;
  }

  function EncodeTexts(xs: seq<string>): seq<Json> {
    seq(|xs|, i requires 0 <= i < |xs| => JText(xs[i]))
  }

  function DecodeTexts(items: seq<Json>): Result<seq<string>, CodecError> {
    if items == [] then Ok([])
    else if !items[0].JText? then Err(Incompatible)
    else
      var rest :- DecodeTexts(items[1..]);
      Ok([items[0].text] + rest)
  }

  lemma {:induction false} TextsRoundTrip(xs: seq<string>)
    ensures DecodeTexts(EncodeTexts(xs)) == Ok(xs)
  {
    if xs != [] {
      TextsRoundTrip(xs[1..]);
      assert EncodeTexts(xs)[1..] == EncodeTexts(xs[1..]);
      assert xs == [xs[0]] + xs[1..];
    }
  }

  // ------------------------------------------------------------ enumerated fields

  function CapabilitiesField(f: Fields, k: string): Result<set<Capability>, CodecError> {
    var items :- Items(f, k);
    DecodeCapabilities(items)
  }

  function TierField(f: Fields, k: string): Result<Tier, CodecError> {
    var text :- Text(f, k);
    ParseTier(text)
  }

  function ProtocolField(f: Fields, k: string): Result<Protocol, CodecError> {
    var text :- Text(f, k);
    ParseProtocol(text)
  }

  function SignalField(f: Fields, k: string): Result<OutcomeSignal, CodecError> {
    var text :- Text(f, k);
    ParseSignal(text)
  }

  lemma EnumeratedFields(f: Fields, k: string)
    ensures forall c | k in f && f[k] == EncodeCapabilities(c) :: CapabilitiesField(f, k) == Ok(c)
    ensures forall t | k in f && f[k] == JText(TierText(t)) :: TierField(f, k) == Ok(t)
    ensures forall p | k in f && f[k] == JText(ProtocolText(p)) :: ProtocolField(f, k) == Ok(p)
    ensures forall o | k in f && f[k] == JText(SignalText(o)) :: SignalField(f, k) == Ok(o)
  {
    forall c | k in f && f[k] == EncodeCapabilities(c)
      ensures CapabilitiesField(f, k) == Ok(c)
    {
      CapabilitiesRoundTrip(c);
    }
  }

  // --------------------------------------------------------------------- mappings

  /** Decode every entry of an object, or fail. */
  function DecodeMap<T>(f: Fields, decode: (string, Json) -> Result<T, CodecError>)
    : Result<map<string, T>, CodecError>
  {
    if exists k | k in f :: decode(k, f[k]).Err? then Err(Incompatible)
    else Ok(map k | k in f :: decode(k, f[k]).value)
  }

  lemma MapRoundTrip<T>(f: Fields, decode: (string, Json) -> Result<T, CodecError>, m: map<string, T>)
    requires f.Keys == m.Keys && forall k | k in f :: decode(k, f[k]) == Ok(m[k])
    ensures DecodeMap(f, decode) == Ok(m)
  {
    var r := map k | k in f :: decode(k, f[k]).value;
    assert r.Keys == m.Keys;
    assert forall k | k in m :: r[k] == m[k];
    assert r == m;
  }
}
