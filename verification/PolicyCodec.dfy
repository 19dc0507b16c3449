/**
 The two independent paths from configuration to routing policy: direct
 compilation (routing/policy.py), and the canonical document that is persisted
 and decoded again for replay (evaluation/codec.py).
 */
module PolicyCodec {
  import opened Prelude
  import opened Domain
  import opened RoutingPolicies
  import opened JsonValues
  import opened Codec

  // --------------------------------------------------------------- configuration

  datatype ModelConfig = ModelConfig(
    provider: string,
    upstreamModel: string,
    tier: Tier,
    capabilities: set<Capability>,
    maxInputTokens: int,
    inputPricePerMillion: Option<real>,
    outputPricePerMillion: Option<real>,
    protocol: Protocol,
    stateScope: Option<string>)

  datatype ProfileConfig = AutoProfile | ExplicitProfile(targets: map<Protocol, TargetChain>)

  datatype RouterConfig = RouterConfig(
    models: map<string, ModelConfig>,
    profiles: map<string, ProfileConfig>,
    defaultProfile: string,
    policyVersion: string,
    failureEscalationRequests: int,
    fastMaxInputTokens: int,
    balancedMaxInputTokens: int,
    deepToolRoundsThreshold: int,
    attemptLimit: nat,
    timeouts: ExecutionTimeouts)
  {
    function ModelTargets(): map<string, ModelTarget> {
      map alias | alias in models ::
        var m := models[alias];
        ModelTarget(alias, m.provider, m.upstreamModel, m.tier, m.capabilities, m.maxInputTokens,
                    m.inputPricePerMillion, m.outputPricePerMillion, m.protocol, m.stateScope)
    }

    /** The validated facts that routing relies on. */
    ghost predicate Valid() {
      && defaultProfile in profiles
      && attemptLimit >= 1
      && failureEscalationRequests >= 1
      && fastMaxInputTokens < balancedMaxInputTokens
      && forall name, protocol
           | name in profiles && profiles[name].ExplicitProfile? && protocol in profiles[name].targets ::
           ValidChain(ModelTargets(), profiles[name].targets[protocol].Aliases())
    }
  }

  const SCHEMA_VERSION := 1
  const ALGORITHM_VERSION := "v1"
  const MAX_POLICY_SNAPSHOT_BYTES := 4 * 1024 * 1024

  // ----------------------------------------------------------- direct compilation

  function CompiledProfile(p: ProfileConfig): ProfilePolicy {
    match p
    case AutoProfile => ProfilePolicy(true, map[])
    case ExplicitProfile(targets) => ProfilePolicy(false, targets)
  }

  function CompiledProfiles(c: RouterConfig): map<string, ProfilePolicy> {
    map name | name in c.profiles :: CompiledProfile(c.profiles[name])
  }

  function CompiledPolicy(c: RouterConfig, hash: Json -> string): (policy: RoutingPolicy)
    ensures c.Valid() ==> policy.Valid()
  {
    RoutingPolicy(
      c.ModelTargets(),
      CompiledProfiles(c),
      c.defaultProfile, c.policyVersion, c.failureEscalationRequests, c.fastMaxInputTokens,
      c.balancedMaxInputTokens, c.deepToolRoundsThreshold, c.attemptLimit, c.timeouts,
      hash(PolicyDocument(c)), SCHEMA_VERSION, ALGORITHM_VERSION)
  }

  method CompileProfiles(c: RouterConfig) returns (profiles: map<string, ProfilePolicy>)
    ensures profiles == CompiledProfiles(c)
  {
    profiles := map[];
    var todo := c.profiles.Keys;
    while todo != {}
      invariant todo <= c.profiles.Keys && profiles.Keys == c.profiles.Keys - todo
      invariant forall name | name in profiles :: profiles[name] == CompiledProfile(c.profiles[name])
    {
      var name :| name in todo;
      if c.profiles[name].AutoProfile? {
        profiles := profiles[name := ProfilePolicy(true, map[])];
      } else {
        profiles := profiles[name := ProfilePolicy(false, c.profiles[name].targets)];
      }
      todo := todo - {name};
    }
  }

  method CompileRoutingPolicy(c: RouterConfig, hash: Json -> string) returns (policy: RoutingPolicy)
    ensures policy == CompiledPolicy(c, hash)
  {
    var document := DocumentPolicy(c);
    var digest := hash(document);
    var profiles := CompileProfiles(c);
    return RoutingPolicy(
      c.ModelTargets(), profiles, c.defaultProfile, c.policyVersion, c.failureEscalationRequests,
      c.fastMaxInputTokens, c.balancedMaxInputTokens, c.deepToolRoundsThreshold, c.attemptLimit, c.timeouts,
      digest, SCHEMA_VERSION, ALGORITHM_VERSION);
  }

  // ----------------------------------------------------------- canonical document

  function EncodeChain(chain: TargetChain): Json {
    JObject(map["primary" := JText(chain.primary), "fallback" := JArray(EncodeTexts(chain.fallback))])
  }

  const PROTOCOL_TEXTS := {"anthropic_messages", "openai_responses"}
  const PROTOCOLS := {AnthropicMessages, OpenAIResponses}

  function EncodeChains(targets: map<Protocol, TargetChain>): Fields {
    map s | s in PROTOCOL_TEXTS && ParseProtocol(s).Ok? && ParseProtocol(s).value in targets ::
      EncodeChain(targets[ParseProtocol(s).value])
  }

  function ProfileDocument(automatic: bool, chains: Fields): Json {
    JObject(map["mode" := JText(if automatic then "auto" else "explicit"), "targets" := JObject(chains)])
  }

  function EncodeProfile(p: ProfileConfig): Json {
    match p
    case AutoProfile => ProfileDocument(true, map[])
    case ExplicitProfile(targets) => ProfileDocument(false, EncodeChains(targets))
  }

  function EncodeModels(c: RouterConfig): Fields {
    map alias | alias in c.models :: JObject(TargetBody(c.ModelTargets()[alias]))
  }

  function EncodeProfiles(c: RouterConfig): Fields {
    map name | name in c.profiles :: EncodeProfile(c.profiles[name])
  }

  function DocumentFields(v: seq<Json>): Fields
    requires |v| == 12
  {
    map[
      "schema_version" := v[0],
      "routing_algorithm_version" := v[1],
      "policy_version" := v[2],
      "targets" := v[3],
      "profiles" := v[4],
      "default_profile" := v[5],
      "failure_escalation_requests" := v[6],
      "fast_max_input_tokens" := v[7],
      "balanced_max_input_tokens" := v[8],
      "deep_tool_rounds_threshold" := v[9],
      "attempt_limit" := v[10],
      "timeouts" := v[11]]
  }

  const DOCUMENT_KEYS := {
    "schema_version", "routing_algorithm_version", "policy_version", "targets", "profiles", "default_profile",
    "failure_escalation_requests", "fast_max_input_tokens", "balanced_max_input_tokens", "deep_tool_rounds_threshold",
    "attempt_limit", "timeouts"}

  function DocumentValues(c: RouterConfig, targets: Fields, profiles: Fields): (v: seq<Json>)
    ensures |v| == 12
  {
    [JInt(SCHEMA_VERSION), JText(ALGORITHM_VERSION), JText(c.policyVersion), JObject(targets), JObject(profiles),
     JText(c.defaultProfile), JInt(c.failureEscalationRequests), JInt(c.fastMaxInputTokens),
     JInt(c.balancedMaxInputTokens), JInt(c.deepToolRoundsThreshold), JInt(c.attemptLimit), EncodeTimeouts(c.timeouts)]
  }

  function PolicyDocument(c: RouterConfig): Json {
    JObject(DocumentFields(DocumentValues(c, EncodeModels(c), EncodeProfiles(c))))
  }

  method DocumentPolicy(c: RouterConfig) returns (document: Json)
    ensures document == PolicyDocument(c)
  {
    hide DocumentFields, DocumentValues, EncodeModels, EncodeChains, ProfileDocument;
    var profiles: Fields := map[];
    var todo := c.profiles.Keys;
    while todo != {}
      invariant todo <= c.profiles.Keys && profiles.Keys == c.profiles.Keys - todo
      invariant forall name | name in profiles :: profiles[name] == EncodeProfile(c.profiles[name])
    {
      var name :| name in todo;
      if c.profiles[name].AutoProfile? {
        profiles := profiles[name := ProfileDocument(true, map[])];
      } else {
        profiles := profiles[name := ProfileDocument(false, EncodeChains(c.profiles[name].targets))];
      }
      todo := todo - {name};
    }
    assert profiles == EncodeProfiles(c);
    document := JObject(DocumentFields(DocumentValues(c, EncodeModels(c), profiles)));
  }

  datatype RoutingPolicySnapshot = RoutingPolicySnapshot(
    routingPolicyHash: string,
    policyVersion: string,
    routingAlgorithmVersion: string,
    policyJson: Json,
    createdAt: Time)

  /** size is the length of the canonical text in bytes. */
  function PolicySnapshotOf(c: RouterConfig, hash: Json -> string, size: Json -> nat, createdAt: Time)
    : Result<RoutingPolicySnapshot, CodecError>
  {
    var document := PolicyDocument(c);
    if size(document) > MAX_POLICY_SNAPSHOT_BYTES then Err(TooLarge)
    else Ok(RoutingPolicySnapshot(hash(document), c.policyVersion, ALGORITHM_VERSION, document, createdAt))
  }

  // ------------------------------------------------------------------ decoding it

  function DecodeChain(j: Json): Result<TargetChain, CodecError> {
    var f :- ObjectOf(j);
    var primary :- Text(f, "primary");
    var items :- Items(f, "fallback");
    var fallback :- DecodeTexts(items);
    Ok(TargetChain(primary, fallback))
  }

  function DecodeChains(f: Fields): Result<map<Protocol, TargetChain>, CodecError> {
    if exists s | s in f :: ParseProtocol(s).Err? || DecodeChain(f[s]).Err? then Err(Incompatible)
    else Ok(map p | p in PROTOCOLS && ProtocolText(p) in f :: DecodeChain(f[ProtocolText(p)]).value)
  }

  function DecodeProfileEntry(name: string, j: Json): Result<ProfilePolicy, CodecError> {
    var f :- ObjectOf(j);
    var mode :- Text(f, "mode");
    var targets :- Object(f, "targets");
    var chains :- DecodeChains(targets);
    Ok(ProfilePolicy(mode == "auto", chains))
  }

  function DecodeTargetEntry(alias: string, j: Json): Result<ModelTarget, CodecError> {
    var f :- ObjectOf(j);
    DecodeTarget(map["alias" := JText(alias)] + f)
  }

  function DecodedPolicy(snapshot: RoutingPolicySnapshot, hash: Json -> string): Result<RoutingPolicy, CodecError> {
    if hash(snapshot.policyJson) != snapshot.routingPolicyHash then Err(HashInvalid)
    else
      var f :- ObjectOf(snapshot.policyJson);
      var targetFields :- Object(f, "targets");
      var targets :- DecodeMap(targetFields, DecodeTargetEntry);
      var profileFields :- Object(f, "profiles");
      var profiles :- DecodeMap(profileFields, DecodeProfileEntry);
      DecodedScalars(f, targets, profiles, snapshot.routingPolicyHash)
  }

  function DecodedScalars(f: Fields, targets: map<string, ModelTarget>, profiles: map<string, ProfilePolicy>,
                          hash: string)
    : Result<RoutingPolicy, CodecError>
  {
    var defaultProfile :- Text(f, "default_profile");
    var policyVersion :- Text(f, "policy_version");
    var failureEscalationRequests :- Integer(f, "failure_escalation_requests");
    var fast :- Integer(f, "fast_max_input_tokens");
    var balanced :- Integer(f, "balanced_max_input_tokens");
    var deepToolRounds :- Integer(f, "deep_tool_rounds_threshold");
    var attemptLimit :- Natural(f, "attempt_limit");
    var timeouts :- DecodeTimeouts(f, "timeouts");
    var schemaVersion :- Integer(f, "schema_version");
    var algorithmVersion :- Text(f, "routing_algorithm_version");
    Ok(RoutingPolicy(targets, profiles, defaultProfile, policyVersion, failureEscalationRequests, fast, balanced,
                     deepToolRounds, attemptLimit, timeouts, hash, schemaVersion, algorithmVersion))
  }

  method DecodePolicySnapshot(snapshot: RoutingPolicySnapshot, hash: Json -> string)
    returns (r: Result<RoutingPolicy, CodecError>)
    ensures r == DecodedPolicy(snapshot, hash)
  {
    var digest := hash(snapshot.policyJson);
    if digest != snapshot.routingPolicyHash {
      return Err(HashInvalid);
    }
    var f :- ObjectOf(snapshot.policyJson);
    var targetFields :- Object(f, "targets");
    var targets :- DecodeMap(targetFields, DecodeTargetEntry);
    var profileFields :- Object(f, "profiles");
    var profiles: map<string, ProfilePolicy> := map[];
    var todo := profileFields.Keys;
    while todo != {}
      invariant todo <= profileFields.Keys
      invariant profiles.Keys == profileFields.Keys - todo
      invariant forall name | name in profiles :: DecodeProfileEntry(name, profileFields[name]) == Ok(profiles[name])
    {
      var name :| name in todo;
      var entry := DecodeProfileEntry(name, profileFields[name]);
      if entry.Err? {
        return Err(Incompatible);
      }
      profiles := profiles[name := entry.value];
      todo := todo - {name};
    }
    MapRoundTrip(profileFields, DecodeProfileEntry, profiles);
    return DecodedScalars(f, targets, profiles, snapshot.routingPolicyHash);
  }

  // ---------------------------------------------------------------- policy square

  lemma ChainRoundTrip(chain: TargetChain)
    ensures DecodeChain(EncodeChain(chain)) == Ok(chain)
  {
    TextsRoundTrip(chain.fallback);
  }

  lemma ChainsRoundTrip(targets: map<Protocol, TargetChain>)
    ensures DecodeChains(EncodeChains(targets)) == Ok(targets)
  {
    var f := EncodeChains(targets);
    forall s | s in f
      ensures ParseProtocol(s).Ok? && DecodeChain(f[s]) == Ok(targets[ParseProtocol(s).value])
    {
      ChainRoundTrip(targets[ParseProtocol(s).value]);
    }
    forall p: Protocol
      ensures p in PROTOCOLS && (ProtocolText(p) in f <==> p in targets)
      ensures ParseProtocol(ProtocolText(p)) == Ok(p)
    {
      match p case AnthropicMessages => case OpenAIResponses =>
    }
    var r := map p | p in PROTOCOLS && ProtocolText(p) in f :: DecodeChain(f[ProtocolText(p)]).value;
    assert r == targets;
  }

  lemma ProfileDocumentDecodes(automatic: bool, chains: Fields, targets: map<Protocol, TargetChain>, name: string)
    requires DecodeChains(chains) == Ok(targets)
    ensures DecodeProfileEntry(name, ProfileDocument(automatic, chains)) == Ok(ProfilePolicy(automatic, targets))
  {}

  lemma ProfileRoundTrip(name: string, p: ProfileConfig)
    ensures DecodeProfileEntry(name, EncodeProfile(p)) == Ok(CompiledProfile(p))
  {
    match p
    case AutoProfile =>
      ChainsRoundTrip(map[]);
      assert EncodeChains(map[]) == map[];
      ProfileDocumentDecodes(true, map[], map[], name);
    case ExplicitProfile(targets) =>
      ChainsRoundTrip(targets);
      ProfileDocumentDecodes(false, EncodeChains(targets), targets, name);
  }

  lemma ModelsRoundTrip(c: RouterConfig)
    ensures DecodeMap(EncodeModels(c), DecodeTargetEntry) == Ok(c.ModelTargets())
  {
    var f := EncodeModels(c);
    forall alias | alias in f
      ensures DecodeTargetEntry(alias, f[alias]) == Ok(c.ModelTargets()[alias])
    {
      var t := c.ModelTargets()[alias];
      EncodedTargetHolds(alias, t, map["alias" := JText(alias)] + TargetBody(t));
      DecodesHeldTarget(map["alias" := JText(alias)] + TargetBody(t), t);
    }
    MapRoundTrip(f, DecodeTargetEntry, c.ModelTargets());
  }

  lemma ProfilesRoundTrip(c: RouterConfig)
    ensures DecodeMap(EncodeProfiles(c), DecodeProfileEntry) == Ok(CompiledProfiles(c))
  {
    var f := EncodeProfiles(c);
    forall name | name in f
      ensures DecodeProfileEntry(name, f[name]) == Ok(CompiledProfile(c.profiles[name]))
    {
      ProfileRoundTrip(name, c.profiles[name]);
    }
    MapRoundTrip(f, DecodeProfileEntry, CompiledProfiles(c));
  }

  lemma DocumentLookups(v: seq<Json>, f: Fields)
    requires |v| == 12 && f == DocumentFields(v)
    ensures f.Keys == DOCUMENT_KEYS
    ensures f["schema_version"] == v[0] && f["routing_algorithm_version"] == v[1] && f["policy_version"] == v[2]
    ensures f["targets"] == v[3] && f["profiles"] == v[4] && f["default_profile"] == v[5]
    ensures f["failure_escalation_requests"] == v[6] && f["fast_max_input_tokens"] == v[7]
    ensures f["balanced_max_input_tokens"] == v[8] && f["deep_tool_rounds_threshold"] == v[9]
    ensures f["attempt_limit"] == v[10] && f["timeouts"] == v[11]
  {}

  lemma DocumentRoundTrip(c: RouterConfig, t: Fields, p: Fields, f: Fields, targets: map<string, ModelTarget>,
                          profiles: map<string, ProfilePolicy>, hash: string)
    requires f == DocumentFields(DocumentValues(c, t, p))
    ensures Object(f, "targets") == Ok(t) && Object(f, "profiles") == Ok(p)
    ensures DecodedScalars(f, targets, profiles, hash) ==
      Ok(RoutingPolicy(targets, profiles, c.defaultProfile, c.policyVersion, c.failureEscalationRequests,
                       c.fastMaxInputTokens, c.balancedMaxInputTokens, c.deepToolRoundsThreshold, c.attemptLimit,
                       c.timeouts, hash, SCHEMA_VERSION, ALGORITHM_VERSION))
  {
    DocumentLookups(DocumentValues(c, t, p), f);
    TimeoutsRoundTrip(f, "timeouts", c.timeouts);
  }

  /** The policy square: for every configuration, a snapshot is refused exactly when
      its canonical text is too large, and otherwise decoding it yields the very
      policy that direct compilation yields, under the same identity. */
  lemma PolicySquare(c: RouterConfig, hash: Json -> string, size: Json -> nat, createdAt: Time)
    ensures PolicySnapshotOf(c, hash, size, createdAt).Err? <==> size(PolicyDocument(c)) > MAX_POLICY_SNAPSHOT_BYTES
    ensures PolicySnapshotOf(c, hash, size, createdAt).Ok? ==>
      DecodedPolicy(PolicySnapshotOf(c, hash, size, createdAt).value, hash) == Ok(CompiledPolicy(c, hash))
  {
    ModelsRoundTrip(c);
    ProfilesRoundTrip(c);
    DocumentRoundTrip(c, EncodeModels(c), EncodeProfiles(c), PolicyDocument(c).fields, c.ModelTargets(),
                      CompiledProfiles(c), hash(PolicyDocument(c)));
  }

  lemma ScalarsKeepHash(f: Fields, targets: map<string, ModelTarget>, profiles: map<string, ProfilePolicy>,
                        hash: string)
    ensures var r := DecodedScalars(f, targets, profiles, hash);
      && r != Err(HashInvalid)
      && (r.Ok? ==> r.value.routingPolicyHash == hash && r.value.targets == targets && r.value.profiles == profiles)
  {
  }

  /** A snapshot is read only under the hash of its own document, which the policy keeps. */
  lemma HashIsChecked(snapshot: RoutingPolicySnapshot, hash: Json -> string)
    ensures DecodedPolicy(snapshot, hash) == Err(HashInvalid) <==>
      hash(snapshot.policyJson) != snapshot.routingPolicyHash
    ensures DecodedPolicy(snapshot, hash).Ok? ==>
      DecodedPolicy(snapshot, hash).value.routingPolicyHash == hash(snapshot.policyJson)
  {
    hide DecodedScalars;
    forall f, targets, profiles
      ensures var r := DecodedScalars(f, targets, profiles, snapshot.routingPolicyHash);
        r != Err(HashInvalid) && (r.Ok? ==> r.value.routingPolicyHash == snapshot.routingPolicyHash)
    {
      ScalarsKeepHash(f, targets, profiles, snapshot.routingPolicyHash);
    }
  }
}
