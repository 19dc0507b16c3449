/** The immutable policy consumed by the routing kernel (routing/policy.py, routing/context.py). */
module RoutingPolicies {
  import opened Domain

  datatype TargetChain = TargetChain(primary: string, fallback: seq<string>)
  {
    function Aliases(): seq<string> { [primary] + fallback }
  }

  datatype ProfilePolicy = ProfilePolicy(automatic: bool, targets: map<Protocol, TargetChain>)

  datatype RoutingPolicy = RoutingPolicy(
    targets: map<string, ModelTarget>,
    profiles: map<string, ProfilePolicy>,
    defaultProfile: string,
    policyVersion: string,
    failureEscalationRequests: int,
    fastMaxInputTokens: int,
    balancedMaxInputTokens: int,
    deepToolRoundsThreshold: int,
    attemptLimit: nat,
    timeouts: ExecutionTimeouts,
    routingPolicyHash: string,
    schemaVersion: int,
    routingAlgorithmVersion: string)
  {
    function EffectivePolicyVersion(): string {
      var hash := routingPolicyHash;
      policyVersion + "-" + hash[..if |hash| <= 12 then |hash| else 12]
    }

    /** What configuration validation guarantees about a policy. */
    ghost predicate Valid() {
      && (forall a | a in targets :: targets[a].alias == a)
      && defaultProfile in profiles
      && attemptLimit >= 1
      && failureEscalationRequests >= 1
      && fastMaxInputTokens < balancedMaxInputTokens
      && forall name, protocol | name in profiles && protocol in profiles[name].targets ::
           ValidChain(targets, profiles[name].targets[protocol].Aliases())
    }
  }

  ghost predicate ValidChain(targets: map<string, ModelTarget>, chain: seq<string>) {
    && (forall i | 0 <= i < |chain| :: chain[i] in targets)
    && (forall i, j | 0 <= i < j < |chain| :: chain[i] != chain[j])
  }

  datatype SessionSnapshot = SessionSnapshot(
    lastTier: Tier, lastOutcome: OutcomeSignal, consecutiveFailures: int, requestsSinceFailure: int)
}
