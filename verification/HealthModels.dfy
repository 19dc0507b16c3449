/** Immutable values of provider health management (health/models.py). */
module HealthModels {
  import opened Prelude

  datatype HealthState = Healthy | Cooldown | HalfOpen | Blocked

  datatype FailureClass =
    | Success
    | ProviderTransient
    | TargetTransient
    | ProviderPermanent
    | TargetPermanent
    | RequestRejected
    | ClientCancelled
    | PostCommitStreamFailure

  datatype AvailabilityReason =
    | ReasonHealthy
    | ReasonProviderCooldown
    | ReasonTargetCooldown
    | ReasonProviderBlocked
    | ReasonTargetBlocked
    | ReasonProbeEligible

  datatype FailureScope = ProviderScope | TargetScope

  datatype TargetAvailability = TargetAvailability(
    eligible: bool,
    state: HealthState,
    reason: AvailabilityReason,
    retryAt: Option<Time>,
    probeScope: Option<FailureScope>,
    probeKey: Option<string>)

  datatype AvailabilitySnapshot = AvailabilitySnapshot(
    revision: nat,
    observedAt: Time,
    targetStates: map<string, TargetAvailability>,
    earliestRecoveryAt: Option<Time>)

  datatype HealthLease = HealthLease(
    token: nat,
    provider: string,
    targetAlias: string,
    snapshotRevision: nat,
    acquiredAt: Time,
    probe: bool,
    providerGeneration: nat,
    targetGeneration: nat)

  datatype AttemptOutcome = AttemptOutcome(
    failureClass: FailureClass,
    observedAt: Time,
    retryAfter: Option<real>)

  datatype HealthConfig = HealthConfig(
    failureThreshold: nat,
    failureWindow: Time,
    cooldown: Time,
    maxCooldown: Time,
    backoffMultiplier: real)
  {
    /** What configuration validation guarantees. */
    predicate Valid() {
      && failureThreshold >= 1
      && failureWindow >= 10.0
      && cooldown >= 1.0
      && maxCooldown >= cooldown
      && backoffMultiplier >= 1.0
    }
  }
}
