/** Shared domain types: configuration rows, request classes, circuit states. */
module Types {

  datatype Option<+T> = None | Some(value: T)

  datatype CircuitState = Closed | Open | HalfOpen

  datatype RequestClass = SmallChat | MediumChat | LargeChat | StreamingLong | Embedding {
    /** The two classes that also count against `largeInflight`. */
    predicate IsLarge() { LargeChat? || StreamingLong? }
  }

  datatype BackendTarget = BackendTarget(name: string)

  datatype BackendEntry = BackendEntry(name: string, softLimit: int, hardLimit: int, drained: bool)

  datatype HealthConfig = HealthConfig(
    consecutiveFailuresOpen: int,
    openCooldownMs: int,
    halfOpenMaxInflight: int,
    maxErrorRate: real)

  datatype RoutingConfig = RoutingConfig(
    inflightWeight: real,
    queueWeight: real,
    ttftWeight: real,
    e2eWeight: real,
    errorWeight: real,
    hotPenaltyWeight: real,
    overloadPenaltyWeight: real,
    hotWindowSec: real,
    hotTargetShare: real)

  datatype SchedulerConfig = SchedulerConfig(queueMaxSize: int, queueMaxAgeMs: int, dispatchBatchSize: int)

  datatype RetryConfig = RetryConfig(maxAttempts: int, retryableStatuses: seq<int>)

  /** `keySet` stands for the API key being present in the environment. */
  datatype FallbackConfig = FallbackConfig(enabled: bool, name: string, keySet: bool)

  datatype GatewayConfig = GatewayConfig(
    scheduler: SchedulerConfig,
    routing: RoutingConfig,
    health: HealthConfig,
    retry: RetryConfig,
    fallback: FallbackConfig)

  /** Weights and limits are not negative; what the scoring results assume of the YAML file. */
  predicate SaneRouting(r: RoutingConfig) {
    && r.inflightWeight >= 0.0
    && r.hotPenaltyWeight >= 0.0
    && r.overloadPenaltyWeight >= 0.0
    && r.hotTargetShare >= 0.0
  }

  /** What the circuit-breaker results assume of the YAML file. */
  predicate SaneHealth(h: HealthConfig) {
    && h.consecutiveFailuresOpen >= 1
    && h.openCooldownMs > 0
    && h.halfOpenMaxInflight >= 0
  }

  function Min(a: int, b: int): int { if a <= b then a else b }

  function Max(a: int, b: int): int { if a >= b then a else b }

  function MinReal(a: real, b: real): real { if a <= b then a else b }
}
