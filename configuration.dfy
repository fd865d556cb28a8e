/**
  The configuration records bound from the "Resilience" section, with the
  defaults their property initialisers give. A record built with no
  arguments, `RetryConfiguration()`, is the record `new()` produces.
  `double` settings are carried as reals and integer settings as ints.
 */
module Configuration {
  import opened Wrappers

  const SectionName := "Resilience"

  datatype PipelineRetryConfiguration = PipelineRetryConfiguration(
    maxRetryAttempts: int := 3,
    delaySeconds: int := 1,
    /** Takes precedence over `delaySeconds` when above zero. */
    delayMilliseconds: int := 0,
    /** "Exponential", "Linear" or "Fixed", compared ignoring case. */
    backoffType: string := "Exponential",
    jitterPercent: real := 0.1,
    handleDeadlocks: bool := false,
    handleTimeouts: bool := false)

  datatype PipelineCircuitBreakerConfiguration = PipelineCircuitBreakerConfiguration(
    enabled: bool := true,
    failureRatio: real := 0.5,
    samplingDurationSeconds: int := 10,
    minimumThroughput: int := 5,
    breakDurationSeconds: int := 30)

  datatype PipelineTimeoutConfiguration = PipelineTimeoutConfiguration(
    enabled: bool := true,
    timeoutSeconds: int := 30)

  /** A named pipeline; a missing part is a null reference in the bound configuration. */
  datatype PipelineConfiguration = PipelineConfiguration(
    enabled: bool := true,
    retry: Option<PipelineRetryConfiguration> := None,
    circuitBreaker: Option<PipelineCircuitBreakerConfiguration> := None,
    timeout: Option<PipelineTimeoutConfiguration> := None)

  datatype CircuitBreakerConfiguration = CircuitBreakerConfiguration(
    enabled: bool := true,
    failureThreshold: int := 5,
    samplingDurationSeconds: int := 30,
    minimumThroughput: int := 2,
    durationOfBreakSeconds: int := 60,
    enableAdvancedCircuitBreaker: bool := false,
    failureThresholdRatio: real := 0.5,
    minimumThroughputForAdvanced: int := 10)

  datatype RetryConfiguration = RetryConfiguration(
    enabled: bool := true,
    maxRetryAttempts: int := 3,
    baseDelayMilliseconds: int := 1000,
    maxDelayMilliseconds: int := 30000,
    /** "Exponential", "Linear" or "Fixed". */
    backoffStrategy: string := "Exponential",
    jitterFactor: real := 0.1,
    retryableStatusCodes: seq<int> := [408, 429, 500, 502, 503, 504],
    retryableExceptionTypes: seq<string> := ["HttpRequestException", "TaskCanceledException", "TimeoutException"])

  datatype TimeoutConfiguration = TimeoutConfiguration(
    enabled: bool := true,
    defaultTimeoutSeconds: int := 30,
    databaseTimeoutSeconds: int := 15,
    externalApiTimeoutSeconds: int := 10,
    cacheTimeoutSeconds: int := 5,
    enableTimeoutPerOperation: bool := true)

  datatype BulkheadServiceConfiguration = BulkheadServiceConfiguration(
    maxConcurrency: int := 5,
    maxQueuedActions: int := 10)

  datatype BulkheadConfiguration = BulkheadConfiguration(
    enabled: bool := true,
    maxConcurrency: int := 10,
    maxQueuedActions: int := 20,
    services: map<string, BulkheadServiceConfiguration> := map[])

  datatype FallbackServiceConfiguration = FallbackServiceConfiguration(
    enableCacheFallback: bool := true,
    enableDefaultResponse: bool := true,
    defaultResponseJson: string := "",
    cacheTtlSeconds: int := 300)

  datatype FallbackConfiguration = FallbackConfiguration(
    enabled: bool := true,
    enableCacheFallback: bool := true,
    enableDefaultResponseFallback: bool := true,
    cacheFallbackTtlSeconds: int := 300,
    services: map<string, FallbackServiceConfiguration> := map[])

  datatype ServiceResilienceConfiguration = ServiceResilienceConfiguration(
    enabled: bool := true,
    circuitBreaker: CircuitBreakerConfiguration := CircuitBreakerConfiguration(),
    retry: RetryConfiguration := RetryConfiguration(),
    timeout: TimeoutConfiguration := TimeoutConfiguration(),
    bulkhead: BulkheadServiceConfiguration := BulkheadServiceConfiguration(),
    fallback: FallbackServiceConfiguration := FallbackServiceConfiguration())

  datatype ResilienceConfiguration = ResilienceConfiguration(
    enabled: bool := true,
    serviceName: string := "",
    environment: string := "",
    circuitBreaker: CircuitBreakerConfiguration := CircuitBreakerConfiguration(),
    retry: RetryConfiguration := RetryConfiguration(),
    timeout: TimeoutConfiguration := TimeoutConfiguration(),
    bulkhead: BulkheadConfiguration := BulkheadConfiguration(),
    fallback: FallbackConfiguration := FallbackConfiguration(),
    services: map<string, ServiceResilienceConfiguration> := map[],
    pipelines: map<string, PipelineConfiguration> := map[])

  /** A new root configuration: enabled, unnamed, with default sections and no named services or pipelines. */
  lemma NewResilienceConfigurationDefaults()
    ensures var c := ResilienceConfiguration();
      c.enabled && c.serviceName == "" && c.environment == ""
      && c.circuitBreaker == CircuitBreakerConfiguration() && c.retry == RetryConfiguration()
      && c.timeout == TimeoutConfiguration() && c.bulkhead == BulkheadConfiguration()
      && c.fallback == FallbackConfiguration()
      && c.services == map[] && c.pipelines == map[]
  {
  }

  lemma NewCircuitBreakerConfigurationDefaults()
    ensures var b := CircuitBreakerConfiguration();
      b.enabled && b.failureThreshold == 5 && b.samplingDurationSeconds == 30
      && b.minimumThroughput == 2 && b.durationOfBreakSeconds == 60
      && !b.enableAdvancedCircuitBreaker && b.failureThresholdRatio == 0.5
      && b.minimumThroughputForAdvanced == 10
  {
  }

  lemma NewRetryConfigurationDefaults()
    ensures var r := RetryConfiguration();
      r.enabled && r.maxRetryAttempts == 3 && r.baseDelayMilliseconds == 1000
      && r.maxDelayMilliseconds == 30000 && r.backoffStrategy == "Exponential"
      && forall code :: code in {408, 429, 500, 502, 503, 504} ==> code in r.retryableStatusCodes
  {
  }

  lemma NewTimeoutConfigurationDefaults()
    ensures var t := TimeoutConfiguration();
      t.enabled && t.defaultTimeoutSeconds == 30 && t.databaseTimeoutSeconds == 15
      && t.externalApiTimeoutSeconds == 10 && t.cacheTimeoutSeconds == 5
  {
  }

  /** A new named pipeline is enabled and configures no stage of its own. */
  lemma NewPipelineConfigurationDefaults()
    ensures var p := PipelineConfiguration();
      p.enabled && p.retry.None? && p.circuitBreaker.None? && p.timeout.None?
  {
  }

  lemma NewPipelineStageDefaults()
    ensures var r := PipelineRetryConfiguration();
      r.maxRetryAttempts == 3 && r.delaySeconds == 1 && r.delayMilliseconds == 0
      && r.backoffType == "Exponential" && !r.handleDeadlocks && !r.handleTimeouts
    ensures var b := PipelineCircuitBreakerConfiguration();
      b.enabled && b.failureRatio == 0.5 && b.samplingDurationSeconds == 10
      && b.minimumThroughput == 5 && b.breakDurationSeconds == 30
    ensures var t := PipelineTimeoutConfiguration();
      t.enabled && t.timeoutSeconds == 30
  {
  }
}
