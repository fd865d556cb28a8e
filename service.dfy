/**
  The Polly `ResilienceService`: four predefined pipelines (Default,
  HttpClient, Database, Cache) built from the global configuration sections,
  a cache of further pipelines per service name up to a fixed ceiling, context
  enrichment, and a primary/fallback combinator.
 */
module Service {
  import opened Wrappers
  import opened Exceptions
  import opened Configuration
  import opened DatabaseExceptionDetector
  import opened Pipelines
  import opened OperationContext

  const DefaultServiceName := "Default"
  const HttpClientServiceName := "HttpClient"
  const DatabaseServiceName := "Database"
  const CacheServiceName := "Cache"
  const MaxPipelineCacheSize := 100

  const PredefinedNames: set<string> := {DefaultServiceName, HttpClientServiceName, DatabaseServiceName, CacheServiceName}

  /** The response of an HTTP operation; only its status is modelled. */
  datatype HttpResponseMessage = HttpResponseMessage(statusCode: int)

  /** `Handle<HttpRequestException>().Handle<TaskCanceledException>().Handle<TimeoutException>()`. */
  const DefaultFilter := KindsOneOf([HttpRequest, TaskCanceled, Timeout])

  /** `Handle<HttpRequestException>().Handle<TaskCanceledException>()`. */
  const HttpFilter := KindsOneOf([HttpRequest, TaskCanceled])

  /** The default pipeline, whose retry uses the given backoff. */
  function DefaultPipeline(c: ResilienceConfiguration, backoff: BackoffType): Pipeline {
    Compose(
      if c.retry.enabled then Some(GlobalRetry(c.retry, DefaultFilter, backoff)) else None,
      if c.circuitBreaker.enabled then Some(GlobalBreaker(c.circuitBreaker, DefaultFilter)) else None,
      if c.timeout.enabled then Some(1000 * c.timeout.defaultTimeoutSeconds) else None)
  }

  /** The breaker of the HTTP pipeline uses fixed values, whatever the configuration says. */
  const HttpBreaker := CircuitBreakerOptions(HttpFilter, 0.5, 30000, 2, 60000)

  function HttpClientPipeline(c: ResilienceConfiguration, backoff: BackoffType): Pipeline {
    Compose(
      if c.retry.enabled then Some(GlobalRetry(c.retry, HttpFilter, backoff)) else None,
      if c.circuitBreaker.enabled then Some(HttpBreaker) else None,
      if c.timeout.enabled then Some(1000 * c.timeout.externalApiTimeoutSeconds) else None)
  }

  function DatabasePipeline(c: ResilienceConfiguration): Pipeline {
    Compose(
      if c.retry.enabled then
        Some(GlobalRetry(c.retry, DetectorTransient, GetBackoffType(c.retry.backoffStrategy)))
      else None,
      if c.circuitBreaker.enabled then Some(GlobalBreaker(c.circuitBreaker, DetectorTransientOrConnection)) else None,
      if c.timeout.enabled then Some(1000 * c.timeout.databaseTimeoutSeconds) else None)
  }

  /** Fewer, shorter retries for the cache: every exception, 2 attempts from 500 ms up to 2 s. */
  const CacheRetry := RetryOptions(AnyException, 2, 500, 2000, Exponential)

  function CachePipeline(c: ResilienceConfiguration): Pipeline {
    Compose(
      if c.retry.enabled then Some(CacheRetry) else None,
      None,
      if c.timeout.enabled then Some(1000 * c.timeout.cacheTimeoutSeconds) else None)
  }

  /** The four pipeline shapes the service knows. */
  datatype ServiceKind = DefaultService | HttpClientService | DatabaseService | CacheService

  /** The shape a service name selects: the predefined names their own, every other name the default. */
  function KindOf(name: string): (k: ServiceKind)
    ensures k == HttpClientService <==> name == HttpClientServiceName
    ensures k == DatabaseService <==> name == DatabaseServiceName
    ensures k == CacheService <==> name == CacheServiceName
  {
    if name == HttpClientServiceName then HttpClientService
    else if name == DatabaseServiceName then DatabaseService
    else if name == CacheServiceName then CacheService
    else DefaultService
  }

  function PipelineOf(c: ResilienceConfiguration, k: ServiceKind): Pipeline {
    match k
    case DefaultService => DefaultPipeline(c, GetBackoffType(c.retry.backoffStrategy))
    case HttpClientService => HttpClientPipeline(c, GetBackoffType(c.retry.backoffStrategy))
    case DatabaseService => DatabasePipeline(c)
    case CacheService => CachePipeline(c)
  }

  /** The pipeline the service uses for a name. */
  function ServicePipelineFor(c: ResilienceConfiguration, name: string): Pipeline {
    PipelineOf(c, KindOf(name))
  }

  /** `ConcurrentDictionary.TryAdd`: stores the value only when the key is absent. */
  function TryAdd(m: map<string, Pipeline>, key: string, value: Pipeline): (r: map<string, Pipeline>)
    ensures key in r && r.Keys == m.Keys + {key}
    ensures key !in m ==> r[key] == value
    ensures forall k :: k in m ==> r[k] == m[k]
  {
    if key in m then m else m[key := value]
  }

  /** The result of a lookup: the pipeline and the new cache and counter. */
  datatype Lookup = Lookup(pipeline: Pipeline, pipelines: map<string, Pipeline>, count: int)

  function Resolve(c: ResilienceConfiguration, pipelines: map<string, Pipeline>, count: int, name: string): (r: Lookup)
    requires DefaultServiceName in pipelines
    ensures pipelines.Keys <= r.pipelines.Keys <= pipelines.Keys + {name}
    ensures forall n :: n in pipelines ==> r.pipelines[n] == pipelines[n]
    ensures name in r.pipelines ==> r.pipelines[name] == r.pipeline
    ensures r.count - count == |r.pipelines| - |pipelines|
  {
    if name in pipelines then Lookup(pipelines[name], pipelines, count)
    else if count >= MaxPipelineCacheSize then Lookup(pipelines[DefaultServiceName], pipelines, count)
    else Lookup(PipelineOf(c, DefaultService), pipelines[name := PipelineOf(c, DefaultService)], count + 1)
  }

  /** Every cached entry is the pipeline the service uses for its name. */
  ghost predicate Consistent(c: ResilienceConfiguration, pipelines: map<string, Pipeline>) {
    forall n {:trigger pipelines[n]} :: n in pipelines ==> pipelines[n] == ServicePipelineFor(c, n)
  }

  /** The cache invariant: counter equals size within the ceiling, predefined entries present and consistent. */
  ghost predicate CacheInvariant(c: ResilienceConfiguration, pipelines: map<string, Pipeline>, count: int) {
    count == |pipelines| <= MaxPipelineCacheSize
    && PredefinedNames <= pipelines.Keys
    && Consistent(c, pipelines)
  }

  /** The name under which each shape is registered. */
  function NameOf(k: ServiceKind): (n: string)
    ensures n in PredefinedNames
  {
    match k
    case DefaultService => DefaultServiceName
    case HttpClientService => HttpClientServiceName
    case DatabaseService => DatabaseServiceName
    case CacheService => CacheServiceName
  }

  lemma FourPredefinedNames()
    ensures |PredefinedNames| == 4
  {
    var a := {DefaultServiceName} + {HttpClientServiceName};
    var b := a + {DatabaseServiceName};
    assert |a| == 2 && |b| == 3;
    assert PredefinedNames == b + {CacheServiceName};
  }

  /** Adding the four names one by one adds exactly the predefined names. */
  lemma AddingEveryNameAddsPredefinedNames(s: set<string>)
    ensures s + {NameOf(DefaultService)} + {NameOf(HttpClientService)} + {NameOf(DatabaseService)}
            + {NameOf(CacheService)} == s + PredefinedNames
  {
  }

  /** Each predefined name selects its own shape. */
  lemma PredefinedNamesSelectTheirShapes(c: ResilienceConfiguration, k: ServiceKind)
    ensures KindOf(NameOf(k)) == k
    ensures ServicePipelineFor(c, NameOf(k)) == PipelineOf(c, k)
  {
  }

  /** Every name that is not predefined gets a pipeline equal to the default one. */
  lemma UnknownNamesShareTheDefaultShape(c: ResilienceConfiguration, name: string)
    requires name !in PredefinedNames
    ensures KindOf(name) == DefaultService
    ensures ServicePipelineFor(c, name) == PipelineOf(c, DefaultService)
  {
  }

  /** A lookup in a consistent cache yields the pipeline for the name, even at the ceiling. */
  lemma ResolveYieldsServicePipeline(c: ResilienceConfiguration, pipelines: map<string, Pipeline>, count: int, name: string)
    requires CacheInvariant(c, pipelines, count)
    ensures Resolve(c, pipelines, count, name).pipeline == ServicePipelineFor(c, name)
  {
    if name !in pipelines {
      assert name !in PredefinedNames;
      UnknownNamesShareTheDefaultShape(c, name);
      if count >= MaxPipelineCacheSize {
        PredefinedNamesSelectTheirShapes(c, DefaultService);
      }
    }
  }

  /** A lookup keeps the cache invariant. */
  lemma ResolveKeepsCacheInvariant(c: ResilienceConfiguration, pipelines: map<string, Pipeline>, count: int, name: string)
    requires CacheInvariant(c, pipelines, count)
    ensures var r := Resolve(c, pipelines, count, name); CacheInvariant(c, r.pipelines, r.count)
  {
    if name !in pipelines && count < MaxPipelineCacheSize {
      assert name !in PredefinedNames;
      UnknownNamesShareTheDefaultShape(c, name);
      assert |pipelines[name := PipelineOf(c, DefaultService)]| == |pipelines| + 1;
    }
  }

  /** A new name at the ceiling is served the cached "Default" pipeline; nothing is stored. */
  lemma ResolveAtCeiling(c: ResilienceConfiguration, pipelines: map<string, Pipeline>, count: int, name: string)
    requires DefaultServiceName in pipelines
    requires name !in pipelines && count >= MaxPipelineCacheSize
    ensures Resolve(c, pipelines, count, name) == Lookup(pipelines[DefaultServiceName], pipelines, count)
  {
  }

  /** A new name below the ceiling is stored with a default-shaped pipeline, the counter up by one; a second lookup finds it. */
  lemma ResolveMissStores(c: ResilienceConfiguration, pipelines: map<string, Pipeline>, count: int, name: string)
    requires DefaultServiceName in pipelines
    requires name !in pipelines && count < MaxPipelineCacheSize
    ensures var r := Resolve(c, pipelines, count, name);
      r.pipelines.Keys == pipelines.Keys + {name} && r.count == count + 1
      && r.pipeline == PipelineOf(c, DefaultService)
      && Resolve(c, r.pipelines, r.count, name) == r
  {
  }

  /** `try { primary } catch { fallback }`: the fallback decides only when the primary fails. */
  function PrimaryOrFallback<T>(primary: Outcome<T>, fallback: Outcome<T>): (r: Outcome<T>)
    ensures primary.Ok? ==> r == primary
    ensures primary.Err? ==> r == fallback
    ensures r.Err? <==> primary.Err? && fallback.Err?
  {
    if primary.Ok? then primary else fallback
  }

  /** The primary's result never depends on the fallback. */
  lemma FallbackIgnoredWhenPrimarySucceeds<T>(primary: Outcome<T>, f1: Outcome<T>, f2: Outcome<T>)
    requires primary.Ok?
    ensures PrimaryOrFallback(primary, f1) == PrimaryOrFallback(primary, f2)
  {
  }

  /** The HTTP pipeline's breaker ignores the configured thresholds. */
  lemma HttpBreakerIsFixed(c: ResilienceConfiguration, backoff: BackoffType)
    requires c.circuitBreaker.enabled
    ensures BreakerIn(HttpClientPipeline(c, backoff).stages) == Some(CircuitBreakerOptions(HttpFilter, 0.5, 30000, 2, 60000))
  {
    ComposeHoldsItsParts(
      if c.retry.enabled then Some(GlobalRetry(c.retry, HttpFilter, backoff)) else None,
      Some(HttpBreaker),
      if c.timeout.enabled then Some(1000 * c.timeout.externalApiTimeoutSeconds) else None);
  }

  /** The cache pipeline never has a breaker, and its retry is fixed. */
  lemma CachePipelineShape(c: ResilienceConfiguration)
    ensures BreakerIn(CachePipeline(c).stages).None?
    ensures RetryIn(CachePipeline(c).stages)
            == (if c.retry.enabled then Some(RetryOptions(AnyException, 2, 500, 2000, Exponential)) else None)
  {
    ComposeHoldsItsParts(
      if c.retry.enabled then Some(CacheRetry) else None,
      None,
      if c.timeout.enabled then Some(1000 * c.timeout.cacheTimeoutSeconds) else None);
  }

  /** The database pipeline retries what the detector calls transient and breaks also on connection failures. */
  lemma DatabasePipelineUsesDetector(c: ResilienceConfiguration, e: Exception)
    requires c.retry.enabled && c.circuitBreaker.enabled
    ensures RetryIn(DatabasePipeline(c).stages).Some? && BreakerIn(DatabasePipeline(c).stages).Some?
    ensures Handles(RetryIn(DatabasePipeline(c).stages).value.shouldHandle, e) == IsTransient(Some(e))
    ensures Handles(BreakerIn(DatabasePipeline(c).stages).value.shouldHandle, e)
            == (IsTransient(Some(e)) || IsConnectionException(Some(e)))
  {
    ComposeHoldsItsParts(
      Some(GlobalRetry(c.retry, DetectorTransient, GetBackoffType(c.retry.backoffStrategy))),
      Some(GlobalBreaker(c.circuitBreaker, DetectorTransientOrConnection)),
      if c.timeout.enabled then Some(1000 * c.timeout.databaseTimeoutSeconds) else None);
  }

  /** The default pipeline's breaker thresholds follow the advanced switch. */
  lemma DefaultBreakerFollowsAdvancedSwitch(c: ResilienceConfiguration, backoff: BackoffType)
    requires c.circuitBreaker.enabled
    ensures BreakerIn(DefaultPipeline(c, backoff).stages).Some?
    ensures var b := BreakerIn(DefaultPipeline(c, backoff).stages).value;
      (c.circuitBreaker.enableAdvancedCircuitBreaker ==>
         b.failureRatio == c.circuitBreaker.failureThresholdRatio
         && b.minimumThroughput == c.circuitBreaker.minimumThroughputForAdvanced)
      && (!c.circuitBreaker.enableAdvancedCircuitBreaker ==>
         b.failureRatio == 0.5 && b.minimumThroughput == c.circuitBreaker.minimumThroughput)
  {
    ComposeHoldsItsParts(
      if c.retry.enabled then Some(GlobalRetry(c.retry, DefaultFilter, backoff)) else None,
      Some(GlobalBreaker(c.circuitBreaker, DefaultFilter)),
      if c.timeout.enabled then Some(1000 * c.timeout.defaultTimeoutSeconds) else None);
  }

  /** Each service type gets its own timeout section: default, external API, database, cache. */
  lemma TimeoutPerService(c: ResilienceConfiguration, k: ServiceKind)
    ensures TimeoutIn(PipelineOf(c, k).stages)
            == if !c.timeout.enabled then None
               else Some(1000 * match k
                 case DefaultService => c.timeout.defaultTimeoutSeconds
                 case HttpClientService => c.timeout.externalApiTimeoutSeconds
                 case DatabaseService => c.timeout.databaseTimeoutSeconds
                 case CacheService => c.timeout.cacheTimeoutSeconds)
  {
    var backoff := GetBackoffType(c.retry.backoffStrategy);
    match k
    case DefaultService =>
      ComposeHoldsItsParts(
        if c.retry.enabled then Some(GlobalRetry(c.retry, DefaultFilter, backoff)) else None,
        if c.circuitBreaker.enabled then Some(GlobalBreaker(c.circuitBreaker, DefaultFilter)) else None,
        if c.timeout.enabled then Some(1000 * c.timeout.defaultTimeoutSeconds) else None);
    case HttpClientService =>
      ComposeHoldsItsParts(
        if c.retry.enabled then Some(GlobalRetry(c.retry, HttpFilter, backoff)) else None,
        if c.circuitBreaker.enabled then Some(HttpBreaker) else None,
        if c.timeout.enabled then Some(1000 * c.timeout.externalApiTimeoutSeconds) else None);
    case DatabaseService =>
      ComposeHoldsItsParts(
        if c.retry.enabled then Some(GlobalRetry(c.retry, DetectorTransient, backoff)) else None,
        if c.circuitBreaker.enabled then Some(GlobalBreaker(c.circuitBreaker, DetectorTransientOrConnection)) else None,
        if c.timeout.enabled then Some(1000 * c.timeout.databaseTimeoutSeconds) else None);
    case CacheService =>
      ComposeHoldsItsParts(
        if c.retry.enabled then Some(CacheRetry) else None,
        None,
        if c.timeout.enabled then Some(1000 * c.timeout.cacheTimeoutSeconds) else None);
  }

  class ResilienceService {
    const configuration: ResilienceConfiguration
    var pipelines: map<string, Pipeline>
    var pipelineCount: int

    ghost predicate Valid()
      reads this
    {
      CacheInvariant(configuration, pipelines, pipelineCount)
    }

    constructor(configuration: ResilienceConfiguration)
      ensures Valid() && this.configuration == configuration
      ensures pipelines.Keys == PredefinedNames && pipelineCount == 4
    {
      this.configuration := configuration;
      pipelines := map[];
      pipelineCount := 0;
      new;
      InitializePipelines();
      FourPredefinedNames();
      assert pipelines.Keys == PredefinedNames;
    }

    /** Registers the four predefined pipelines, keeping entries that are already there. */
    method InitializePipelines()
      requires Consistent(configuration, pipelines)
      modifies this`pipelines, this`pipelineCount
      ensures Consistent(configuration, pipelines)
      ensures pipelines.Keys == old(pipelines).Keys + PredefinedNames
      ensures pipelineCount == |pipelines|
    {
      ghost var before := pipelines.Keys;
      Register(DefaultService);
      Register(HttpClientService);
      Register(DatabaseService);
      Register(CacheService);
      AddingEveryNameAddsPredefinedNames(before);
      pipelineCount := |pipelines|;
    }

    /** One `TryAdd` of a predefined name with a freshly built pipeline. */
    method Register(k: ServiceKind)
      requires Consistent(configuration, pipelines)
      modifies this`pipelines
      ensures Consistent(configuration, pipelines)
      ensures pipelines.Keys == old(pipelines).Keys + {NameOf(k)}
    {
      var p;
      match k {
        case DefaultService => p := CreateDefaultPipeline();
        case HttpClientService => p := CreateHttpClientPipeline();
        case DatabaseService => p := CreateDatabasePipeline();
        case CacheService => p := CreateCachePipeline();
      }
      PredefinedNamesSelectTheirShapes(configuration, k);
      assert p == ServicePipelineFor(configuration, NameOf(k));
      pipelines := TryAdd(pipelines, NameOf(k), p);
    }

    method CreateDefaultPipeline() returns (p: Pipeline)
      ensures p == PipelineOf(configuration, DefaultService)
    {
      var c := configuration;
      var backoff := GetBackoffType(c.retry.backoffStrategy);
      var retry := if c.retry.enabled then Some(GlobalRetry(c.retry, DefaultFilter, backoff)) else None;
      var breaker := if c.circuitBreaker.enabled then Some(GlobalBreaker(c.circuitBreaker, DefaultFilter)) else None;
      var timeout := if c.timeout.enabled then Some(1000 * c.timeout.defaultTimeoutSeconds) else None;
      p := BuildPipeline(retry, breaker, timeout);
    }

    method CreateHttpClientPipeline() returns (p: Pipeline)
      ensures p == PipelineOf(configuration, HttpClientService)
    {
      var c := configuration;
      var retry := if c.retry.enabled then
        Some(GlobalRetry(c.retry, HttpFilter, GetBackoffType(c.retry.backoffStrategy))) else None;
      var breaker := if c.circuitBreaker.enabled then Some(HttpBreaker) else None;
      var timeout := if c.timeout.enabled then Some(1000 * c.timeout.externalApiTimeoutSeconds) else None;
      p := BuildPipeline(retry, breaker, timeout);
      assert p == HttpClientPipeline(c, GetBackoffType(c.retry.backoffStrategy));
    }

    method CreateDatabasePipeline() returns (p: Pipeline)
      ensures p == PipelineOf(configuration, DatabaseService)
    {
      var c := configuration;
      var retry := if c.retry.enabled then
        Some(GlobalRetry(c.retry, DetectorTransient, GetBackoffType(c.retry.backoffStrategy))) else None;
      var breaker := if c.circuitBreaker.enabled then
        Some(GlobalBreaker(c.circuitBreaker, DetectorTransientOrConnection)) else None;
      var timeout := if c.timeout.enabled then Some(1000 * c.timeout.databaseTimeoutSeconds) else None;
      p := BuildPipeline(retry, breaker, timeout);
    }

    method CreateCachePipeline() returns (p: Pipeline)
      ensures p == PipelineOf(configuration, CacheService)
    {
      var c := configuration;
      var retry := if c.retry.enabled then Some(CacheRetry) else None;
      var timeout := if c.timeout.enabled then Some(1000 * c.timeout.cacheTimeoutSeconds) else None;
      p := BuildPipeline(retry, None, timeout);
    }

    method GetOrCreatePipeline(serviceName: string) returns (p: Pipeline)
      requires Valid()
      modifies this
      ensures Valid()
      ensures var r := Resolve(configuration, old(pipelines), old(pipelineCount), serviceName);
        p == r.pipeline && pipelines == r.pipelines && pipelineCount == r.count
      ensures p == ServicePipelineFor(configuration, serviceName)
    {
      ResolveKeepsCacheInvariant(configuration, pipelines, pipelineCount, serviceName);
      if serviceName in pipelines {
        return pipelines[serviceName];
      }
      if pipelineCount >= MaxPipelineCacheSize {
        return pipelines[DefaultServiceName];
      }
      p := CreateDefaultPipeline();
      pipelines := pipelines[serviceName := p];
      pipelineCount := pipelineCount + 1;
    }

    /** Sets the four keys in the caller's dictionary, or in a new one when there is none. */
    method EnrichContext(context: Context?, operationName: string, serviceName: string, now: int)
      returns (r: Context)
      modifies context
      ensures context != null ==>
        r == context && r.entries == Enriched(old(context.entries), operationName, serviceName, configuration.enabled, now)
      ensures context == null ==>
        fresh(r) && r.entries == Enriched(map[], operationName, serviceName, configuration.enabled, now)
    {
      if context != null {
        context.entries := context.entries[OperationNameKey := TextValue(operationName)];
        context.entries := context.entries[ServiceNameKey := TextValue(serviceName)];
        context.entries := context.entries[ResilienceEnabledKey := FlagValue(configuration.enabled)];
        context.entries := context.entries[TimestampKey := TimestampValue(now)];
        return context;
      }
      r := new Context(map[
        OperationNameKey := TextValue(operationName),
        ServiceNameKey := TextValue(serviceName),
        ResilienceEnabledKey := FlagValue(configuration.enabled),
        TimestampKey := TimestampValue(now)]);
    }

    /**
      Runs `operation` through the pipeline for `serviceName`; `run` stands
      for Polly executing a pipeline, `now` for the clock. A failure is
      rethrown unchanged.
     */
    method ExecuteWithResilience<T>(operation: Outcome<T>, operationName: string, serviceName: string := DefaultServiceName,
                                    context: Context? := null, now: int,
                                    run: (Pipeline, Outcome<T>) -> Outcome<T>)
      returns (r: Outcome<T>)
      requires Valid()
      modifies this, context
      ensures Valid()
      ensures !configuration.enabled ==>
        r == operation && pipelines == old(pipelines) && pipelineCount == old(pipelineCount)
        && (context != null ==> context.entries == old(context.entries))
      ensures configuration.enabled ==>
        var res := Resolve(configuration, old(pipelines), old(pipelineCount), serviceName);
        r == run(res.pipeline, operation) && res.pipeline == ServicePipelineFor(configuration, serviceName)
        && pipelines == res.pipelines && pipelineCount == res.count
        && (context != null ==> context.entries == Enriched(old(context.entries), operationName, serviceName, true, now))
    {
      if !configuration.enabled {
        return operation;
      }
      var pipeline := GetOrCreatePipeline(serviceName);
      var enriched := EnrichContext(context, operationName, serviceName, now);
      r := run(pipeline, operation);
    }

    method ExecuteHttpWithResilience(httpOperation: Outcome<HttpResponseMessage>, operationName: string,
                                     serviceName: string := HttpClientServiceName, context: Context? := null,
                                     now: int, run: (Pipeline, Outcome<HttpResponseMessage>) -> Outcome<HttpResponseMessage>)
      returns (r: Outcome<HttpResponseMessage>)
      requires Valid()
      modifies this, context
      ensures Valid()
      ensures !configuration.enabled ==>
        r == httpOperation && pipelines == old(pipelines) && pipelineCount == old(pipelineCount)
        && (context != null ==> context.entries == old(context.entries))
      ensures configuration.enabled ==>
        var res := Resolve(configuration, old(pipelines), old(pipelineCount), serviceName);
        r == run(ServicePipelineFor(configuration, serviceName), httpOperation)
        && pipelines == res.pipelines && pipelineCount == res.count
        && (context != null ==> context.entries == Enriched(old(context.entries), operationName, serviceName, true, now))
    {
      r := ExecuteWithResilience(httpOperation, operationName, serviceName, context, now, run);
    }

    method ExecuteDatabaseWithResilience<T>(databaseOperation: Outcome<T>, operationName: string,
                                            context: Context? := null, now: int,
                                            run: (Pipeline, Outcome<T>) -> Outcome<T>)
      returns (r: Outcome<T>)
      requires Valid()
      modifies this, context
      ensures Valid()
      ensures !configuration.enabled ==>
        r == databaseOperation && pipelines == old(pipelines) && pipelineCount == old(pipelineCount)
        && (context != null ==> context.entries == old(context.entries))
      ensures configuration.enabled ==>
        var res := Resolve(configuration, old(pipelines), old(pipelineCount), DatabaseServiceName);
        r == run(DatabasePipeline(configuration), databaseOperation)
        && pipelines == res.pipelines && pipelineCount == res.count
        && (context != null ==> context.entries == Enriched(old(context.entries), operationName, DatabaseServiceName, true, now))
    {
      r := ExecuteWithResilience(databaseOperation, operationName, DatabaseServiceName, context, now, run);
    }

    /**
      Runs the primary operation and, when it fails, the fallback. With
      resilience and fallback enabled the pair runs inside the pipeline for
      `serviceName`.
     */
    method ExecuteWithFallback<T>(primaryOperation: Outcome<T>, fallbackOperation: Outcome<T>, operationName: string,
                                  serviceName: string := DefaultServiceName, context: Context? := null, now: int,
                                  run: (Pipeline, Outcome<T>) -> Outcome<T>)
      returns (r: Outcome<T>)
      requires Valid()
      modifies this, context
      ensures Valid()
      ensures !configuration.enabled || !configuration.fallback.enabled ==>
        r == PrimaryOrFallback(primaryOperation, fallbackOperation)
        && pipelines == old(pipelines) && pipelineCount == old(pipelineCount)
        && (context != null ==> context.entries == old(context.entries))
      ensures configuration.enabled && configuration.fallback.enabled ==>
        var res := Resolve(configuration, old(pipelines), old(pipelineCount), serviceName);
        r == run(res.pipeline, PrimaryOrFallback(primaryOperation, fallbackOperation))
        && pipelines == res.pipelines && pipelineCount == res.count
        && (context != null ==> context.entries == Enriched(old(context.entries), operationName, serviceName, true, now))
    {
      if !configuration.enabled || !configuration.fallback.enabled {
        return PrimaryOrFallback(primaryOperation, fallbackOperation);
      }
      var pipeline := GetOrCreatePipeline(serviceName);
      var enriched := EnrichContext(context, operationName, serviceName, now);
      r := run(pipeline, PrimaryOrFallback(primaryOperation, fallbackOperation));
    }
  }
}
