/**
  The legacy `ResilienceService` of the original package. It installs the
  same four predefined pipelines as the Polly service, but:
  - its backoff switch lower-cases the strategy name instead of comparing
    ignoring case;
  - its database pipeline retries every exception and has no breaker;
  - its cache has no ceiling, so every new name gets its own entry.
 */
module LegacyService {
  import opened Wrappers
  import opened Text
  import opened Exceptions
  import opened Configuration
  import opened Pipelines
  import opened OperationContext
  import Service

  /** The legacy `GetBackoffType`: `strategy.ToLowerInvariant() switch { "exponential" => …, "linear" => …, "fixed" => …, _ => … }`. */
  function LowerCaseBackoffType(strategy: string): (r: BackoffType)
    ensures r == Linear <==> ToLowerInvariant(strategy) == "linear"
    ensures r == Constant <==> ToLowerInvariant(strategy) == "fixed"
  {
    var key := ToLowerInvariant(strategy);
    if key == "exponential" then Exponential
    else if key == "linear" then Linear
    else if key == "fixed" then Constant
    else Exponential
  }

  /** Lower-casing a string character by character spells `u`. */
  lemma LowerSpelling(s: string, u: string)
    requires |s| == |u| && forall i :: 0 <= i < |s| ==> LowerChar(s[i]) == u[i]
    ensures ToLowerInvariant(s) == u
  {
    forall i | 0 <= i < |s|
      ensures ToLowerInvariant(s)[i] == u[i]
    {
      LowerAt(s, i);
    }
  }

  /** The lower-casing switch picks the backoff the ignore-case comparisons of the newer copies pick. */
  lemma LowerCaseBackoffTypeAgrees(strategy: string)
    ensures LowerCaseBackoffType(strategy) == Pipelines.GetBackoffType(strategy)
  {
    LowerSpelling("linear", "linear");
    LowerSpelling("fixed", "fixed");
    EqualsIgnoreCaseIffLowerEqual(strategy, "linear");
    EqualsIgnoreCaseIffLowerEqual(strategy, "fixed");
    GetBackoffTypeComparesIgnoringCase(strategy);
  }

  /** The database pipeline retries every exception with the global settings and has no breaker. */
  function DatabasePipeline(c: ResilienceConfiguration): Pipeline {
    Compose(
      if c.retry.enabled then
        Some(GlobalRetry(c.retry, AnyException, LowerCaseBackoffType(c.retry.backoffStrategy)))
      else None,
      None,
      if c.timeout.enabled then Some(1000 * c.timeout.databaseTimeoutSeconds) else None)
  }

  /** The pipeline shapes of the legacy copy; only the database shape differs from the Polly service. */
  function PipelineOf(c: ResilienceConfiguration, k: Service.ServiceKind): Pipeline {
    match k
    case DefaultService => Service.DefaultPipeline(c, LowerCaseBackoffType(c.retry.backoffStrategy))
    case HttpClientService => Service.HttpClientPipeline(c, LowerCaseBackoffType(c.retry.backoffStrategy))
    case DatabaseService => DatabasePipeline(c)
    case CacheService => Service.CachePipeline(c)
  }

  /** The pipeline the legacy service uses for a name. */
  function PipelineFor(c: ResilienceConfiguration, name: string): Pipeline {
    PipelineOf(c, Service.KindOf(name))
  }

  /** The result of a lookup: the pipeline and the new cache. */
  datatype Lookup = Lookup(pipeline: Pipeline, pipelines: map<string, Pipeline>)

  /** A hit returns the entry; a miss stores a default-shaped pipeline under the name, whatever the cache size. */
  function Resolve(c: ResilienceConfiguration, pipelines: map<string, Pipeline>, name: string): (r: Lookup)
    ensures r.pipelines.Keys == pipelines.Keys + {name} && r.pipelines[name] == r.pipeline
    ensures forall n :: n in pipelines ==> r.pipelines[n] == pipelines[n]
  {
    if name in pipelines then Lookup(pipelines[name], pipelines)
    else Lookup(PipelineOf(c, Service.DefaultService), pipelines[name := PipelineOf(c, Service.DefaultService)])
  }

  /** Every cached entry is the pipeline the legacy service uses for its name. */
  ghost predicate Consistent(c: ResilienceConfiguration, pipelines: map<string, Pipeline>) {
    forall n {:trigger pipelines[n]} :: n in pipelines ==> pipelines[n] == PipelineFor(c, n)
  }

  ghost predicate CacheInvariant(c: ResilienceConfiguration, pipelines: map<string, Pipeline>) {
    Service.PredefinedNames <= pipelines.Keys && Consistent(c, pipelines)
  }

  /** The three shapes the two copies share are the same pipelines. */
  lemma SharedShapesAgree(c: ResilienceConfiguration, k: Service.ServiceKind)
    requires k != Service.DatabaseService
    ensures PipelineOf(c, k) == Service.PipelineOf(c, k)
  {
    LowerCaseBackoffTypeAgrees(c.retry.backoffStrategy);
  }

  /** The database pipeline has no breaker, and its retry handles every exception. */
  lemma DatabasePipelineShape(c: ResilienceConfiguration, e: Exception)
    ensures BreakerIn(DatabasePipeline(c).stages).None?
    ensures RetryIn(DatabasePipeline(c).stages).Some? <==> c.retry.enabled
    ensures c.retry.enabled ==> Handles(RetryIn(DatabasePipeline(c).stages).value.shouldHandle, e)
    ensures TimeoutIn(DatabasePipeline(c).stages)
            == if c.timeout.enabled then Some(1000 * c.timeout.databaseTimeoutSeconds) else None
  {
    ComposeHoldsItsParts(
      if c.retry.enabled then
        Some(GlobalRetry(c.retry, AnyException, LowerCaseBackoffType(c.retry.backoffStrategy)))
      else None,
      None,
      if c.timeout.enabled then Some(1000 * c.timeout.databaseTimeoutSeconds) else None);
  }

  /** With the breaker enabled, the two copies build different database pipelines. */
  lemma DatabasePipelinesDiffer(c: ResilienceConfiguration)
    requires c.circuitBreaker.enabled
    ensures DatabasePipeline(c) != Service.DatabasePipeline(c)
  {
    ComposeHoldsItsParts(
      if c.retry.enabled then
        Some(GlobalRetry(c.retry, AnyException, LowerCaseBackoffType(c.retry.backoffStrategy)))
      else None,
      None,
      if c.timeout.enabled then Some(1000 * c.timeout.databaseTimeoutSeconds) else None);
    ComposeHoldsItsParts(
      if c.retry.enabled then
        Some(GlobalRetry(c.retry, DetectorTransient, Pipelines.GetBackoffType(c.retry.backoffStrategy)))
      else None,
      Some(GlobalBreaker(c.circuitBreaker, DetectorTransientOrConnection)),
      if c.timeout.enabled then Some(1000 * c.timeout.databaseTimeoutSeconds) else None);
  }

  /** A lookup in a consistent cache yields the pipeline for the name. */
  lemma ResolveYieldsPipelineFor(c: ResilienceConfiguration, pipelines: map<string, Pipeline>, name: string)
    requires CacheInvariant(c, pipelines)
    ensures Resolve(c, pipelines, name).pipeline == PipelineFor(c, name)
  {
    if name !in pipelines {
      assert name !in Service.PredefinedNames;
      Service.UnknownNamesShareTheDefaultShape(c, name);
    }
  }

  /** A lookup keeps the invariant and adds at most the name looked up. */
  lemma ResolveKeepsCacheInvariant(c: ResilienceConfiguration, pipelines: map<string, Pipeline>, name: string)
    requires CacheInvariant(c, pipelines)
    ensures var r := Resolve(c, pipelines, name);
      CacheInvariant(c, r.pipelines) && r.pipelines.Keys == pipelines.Keys + {name}
  {
    if name !in pipelines {
      assert name !in Service.PredefinedNames;
      Service.UnknownNamesShareTheDefaultShape(c, name);
    }
  }

  /** There is no ceiling: a new name is stored however large the cache is, and a second lookup finds it. */
  lemma ResolveMissAlwaysStores(c: ResilienceConfiguration, pipelines: map<string, Pipeline>, name: string)
    requires name !in pipelines
    ensures var r := Resolve(c, pipelines, name);
      |r.pipelines| == |pipelines| + 1 && r.pipelines[name] == r.pipeline
      && r.pipeline == PipelineOf(c, Service.DefaultService)
      && Resolve(c, r.pipelines, name) == r
  {
  }

  class ResilienceService {
    const configuration: ResilienceConfiguration
    var pipelines: map<string, Pipeline>

    ghost predicate Valid()
      reads this
    {
      CacheInvariant(configuration, pipelines)
    }

    constructor(configuration: ResilienceConfiguration)
      ensures Valid() && this.configuration == configuration
      ensures pipelines.Keys == Service.PredefinedNames
    {
      this.configuration := configuration;
      pipelines := map[];
      new;
      InitializePipelines();
    }

    /** Assigns the four predefined pipelines, replacing entries that are already there. */
    method InitializePipelines()
      requires Consistent(configuration, pipelines)
      modifies this`pipelines
      ensures Consistent(configuration, pipelines)
      ensures pipelines.Keys == old(pipelines).Keys + Service.PredefinedNames
    {
      ghost var before := pipelines.Keys;
      Put(Service.DefaultService);
      Put(Service.HttpClientService);
      Put(Service.DatabaseService);
      Put(Service.CacheService);
      Service.AddingEveryNameAddsPredefinedNames(before);
    }

    /** One indexer assignment `_pipelines[name] = Create…Pipeline()`. */
    method Put(k: Service.ServiceKind)
      requires Consistent(configuration, pipelines)
      modifies this`pipelines
      ensures Consistent(configuration, pipelines)
      ensures pipelines == old(pipelines)[Service.NameOf(k) := PipelineOf(configuration, k)]
      ensures pipelines.Keys == old(pipelines).Keys + {Service.NameOf(k)}
    {
      var p;
      match k {
        case DefaultService => p := CreateDefaultPipeline();
        case HttpClientService => p := CreateHttpClientPipeline();
        case DatabaseService => p := CreateDatabasePipeline();
        case CacheService => p := CreateCachePipeline();
      }
      Service.PredefinedNamesSelectTheirShapes(configuration, k);
      assert p == PipelineFor(configuration, Service.NameOf(k));
      pipelines := pipelines[Service.NameOf(k) := p];
    }

    method CreateDefaultPipeline() returns (p: Pipeline)
      ensures p == PipelineOf(configuration, Service.DefaultService)
    {
      var c := configuration;
      var backoff := LowerCaseBackoffType(c.retry.backoffStrategy);
      var retry := if c.retry.enabled then Some(GlobalRetry(c.retry, Service.DefaultFilter, backoff)) else None;
      var breaker := if c.circuitBreaker.enabled then Some(GlobalBreaker(c.circuitBreaker, Service.DefaultFilter)) else None;
      var timeout := if c.timeout.enabled then Some(1000 * c.timeout.defaultTimeoutSeconds) else None;
      p := BuildPipeline(retry, breaker, timeout);
    }

    method CreateHttpClientPipeline() returns (p: Pipeline)
      ensures p == PipelineOf(configuration, Service.HttpClientService)
    {
      var c := configuration;
      var backoff := LowerCaseBackoffType(c.retry.backoffStrategy);
      var retry := if c.retry.enabled then Some(GlobalRetry(c.retry, Service.HttpFilter, backoff)) else None;
      var breaker := if c.circuitBreaker.enabled then Some(Service.HttpBreaker) else None;
      var timeout := if c.timeout.enabled then Some(1000 * c.timeout.externalApiTimeoutSeconds) else None;
      p := BuildPipeline(retry, breaker, timeout);
    }

    method CreateDatabasePipeline() returns (p: Pipeline)
      ensures p == PipelineOf(configuration, Service.DatabaseService)
    {
      var c := configuration;
      var retry := if c.retry.enabled then
        Some(GlobalRetry(c.retry, AnyException, LowerCaseBackoffType(c.retry.backoffStrategy))) else None;
      var timeout := if c.timeout.enabled then Some(1000 * c.timeout.databaseTimeoutSeconds) else None;
      p := BuildPipeline(retry, None, timeout);
    }

    method CreateCachePipeline() returns (p: Pipeline)
      ensures p == PipelineOf(configuration, Service.CacheService)
    {
      var c := configuration;
      var retry := if c.retry.enabled then Some(Service.CacheRetry) else None;
      var timeout := if c.timeout.enabled then Some(1000 * c.timeout.cacheTimeoutSeconds) else None;
      p := BuildPipeline(retry, None, timeout);
    }

    method GetOrCreatePipeline(serviceName: string) returns (p: Pipeline)
      requires Valid()
      modifies this`pipelines
      ensures Valid()
      ensures var r := Resolve(configuration, old(pipelines), serviceName);
        p == r.pipeline && pipelines == r.pipelines
      ensures p == PipelineFor(configuration, serviceName)
    {
      ResolveKeepsCacheInvariant(configuration, pipelines, serviceName);
      ResolveYieldsPipelineFor(configuration, pipelines, serviceName);
      if serviceName in pipelines {
        return pipelines[serviceName];
      }
      p := CreateDefaultPipeline();
      pipelines := pipelines[serviceName := p];
    }

    /** `context ?? new Dictionary<string, object>()`, then the four keys written into it. */
    method EnrichContext(context: Context?, operationName: string, serviceName: string, now: int)
      returns (r: Context)
      modifies context
      ensures context != null ==>
        r == context && r.entries == Enriched(old(context.entries), operationName, serviceName, configuration.enabled, now)
      ensures context == null ==>
        fresh(r) && r.entries == Enriched(map[], operationName, serviceName, configuration.enabled, now)
    {
      if context != null {
        r := context;
      } else {
        r := new Context(map[]);
      }
      r.entries := r.entries[OperationNameKey := TextValue(operationName)];
      r.entries := r.entries[ServiceNameKey := TextValue(serviceName)];
      r.entries := r.entries[ResilienceEnabledKey := FlagValue(configuration.enabled)];
      r.entries := r.entries[TimestampKey := TimestampValue(now)];
    }

    /**
      Runs `operation` through the pipeline for `serviceName`; `run` stands
      for Polly executing a pipeline, `now` for the clock. A failure is
      rethrown unchanged.
     */
    method ExecuteWithResilience<T>(operation: Outcome<T>, operationName: string, serviceName: string := Service.DefaultServiceName,
                                    context: Context? := null, now: int,
                                    run: (Pipeline, Outcome<T>) -> Outcome<T>)
      returns (r: Outcome<T>)
      requires Valid()
      modifies this`pipelines, context
      ensures Valid()
      ensures !configuration.enabled ==>
        r == operation && pipelines == old(pipelines)
        && (context != null ==> context.entries == old(context.entries))
      ensures configuration.enabled ==>
        var res := Resolve(configuration, old(pipelines), serviceName);
        r == run(res.pipeline, operation) && res.pipeline == PipelineFor(configuration, serviceName)
        && pipelines == res.pipelines
        && (context != null ==> context.entries == Enriched(old(context.entries), operationName, serviceName, true, now))
    {
      if !configuration.enabled {
        return operation;
      }
      var pipeline := GetOrCreatePipeline(serviceName);
      var enriched := EnrichContext(context, operationName, serviceName, now);
      r := run(pipeline, operation);
    }

    method ExecuteHttpWithResilience(httpOperation: Outcome<Service.HttpResponseMessage>, operationName: string,
                                     serviceName: string := Service.HttpClientServiceName, context: Context? := null,
                                     now: int, run: (Pipeline, Outcome<Service.HttpResponseMessage>) -> Outcome<Service.HttpResponseMessage>)
      returns (r: Outcome<Service.HttpResponseMessage>)
      requires Valid()
      modifies this`pipelines, context
      ensures Valid()
      ensures !configuration.enabled ==>
        r == httpOperation && pipelines == old(pipelines)
        && (context != null ==> context.entries == old(context.entries))
      ensures configuration.enabled ==>
        r == run(PipelineFor(configuration, serviceName), httpOperation)
        && pipelines == Resolve(configuration, old(pipelines), serviceName).pipelines
        && (context != null ==> context.entries == Enriched(old(context.entries), operationName, serviceName, true, now))
    {
      r := ExecuteWithResilience(httpOperation, operationName, serviceName, context, now, run);
    }

    method ExecuteDatabaseWithResilience<T>(databaseOperation: Outcome<T>, operationName: string,
                                            context: Context? := null, now: int,
                                            run: (Pipeline, Outcome<T>) -> Outcome<T>)
      returns (r: Outcome<T>)
      requires Valid()
      modifies this`pipelines, context
      ensures Valid()
      ensures !configuration.enabled ==>
        r == databaseOperation && pipelines == old(pipelines)
        && (context != null ==> context.entries == old(context.entries))
      ensures configuration.enabled ==>
        r == run(DatabasePipeline(configuration), databaseOperation)
        && pipelines == Resolve(configuration, old(pipelines), Service.DatabaseServiceName).pipelines
        && (context != null ==> context.entries == Enriched(old(context.entries), operationName, Service.DatabaseServiceName, true, now))
    {
      r := ExecuteWithResilience(databaseOperation, operationName, Service.DatabaseServiceName, context, now, run);
    }

    /**
      Runs the primary operation and, when it fails, the fallback. With
      resilience and fallback enabled the pair runs inside the pipeline for
      `serviceName`.
     */
    method ExecuteWithFallback<T>(primaryOperation: Outcome<T>, fallbackOperation: Outcome<T>, operationName: string,
                                  serviceName: string := Service.DefaultServiceName, context: Context? := null, now: int,
                                  run: (Pipeline, Outcome<T>) -> Outcome<T>)
      returns (r: Outcome<T>)
      requires Valid()
      modifies this`pipelines, context
      ensures Valid()
      ensures !configuration.enabled || !configuration.fallback.enabled ==>
        r == Service.PrimaryOrFallback(primaryOperation, fallbackOperation)
        && pipelines == old(pipelines)
        && (context != null ==> context.entries == old(context.entries))
      ensures configuration.enabled && configuration.fallback.enabled ==>
        var res := Resolve(configuration, old(pipelines), serviceName);
        r == run(res.pipeline, Service.PrimaryOrFallback(primaryOperation, fallbackOperation))
        && pipelines == res.pipelines
        && (context != null ==> context.entries == Enriched(old(context.entries), operationName, serviceName, true, now))
    {
      if !configuration.enabled || !configuration.fallback.enabled {
        return Service.PrimaryOrFallback(primaryOperation, fallbackOperation);
      }
      var pipeline := GetOrCreatePipeline(serviceName);
      var enriched := EnrichContext(context, operationName, serviceName, now);
      r := run(pipeline, Service.PrimaryOrFallback(primaryOperation, fallbackOperation));
    }
  }
}
