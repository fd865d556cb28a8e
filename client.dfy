/**
  `ResilienceClient`: runs operations through named pipelines read from the
  `Pipelines` section, caching each built pipeline by name up to a fixed
  ceiling, and reports what happens to the registered event sinks.
 */
module Client {
  import opened Wrappers
  import opened Exceptions
  import opened Configuration
  import opened DatabaseExceptionDetector
  import opened Pipelines

  const MaxPipelineCacheSize := 100

  /** What an event's text says; the text itself is an interpolated string. */
  datatype Note =
    | Executing | Completed | OperationFailedNote
    | CacheLimitReached | NotConfigured | PipelineDisabled

  datatype ResilienceEvent = ResilienceEvent(
    eventType: string,
    pipelineName: string,
    note: Note,
    exception: Option<Exception>)

  /** An `IResilienceEventSink`, described by the events on which its `OnEvent` throws. */
  datatype Sink = Sink(throwsOn: ResilienceEvent -> bool)

  /** One call of a sink's `OnEvent`: which sink, with which event, and whether it threw. */
  datatype Delivery = Delivery(sink: nat, evt: ResilienceEvent, threw: bool)

  /** Every sink receives the event once, in registration order. */
  function Deliver(sinks: seq<Sink>, evt: ResilienceEvent): (d: seq<Delivery>)
    ensures |d| == |sinks|
    ensures forall i :: 0 <= i < |d| ==> d[i] == Delivery(i, evt, sinks[i].throwsOn(evt))
  {
    seq(|sinks|, i requires 0 <= i < |sinks| => Delivery(i, evt, sinks[i].throwsOn(evt)))
  }

  /** The deliveries of a sequence of events, event after event. */
  function DeliverAll(sinks: seq<Sink>, evts: seq<ResilienceEvent>): seq<Delivery> {
    if evts == [] then []
    else DeliverAll(sinks, evts[..|evts| - 1]) + Deliver(sinks, evts[|evts| - 1])
  }

  lemma DeliverAllAppend(sinks: seq<Sink>, evts: seq<ResilienceEvent>, evt: ResilienceEvent)
    ensures DeliverAll(sinks, evts + [evt]) == DeliverAll(sinks, evts) + Deliver(sinks, evt)
  {
    assert (evts + [evt])[..|evts|] == evts;
  }

  function CacheLimitEvent(name: string): ResilienceEvent {
    ResilienceEvent("OperationFailed", name, CacheLimitReached, None)
  }

  function StartedEvent(name: string): ResilienceEvent {
    ResilienceEvent("OperationStarted", name, Executing, None)
  }

  /** The event that closes an execution: success, or failure carrying the error. */
  function OutcomeEvent<T>(name: string, r: Outcome<T>): ResilienceEvent {
    if r.Ok? then ResilienceEvent("OperationSucceeded", name, Completed, None)
    else ResilienceEvent("OperationFailed", name, OperationFailedNote, Some(r.error))
  }

  /** The pipeline used when a name has no enabled configuration, or the cache is full. */
  function DefaultPipeline(c: ResilienceConfiguration): Pipeline {
    Compose(
      if c.retry.enabled then
        Some(GlobalRetry(c.retry, DetectorTransient, GetBackoffType(c.retry.backoffStrategy)))
      else None,
      if c.circuitBreaker.enabled then Some(GlobalBreaker(c.circuitBreaker, DetectorTransientOrConnection)) else None,
      if c.timeout.enabled then Some(1000 * c.timeout.defaultTimeoutSeconds) else None)
  }

  /** The retry strategy of a named pipeline. */
  function PipelineRetry(r: PipelineRetryConfiguration): (o: RetryOptions)
    ensures r.delayMilliseconds > 0 ==> o.delayMs == r.delayMilliseconds
    ensures r.delayMilliseconds <= 0 ==> o.delayMs == 1000 * r.delaySeconds
    ensures o.maxDelayMs == 30000
    ensures o.shouldHandle == PipelineRetryFilter(r.handleDeadlocks, r.handleTimeouts)
    ensures o.maxRetryAttempts == r.maxRetryAttempts && o.backoffType == GetBackoffType(r.backoffType)
  {
    RetryOptions(
      PipelineRetryFilter(r.handleDeadlocks, r.handleTimeouts),
      r.maxRetryAttempts,
      if r.delayMilliseconds > 0 then r.delayMilliseconds else 1000 * r.delaySeconds,
      30000,
      GetBackoffType(r.backoffType))
  }

  /** The circuit-breaker strategy of a named pipeline. */
  function PipelineBreaker(b: PipelineCircuitBreakerConfiguration): CircuitBreakerOptions {
    CircuitBreakerOptions(DetectorTransientOrConnection, b.failureRatio, 1000 * b.samplingDurationSeconds,
                          b.minimumThroughput, 1000 * b.breakDurationSeconds)
  }

  /** The pipeline an enabled named configuration describes. */
  function FromPipelineConfiguration(pc: PipelineConfiguration): Pipeline {
    Compose(
      if pc.retry.Some? then Some(PipelineRetry(pc.retry.value)) else None,
      if pc.circuitBreaker.Some? && pc.circuitBreaker.value.enabled then Some(PipelineBreaker(pc.circuitBreaker.value)) else None,
      if pc.timeout.Some? && pc.timeout.value.enabled then Some(1000 * pc.timeout.value.timeoutSeconds) else None)
  }

  /** The pipeline the client builds for a name: its enabled configuration, else the default. */
  function PipelineFor(c: ResilienceConfiguration, name: string): Pipeline {
    if name in c.pipelines && c.pipelines[name].enabled then FromPipelineConfiguration(c.pipelines[name])
    else DefaultPipeline(c)
  }

  /** The events building a pipeline for a name reports. */
  function ConfigurationEvents(c: ResilienceConfiguration, name: string): seq<ResilienceEvent> {
    if name !in c.pipelines then [ResilienceEvent("OperationStarted", name, NotConfigured, None)]
    else if !c.pipelines[name].enabled then [ResilienceEvent("OperationStarted", name, PipelineDisabled, None)]
    else []
  }

  /** The result of looking a name up in the cache: the pipeline, the new cache and counter, the events. */
  datatype Resolution = Resolution(pipeline: Pipeline, pipelines: map<string, Pipeline>, count: int,
                                   events: seq<ResilienceEvent>)

  function Resolve(c: ResilienceConfiguration, pipelines: map<string, Pipeline>, count: int, name: string): (r: Resolution)
    ensures pipelines.Keys <= r.pipelines.Keys <= pipelines.Keys + {name}
    ensures forall n :: n in pipelines ==> r.pipelines[n] == pipelines[n]
    ensures name in r.pipelines ==> r.pipelines[name] == r.pipeline
    ensures r.count - count == |r.pipelines| - |pipelines|
  {
    if name in pipelines then Resolution(pipelines[name], pipelines, count, [])
    else if count >= MaxPipelineCacheSize then Resolution(DefaultPipeline(c), pipelines, count, [CacheLimitEvent(name)])
    else Resolution(PipelineFor(c, name), pipelines[name := PipelineFor(c, name)], count + 1, ConfigurationEvents(c, name))
  }

  /** The cache invariant: the counter is the size, within the ceiling, and every entry is the configured pipeline. */
  ghost predicate CacheInvariant(c: ResilienceConfiguration, pipelines: map<string, Pipeline>, count: int) {
    count == |pipelines| <= MaxPipelineCacheSize
    && forall n :: n in pipelines ==> pipelines[n] == PipelineFor(c, n)
  }

  /** A lookup keeps the cache invariant: the counter is the size, never above the ceiling. */
  lemma ResolveKeepsCacheInvariant(c: ResilienceConfiguration, pipelines: map<string, Pipeline>, count: int, name: string)
    requires CacheInvariant(c, pipelines, count)
    ensures var r := Resolve(c, pipelines, count, name); CacheInvariant(c, r.pipelines, r.count)
  {
    if name !in pipelines && count < MaxPipelineCacheSize {
      assert |pipelines[name := PipelineFor(c, name)]| == |pipelines| + 1;
    }
  }

  /** A lookup returns the configured pipeline for the name unless the name is new and the cache is full. */
  lemma ResolveReturnsConfiguredPipeline(c: ResilienceConfiguration, pipelines: map<string, Pipeline>, count: int, name: string)
    requires CacheInvariant(c, pipelines, count)
    requires name in pipelines || count < MaxPipelineCacheSize
    ensures Resolve(c, pipelines, count, name).pipeline == PipelineFor(c, name)
  {
  }

  /** A hit returns the stored pipeline and changes nothing and reports nothing. */
  lemma ResolveHitChangesNothing(c: ResilienceConfiguration, pipelines: map<string, Pipeline>, count: int, name: string)
    requires name in pipelines
    ensures Resolve(c, pipelines, count, name) == Resolution(pipelines[name], pipelines, count, [])
  {
  }

  /** A new name with a full cache gets a fresh default pipeline that is not stored, and one cache-limit event. */
  lemma ResolveAtCeiling(c: ResilienceConfiguration, pipelines: map<string, Pipeline>, count: int, name: string)
    requires name !in pipelines && count >= MaxPipelineCacheSize
    ensures var r := Resolve(c, pipelines, count, name);
      r.pipeline == DefaultPipeline(c) && r.pipelines == pipelines && r.count == count
      && r.events == [CacheLimitEvent(name)]
  {
  }

  /** A new name below the ceiling is stored under that name and the counter goes up by one. */
  lemma ResolveMissStores(c: ResilienceConfiguration, pipelines: map<string, Pipeline>, count: int, name: string)
    requires name !in pipelines && count < MaxPipelineCacheSize
    ensures var r := Resolve(c, pipelines, count, name);
      r.pipelines.Keys == pipelines.Keys + {name} && r.pipelines[name] == r.pipeline
      && (forall n :: n in pipelines ==> r.pipelines[n] == pipelines[n])
      && r.count == count + 1 && r.events == ConfigurationEvents(c, name)
  {
  }

  /** Once a name is cached, looking it up again returns the same pipeline and changes nothing. */
  lemma ResolveIsIdempotent(c: ResilienceConfiguration, pipelines: map<string, Pipeline>, count: int, name: string)
    requires CacheInvariant(c, pipelines, count)
    requires name in pipelines || count < MaxPipelineCacheSize
    ensures var r := Resolve(c, pipelines, count, name);
      var again := Resolve(c, r.pipelines, r.count, name);
      again.pipeline == r.pipeline && again.pipelines == r.pipelines && again.count == r.count && again.events == []
  {
  }

  /**
    The cache-limit notice is reported with the type "OperationFailed", so a
    call that succeeds after a full-cache lookup still reports a failure
    event before its success.
   */
  lemma FullCacheSuccessReportsAFailureEvent<T>(c: ResilienceConfiguration, pipelines: map<string, Pipeline>,
                                                count: int, name: string, r: Outcome<T>)
    requires name !in pipelines && count >= MaxPipelineCacheSize && r.Ok?
    ensures var log := Resolve(c, pipelines, count, name).events + [StartedEvent(name), OutcomeEvent(name, r)];
      log[0].eventType == "OperationFailed" && log[|log| - 1].eventType == "OperationSucceeded"
  {
  }

  /**
    The default configuration gives the default pipeline a detector-driven
    retry (3 attempts, 1 s doubling up to 30 s), a breaker (ratio 0.5 over
    30 s, at least 2 calls, open for 60 s) and a 30 s timeout.
   */
  lemma DefaultConfigurationPipeline()
    ensures DefaultPipeline(ResilienceConfiguration()) == Pipeline([
      RetryStage(RetryOptions(DetectorTransient, 3, 1000, 30000, Exponential)),
      CircuitBreakerStage(CircuitBreakerOptions(DetectorTransientOrConnection, 0.5, 30000, 2, 60000)),
      TimeoutStage(30000)])
  {
    NewResilienceConfigurationDefaults();
    NewRetryConfigurationDefaults();
    NewCircuitBreakerConfigurationDefaults();
    NewTimeoutConfigurationDefaults();
    DefaultSectionsPipeline(ResilienceConfiguration());
  }

  /** The default pipeline of any configuration whose three global sections hold their defaults. */
  lemma DefaultSectionsPipeline(c: ResilienceConfiguration)
    requires c.retry.enabled && c.retry.maxRetryAttempts == 3 && c.retry.baseDelayMilliseconds == 1000
    requires c.retry.maxDelayMilliseconds == 30000 && c.retry.backoffStrategy == "Exponential"
    requires c.circuitBreaker.enabled && c.circuitBreaker.samplingDurationSeconds == 30
    requires c.circuitBreaker.minimumThroughput == 2 && c.circuitBreaker.durationOfBreakSeconds == 60
    requires !c.circuitBreaker.enableAdvancedCircuitBreaker
    requires c.timeout.enabled && c.timeout.defaultTimeoutSeconds == 30
    ensures DefaultPipeline(c) == Pipeline([
      RetryStage(RetryOptions(DetectorTransient, 3, 1000, 30000, Exponential)),
      CircuitBreakerStage(CircuitBreakerOptions(DetectorTransientOrConnection, 0.5, 30000, 2, 60000)),
      TimeoutStage(30000)])
  {
    GetBackoffTypeOfName(Exponential);
  }

  /** A configured pipeline with no strategy sections is an empty pipeline, not the default one. */
  lemma EmptyPipelineConfigurationBuildsNoStages()
    ensures FromPipelineConfiguration(PipelineConfiguration()) == Pipeline([])
  {
  }

  /** The strategies of a named pipeline: retry whenever configured, breaker and timeout only when enabled. */
  lemma FromPipelineConfigurationStages(pc: PipelineConfiguration)
    ensures var p := FromPipelineConfiguration(pc);
      WellOrdered(p)
      && (RetryIn(p.stages).Some? <==> pc.retry.Some?)
      && (BreakerIn(p.stages).Some? <==> pc.circuitBreaker.Some? && pc.circuitBreaker.value.enabled)
      && (TimeoutIn(p.stages).Some? <==> pc.timeout.Some? && pc.timeout.value.enabled)
      && (BreakerIn(p.stages).Some? ==> BreakerIn(p.stages).value.shouldHandle == DetectorTransientOrConnection)
  {
    ComposeHoldsItsParts(
      if pc.retry.Some? then Some(PipelineRetry(pc.retry.value)) else None,
      if pc.circuitBreaker.Some? && pc.circuitBreaker.value.enabled then Some(PipelineBreaker(pc.circuitBreaker.value)) else None,
      if pc.timeout.Some? && pc.timeout.value.enabled then Some(1000 * pc.timeout.value.timeoutSeconds) else None);
  }

  /** `ReturnTrue` turns a void action into one returning `true`; `Discard` drops the value again. */
  function ReturnTrue(action: Outcome<()>): Outcome<bool> {
    match action
    case Ok(_) => Ok(true)
    case Err(e) => Err(e)
  }

  function Discard(r: Outcome<bool>): Outcome<()> {
    match r
    case Ok(_) => Ok(())
    case Err(e) => Err(e)
  }

  lemma DiscardReturnTrue(action: Outcome<()>)
    ensures Discard(ReturnTrue(action)) == action
  {
    match action
    case Ok(u) => assert u == ();
    case Err(_) =>
  }

  class ResilienceClient {
    const configuration: ResilienceConfiguration
    const sinks: seq<Sink>
    var pipelines: map<string, Pipeline>
    var pipelineCount: int
    /** The events emitted so far, in order. */
    ghost var events: seq<ResilienceEvent>
    /** The calls of the sinks' `OnEvent` so far, in order. */
    ghost var deliveries: seq<Delivery>

    ghost predicate Valid()
      reads this
    {
      CacheInvariant(configuration, pipelines, pipelineCount)
      && deliveries == DeliverAll(sinks, events)
    }

    constructor(configuration: ResilienceConfiguration, sinks: seq<Sink>)
      ensures Valid()
      ensures this.configuration == configuration && this.sinks == sinks
      ensures pipelines == map[] && pipelineCount == 0 && events == []
    {
      this.configuration := configuration;
      this.sinks := sinks;
      pipelines := map[];
      pipelineCount := 0;
      events := [];
      deliveries := [];
    }

    /** Hands the event to every sink in order; an exception thrown by a sink is swallowed. */
    method Emit(evt: ResilienceEvent)
      requires Valid()
      modifies this`events, this`deliveries
      ensures Valid()
      ensures events == old(events) + [evt]
      ensures deliveries == old(deliveries) + Deliver(sinks, evt)
    {
      ghost var before := deliveries;
      ghost var all := Deliver(sinks, evt);
      for i := 0 to |sinks|
        invariant deliveries == before + all[..i]
        invariant events == old(events)
      {
        assert all[..i + 1] == all[..i] + [Delivery(i, evt, sinks[i].throwsOn(evt))];
        deliveries := deliveries + [Delivery(i, evt, sinks[i].throwsOn(evt))];
      }
      assert all[..|sinks|] == all;
      DeliverAllAppend(sinks, events, evt);
      events := events + [evt];
    }

    method CreateDefaultPipeline() returns (p: Pipeline)
      ensures p == DefaultPipeline(configuration)
    {
      var c := configuration;
      var retry := if c.retry.enabled then
        Some(GlobalRetry(c.retry, DetectorTransient, GetBackoffType(c.retry.backoffStrategy)))
        else None;
      var breaker := if c.circuitBreaker.enabled then Some(GlobalBreaker(c.circuitBreaker, DetectorTransientOrConnection)) else None;
      var timeout := if c.timeout.enabled then Some(1000 * c.timeout.defaultTimeoutSeconds) else None;
      p := BuildPipeline(retry, breaker, timeout);
    }

    method CreatePipelineFromConfiguration(name: string) returns (p: Pipeline)
      requires Valid()
      modifies this`events, this`deliveries
      ensures Valid()
      ensures p == PipelineFor(configuration, name)
      ensures events == old(events) + ConfigurationEvents(configuration, name)
    {
      if name !in configuration.pipelines {
        Emit(ResilienceEvent("OperationStarted", name, NotConfigured, None));
        p := CreateDefaultPipeline();
        return;
      }
      var pc := configuration.pipelines[name];
      if !pc.enabled {
        Emit(ResilienceEvent("OperationStarted", name, PipelineDisabled, None));
        p := CreateDefaultPipeline();
        return;
      }
      p := BuildFromPipelineConfiguration(pc);
    }

    /** The builder calls for an enabled named configuration. */
    method BuildFromPipelineConfiguration(pc: PipelineConfiguration) returns (p: Pipeline)
      ensures p == FromPipelineConfiguration(pc)
    {
      var retry := if pc.retry.Some? then Some(PipelineRetry(pc.retry.value)) else None;
      var breaker := if pc.circuitBreaker.Some? && pc.circuitBreaker.value.enabled then
        Some(PipelineBreaker(pc.circuitBreaker.value)) else None;
      var timeout := if pc.timeout.Some? && pc.timeout.value.enabled then Some(1000 * pc.timeout.value.timeoutSeconds) else None;
      p := BuildPipeline(retry, breaker, timeout);
    }

    method GetOrCreatePipeline(name: string) returns (p: Pipeline)
      requires Valid()
      modifies this
      ensures Valid()
      ensures var r := Resolve(configuration, old(pipelines), old(pipelineCount), name);
        p == r.pipeline && pipelines == r.pipelines && pipelineCount == r.count
        && events == old(events) + r.events
    {
      if name in pipelines {
        return pipelines[name];
      }
      if pipelineCount >= MaxPipelineCacheSize {
        Emit(CacheLimitEvent(name));
        p := CreateDefaultPipeline();
        return;
      }
      p := CreatePipelineFromConfiguration(name);
      pipelines := pipelines[name := p];
      pipelineCount := pipelineCount + 1;
    }

    /**
      Runs `action` through the pipeline for `pipelineName`; `run` stands for
      Polly executing a pipeline around an operation. The outcome is returned
      unchanged: a failure is reported and then rethrown.
     */
    method Execute<T>(pipelineName: string, action: Outcome<T>, run: (Pipeline, Outcome<T>) -> Outcome<T>)
      returns (r: Outcome<T>)
      requires Valid()
      modifies this
      ensures Valid()
      ensures !configuration.enabled ==>
        r == action && pipelines == old(pipelines) && pipelineCount == old(pipelineCount) && events == old(events)
      ensures configuration.enabled ==>
        var res := Resolve(configuration, old(pipelines), old(pipelineCount), pipelineName);
        r == run(res.pipeline, action)
        && pipelines == res.pipelines && pipelineCount == res.count
        && events == old(events) + res.events + [StartedEvent(pipelineName), OutcomeEvent(pipelineName, r)]
    {
      if !configuration.enabled {
        return action;
      }
      ghost var res := Resolve(configuration, pipelines, pipelineCount, pipelineName);
      var pipeline := GetOrCreatePipeline(pipelineName);
      ghost var resolved := events;
      assert resolved == old(events) + res.events;
      Emit(StartedEvent(pipelineName));
      r := run(pipeline, action);
      // the success report on the normal path, the failure report in the catch block
      Emit(OutcomeEvent(pipelineName, r));
      assert events == resolved + [StartedEvent(pipelineName), OutcomeEvent(pipelineName, r)];
    }

    /** The overload for actions without a result: the generic path with an action returning `true`. */
    method ExecuteVoid(pipelineName: string, action: Outcome<()>, run: (Pipeline, Outcome<bool>) -> Outcome<bool>)
      returns (r: Outcome<()>)
      requires Valid()
      modifies this
      ensures Valid()
      ensures !configuration.enabled ==>
        r == action && pipelines == old(pipelines) && pipelineCount == old(pipelineCount) && events == old(events)
      ensures configuration.enabled ==>
        var res := Resolve(configuration, old(pipelines), old(pipelineCount), pipelineName);
        var b := run(res.pipeline, ReturnTrue(action));
        r == Discard(b)
        && pipelines == res.pipelines && pipelineCount == res.count
        && events == old(events) + res.events + [StartedEvent(pipelineName), OutcomeEvent(pipelineName, b)]
    {
      var b := Execute(pipelineName, ReturnTrue(action), run);
      DiscardReturnTrue(action);
      r := Discard(b);
    }
  }
}
