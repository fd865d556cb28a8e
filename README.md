# JonjubNet.Resilience in Dafny

This project models the decision logic of JonjubNet.Resilience, a .NET library that wraps operations in Polly resilience pipelines (retry, circuit breaker, timeout). The model covers:

- **Configuration.** The records bound from the `Resilience` configuration section, with their default values (`Configuration`).
- **Exception classifier.** `DatabaseExceptionDetector` decides whether a failure is transient (worth retrying) or a connectivity failure. It works from the exception's framework kind, its runtime type name, a provider's `Number` or `SqlState`, and case-insensitive message patterns. It recurses through the inner exception of `DbUpdateException` (`DatabaseExceptionDetector`, with `Exceptions` and `Text`).
- **Pipelines as descriptors.** A Polly pipeline is the ordered list of strategies added to a `ResiliencePipelineBuilder`, each stage with its options. The module also holds the backoff-name mapping and the exception filters (`Pipelines`).
- **`ResilienceClient`.** Named pipelines are built from the `Pipelines` section and cached by name up to 100 entries. Execution reports events to sinks, and a sink that throws is ignored (`Client`).
- **The Polly `ResilienceService`.** It has four predefined pipelines (Default, HttpClient, Database, Cache) and a capped cache of further names. It enriches the caller's context dictionary and combines a primary operation with a fallback (`Service`, with `OperationContext`).
- **The legacy `ResilienceService`.** The same methods, with three differences: a lower-casing backoff switch, a database pipeline without a breaker that retries every exception, and an unbounded cache (`LegacyService`).

How the code is represented:

- Exceptions are a closed datatype whose `kind` is the framework type the code tests with `is`.
- An operation is its outcome, `Ok(value)` or `Err(exception)`.
- Polly's execution of a pipeline around an operation is a function parameter `run`. The model states which pipeline is handed to it and what the service does with its result.
- The cached dictionaries are `map` fields of classes, updated in place by their methods.
- The caller's context dictionary is a `Context` object whose entries a method rewrites.
- The event log and the calls made to each sink are ghost fields of the client.

## Model

| member | source | states |
|---|---|---|
| Exceptions.Plain | Infrastructure/JonjubNet.Resilience.Polly/Services/DatabaseExceptionDetector.cs:63-69 | an exception with no provider fields, inner exception or failing getter, reporting the given kind, type name and message |
| DatabaseExceptionDetector.CheckMessagePatterns | Infrastructure/JonjubNet.Resilience.Polly/Services/DatabaseExceptionDetector.cs:271-283 | true exactly when the message is non-empty and contains, ignoring case, one of the nine connection patterns |
| DatabaseExceptionDetector.IsTransientSqlServerError | Infrastructure/JonjubNet.Resilience.Polly/Services/DatabaseExceptionDetector.cs:155-178 | false when reading `Number` throws; otherwise true exactly when the number is one of the ten SQL Server codes or, failing that, the message check holds |
| DatabaseExceptionDetector.IsTransientPostgreSqlError | Infrastructure/JonjubNet.Resilience.Polly/Services/DatabaseExceptionDetector.cs:184-209 | false when the read throws; with a non-empty SqlState, true exactly when it starts with 08, 40 or 53; otherwise the message check |
| DatabaseExceptionDetector.IsTransientMySqlError | Infrastructure/JonjubNet.Resilience.Polly/Services/DatabaseExceptionDetector.cs:215-237 | false when reading `Number` throws; otherwise true exactly when the code is one of the six MySQL codes or, failing that, the message check holds |
| DatabaseExceptionDetector.IsTransientOracleError | Infrastructure/JonjubNet.Resilience.Polly/Services/DatabaseExceptionDetector.cs:243-265 | true exactly when the message is non-empty and contains, ignoring case, one of the four ORA- codes or one of the connection patterns |
| DatabaseExceptionDetector.IsTransient | Infrastructure/JonjubNet.Resilience.Polly/Services/DatabaseExceptionDetector.cs:63-126 | a null exception is not transient; a timeout or cancellation always is |
| DatabaseExceptionDetector.IsConnectionException | Infrastructure/JonjubNet.Resilience.Polly/Services/DatabaseExceptionDetector.cs:132-149 | true exactly when there is an exception whose message is non-empty and contains, ignoring case, a connection pattern |
| DatabaseExceptionDetector.NullIsNeitherTransientNorConnection | Infrastructure/JonjubNet.Resilience.Polly/Services/DatabaseExceptionDetector.cs:65-66 | neither classifier accepts a null exception |
| DatabaseExceptionDetector.TimeoutsAreAlwaysTransient | Infrastructure/JonjubNet.Resilience.Polly/Services/DatabaseExceptionDetector.cs:71-73 | every timeout or cancellation is transient, whatever its type name, message or fields |
| DatabaseExceptionDetector.ConcurrencyConflictIsNotTransient | Infrastructure/JonjubNet.Resilience.Polly/Services/DatabaseExceptionDetector.cs:77-80 | a `DbUpdateConcurrencyException` is never transient |
| DatabaseExceptionDetector.UnknownTypeIsNotTransient | Infrastructure/JonjubNet.Resilience.Polly/Services/DatabaseExceptionDetector.cs:123-125 | an exception whose type name is none of the known names is not transient, whatever its message |
| DatabaseExceptionDetector.ConcurrencyNameInMessageIsNotTransient | Infrastructure/JonjubNet.Resilience.Polly/Services/DatabaseExceptionDetector.cs:77-125 | a plain `Exception` whose message is "DbUpdateConcurrencyException" is not transient: only the type name is matched |
| DatabaseExceptionDetector.UpdateExceptionFollowsInner | Infrastructure/JonjubNet.Resilience.Polly/Services/DatabaseExceptionDetector.cs:83-96 | a `DbUpdateException` is transient exactly when it has an inner exception and that one is transient |
| DatabaseExceptionDetector.WrapInUpdateExceptions | Infrastructure/JonjubNet.Resilience.Polly/Services/DatabaseExceptionDetector.cs:83-96 | wrapping in one or more layers gives a `DbUpdateException`; zero layers leaves the exception as it is |
| DatabaseExceptionDetector.UpdateExceptionWrappersAreTransparent | Infrastructure/JonjubNet.Resilience.Polly/Services/DatabaseExceptionDetector.cs:83-96 | any number of `DbUpdateException` wrappers leave the verdict of the innermost exception unchanged |
| DatabaseExceptionDetector.SqlServerClassification | Infrastructure/JonjubNet.Resilience.Polly/Services/DatabaseExceptionDetector.cs:155-178 | a `SqlException` is transient exactly when no read throws and its number is listed or the message check holds |
| DatabaseExceptionDetector.MySqlClassification | Infrastructure/JonjubNet.Resilience.Polly/Services/DatabaseExceptionDetector.cs:215-237 | a `MySqlException` is transient exactly when no read throws and its code is listed or the message check holds |
| DatabaseExceptionDetector.PostgreSqlStateClassification | Infrastructure/JonjubNet.Resilience.Polly/Services/DatabaseExceptionDetector.cs:189-199 | an Npgsql or Postgres exception with a non-empty SqlState is transient exactly when no read throws and the state starts with 08, 40 or 53 |
| DatabaseExceptionDetector.PostgreSqlMessageClassification | Infrastructure/JonjubNet.Resilience.Polly/Services/DatabaseExceptionDetector.cs:189-208 | without a SqlState, or with an empty one, the PostgreSQL verdict is the message check |
| DatabaseExceptionDetector.PostgreSqlStateOverridesMessage | Infrastructure/JonjubNet.Resilience.Polly/Services/DatabaseExceptionDetector.cs:193-199 | with a non-empty SqlState, changing the message never changes the verdict |
| DatabaseExceptionDetector.OracleClassification | Infrastructure/JonjubNet.Resilience.Polly/Services/DatabaseExceptionDetector.cs:243-265 | an `OracleException` is transient exactly when its message is non-empty and names an ORA- code or a connection pattern |
| DatabaseExceptionDetector.ConnectionCheckIsMessageCheck | Infrastructure/JonjubNet.Resilience.Polly/Services/DatabaseExceptionDetector.cs:132-149 | the connection check gives the same answer as the shared message check |
| DatabaseExceptionDetector.MessagesWithoutWitnessLettersAreNotConnection | Infrastructure/JonjubNet.Resilience.Polly/Services/DatabaseExceptionDetector.cs:39-50 | a message lacking, in both cases, every one of a few letters that each pattern contains is not a connection failure |
| DatabaseExceptionDetector.PatternInMessageIsConnection | Infrastructure/JonjubNet.Resilience.Polly/Services/DatabaseExceptionDetector.cs:142-146 | a message containing any connection pattern, in any case, is a connection failure |
| DatabaseExceptionDetector.NetworkErrorIsConnection | Infrastructure/JonjubNet.Resilience.Polly/Services/DatabaseExceptionDetector.cs:142-146 | "Network error occurred" is a connection failure |
| DatabaseExceptionDetector.ConnectionTimeoutIsConnection | Infrastructure/JonjubNet.Resilience.Polly/Services/DatabaseExceptionDetector.cs:142-146 | "Connection timeout" is a connection failure |
| DatabaseExceptionDetector.InvalidOperationIsNotConnection | Infrastructure/JonjubNet.Resilience.Polly/Services/DatabaseExceptionDetector.cs:142-148 | "Invalid operation" is not a connection failure |
| DatabaseExceptionDetector.EmptyMessageIsNotConnection | Infrastructure/JonjubNet.Resilience.Polly/Services/DatabaseExceptionDetector.cs:137-139 | an empty message is not a connection failure |
| Text.Fold | Infrastructure/JonjubNet.Resilience.Polly/Services/DatabaseExceptionDetector.cs:144 | the ordinal ignore-case mapping keeps the length of the string |
| Text.ToLowerInvariant | JonjubNet.Resilience/Services/ResilienceService.cs:375 | lower-casing keeps the length of the string |
| Text.ContainsIgnoreCase | Infrastructure/JonjubNet.Resilience.Polly/Services/DatabaseExceptionDetector.cs:144 | `Contains(pattern, OrdinalIgnoreCase)` holds exactly when the pattern occurs, ignoring case, at some position of the string |
| Text.ContainsAnyIgnoreCase | Infrastructure/JonjubNet.Resilience.Polly/Services/DatabaseExceptionDetector.cs:142-148 | the loop over a pattern array finds a match exactly when some pattern of the array occurs in the string |
| Text.EqualsIgnoreCaseIffLowerEqual | JonjubNet.Resilience/Services/ResilienceService.cs:373-382 | equality ignoring case holds exactly when the lower-cased strings are equal |
| Configuration.NewResilienceConfigurationDefaults | Core/JonjubNet.Resilience.Core/Configuration/ResilienceConfiguration.cs:12-49 | a new root configuration is enabled, has empty service name and environment, default sections, and no named services or pipelines |
| Configuration.NewCircuitBreakerConfigurationDefaults | Core/JonjubNet.Resilience.Core/Configuration/ResilienceConfiguration.cs:113-123 | the global breaker defaults: enabled, 5, 30 s, 2, 60 s, not advanced, ratio 0.5, 10 |
| Configuration.NewRetryConfigurationDefaults | Core/JonjubNet.Resilience.Core/Configuration/ResilienceConfiguration.cs:128-143 | the global retry defaults: enabled, 3 attempts, 1000 ms, 30000 ms, "Exponential", status codes 408, 429, 500, 502, 503, 504 among the retryable ones |
| Configuration.NewTimeoutConfigurationDefaults | Core/JonjubNet.Resilience.Core/Configuration/ResilienceConfiguration.cs:148-156 | the timeout defaults: 30 s default, 15 s database, 10 s external API, 5 s cache |
| Configuration.NewPipelineConfigurationDefaults | Core/JonjubNet.Resilience.Core/Configuration/ResilienceConfiguration.cs:55-73 | a new named pipeline is enabled, with no retry, breaker or timeout |
| Configuration.NewPipelineStageDefaults | Core/JonjubNet.Resilience.Core/Configuration/ResilienceConfiguration.cs:78-108 | named-pipeline defaults: retry 3 / 1 s / 0 ms / "Exponential" / no deadlocks / no timeouts; breaker enabled 0.5 / 10 s / 5 / 30 s; timeout enabled 30 s |
| Pipelines.ComposeHoldsItsParts | Infrastructure/JonjubNet.Resilience.Polly/Services/ResilienceService.cs:206-278 | a pipeline built from optional retry, breaker and timeout is ordered retry, breaker, timeout, and holds exactly the strategies it was given |
| Pipelines.ComposeOfPartsIsIdentity | Infrastructure/JonjubNet.Resilience.Polly/Services/ResilienceService.cs:206-278 | every well-ordered pipeline is what composing its own three strategies gives |
| Pipelines.ResiliencePipelineBuilder.constructor | Infrastructure/JonjubNet.Resilience.Polly/Services/ResilienceService.cs:208 | a new builder holds no strategies |
| Pipelines.ResiliencePipelineBuilder.AddRetry | Infrastructure/JonjubNet.Resilience.Polly/Services/ResilienceService.cs:213-231 | appends one retry strategy with the given options |
| Pipelines.ResiliencePipelineBuilder.AddCircuitBreaker | Infrastructure/JonjubNet.Resilience.Polly/Services/ResilienceService.cs:237-268 | appends one breaker strategy with the given options |
| Pipelines.ResiliencePipelineBuilder.AddTimeout | Infrastructure/JonjubNet.Resilience.Polly/Services/ResilienceService.cs:272-275 | appends one timeout strategy |
| Pipelines.ResiliencePipelineBuilder.Build | Infrastructure/JonjubNet.Resilience.Polly/Services/ResilienceService.cs:277 | the built pipeline holds the added strategies in order |
| Pipelines.BuildPipeline | Infrastructure/JonjubNet.Resilience.Polly/Services/ResilienceService.cs:206-278 | the builder calls of every `Create*Pipeline` give the composed pipeline of the strategies present |
| Pipelines.GetBackoffType | Infrastructure/JonjubNet.Resilience.Polly/Services/ResilienceClient.cs:295-304 | Linear exactly when the upper-cased string is "LINEAR", Constant exactly when it is "FIXED"; any other string, "exponential" included, is Exponential |
| Pipelines.GetBackoffTypeComparesIgnoringCase | Infrastructure/JonjubNet.Resilience.Polly/Services/ResilienceService.cs:456-466 | the result is Linear exactly for "linear" in any case, Constant exactly for "fixed" in any case, and Exponential for every other string |
| Pipelines.GetBackoffTypeOfName | Infrastructure/JonjubNet.Resilience.Polly/Services/ResilienceClient.cs:295-304 | the documented spellings "Exponential", "Linear" and "Fixed" map back to their backoff |
| Pipelines.GetBackoffTypeIgnoresCase | Infrastructure/JonjubNet.Resilience.Polly/Services/ResilienceClient.cs:295-304 | strings that are equal ignoring case name the same backoff |
| Pipelines.Handles | Infrastructure/JonjubNet.Resilience.Polly/Services/ResilienceClient.cs:164-176 | every detector-backed or catch-all filter reacts to a transient exception; a `Handle<A>().Handle<B>()` filter reacts exactly to the listed kinds |
| Pipelines.PipelineRetryFilterIsTransientOrDeadlock | Infrastructure/JonjubNet.Resilience.Polly/Services/ResilienceClient.cs:164-176 | the named-pipeline retry predicate reacts exactly to transient exceptions and, with the deadlock flag, to invalid operations |
| Pipelines.BreakerFilterCoversRetryFilter | Infrastructure/JonjubNet.Resilience.Polly/Services/ResilienceClient.cs:200-202 | the breaker reacts to everything the default retry reacts to |
| Client.Deliver | Infrastructure/JonjubNet.Resilience.Polly/Services/ResilienceClient.cs:306-319 | every sink receives the event exactly once, in registration order, whether or not it throws |
| Client.PipelineRetry | Infrastructure/JonjubNet.Resilience.Polly/Services/ResilienceClient.cs:156-180 | the delay is the milliseconds setting when above zero, else the seconds setting; the maximum delay is always 30 s; the filter follows the two flags |
| Client.Resolve | Infrastructure/JonjubNet.Resilience.Polly/Services/ResilienceClient.cs:100-126 | a lookup never drops or overwrites a stored entry and adds at most the name looked up; whatever is stored under the name is what is returned; the counter grows exactly as the cache does |
| Client.ResolveKeepsCacheInvariant | Infrastructure/JonjubNet.Resilience.Polly/Services/ResilienceClient.cs:100-126 | a lookup keeps the counter equal to the cache size, at most 100, and every entry the pipeline configured for its name |
| Client.ResolveReturnsConfiguredPipeline | Infrastructure/JonjubNet.Resilience.Polly/Services/ResilienceClient.cs:100-126 | unless the name is new and the cache is full, a lookup returns the pipeline configured for the name |
| Client.ResolveHitChangesNothing | Infrastructure/JonjubNet.Resilience.Polly/Services/ResilienceClient.cs:102-103 | a hit returns the stored pipeline and changes and reports nothing |
| Client.ResolveAtCeiling | Infrastructure/JonjubNet.Resilience.Polly/Services/ResilienceClient.cs:105-116 | a new name with a full cache gets a fresh default pipeline; nothing is stored, the counter is unchanged, and one cache-limit event is reported |
| Client.ResolveMissStores | Infrastructure/JonjubNet.Resilience.Polly/Services/ResilienceClient.cs:118-123 | a new name below the ceiling is stored, other entries are kept, the counter goes up by one, and the configuration events are reported |
| Client.ResolveIsIdempotent | Infrastructure/JonjubNet.Resilience.Polly/Services/ResilienceClient.cs:100-126 | looking a stored name up again returns the same pipeline, changes nothing and reports nothing |
| Client.FullCacheSuccessReportsAFailureEvent | Infrastructure/JonjubNet.Resilience.Polly/Services/ResilienceClient.cs:64-114 | a call that succeeds after a full-cache lookup still reports an "OperationFailed" event first |
| Client.DefaultConfigurationPipeline | Infrastructure/JonjubNet.Resilience.Polly/Services/ResilienceClient.cs:252-293 | with the default configuration, the default pipeline is a detector retry (3, 1000 ms, 30000 ms, exponential), a breaker (0.5, 30 s, 2, 60 s) and a 30 s timeout |
| Client.DefaultSectionsPipeline | Infrastructure/JonjubNet.Resilience.Polly/Services/ResilienceClient.cs:252-293 | the same pipeline for any configuration whose three global sections hold those values |
| Client.EmptyPipelineConfigurationBuildsNoStages | Infrastructure/JonjubNet.Resilience.Polly/Services/ResilienceClient.cs:154-249 | an enabled named pipeline with no sections has no strategies; it does not fall back to the default |
| Client.FromPipelineConfigurationStages | Infrastructure/JonjubNet.Resilience.Polly/Services/ResilienceClient.cs:154-249 | the named pipeline is well ordered; retry is present exactly when configured; breaker and timeout exactly when configured and enabled; the breaker uses the detector predicates |
| Client.DiscardReturnTrue | Infrastructure/JonjubNet.Resilience.Polly/Services/ResilienceClient.cs:42-49 | wrapping a void action to return `true` and dropping the value again gives back the action's outcome |
| Client.ResilienceClient.constructor | Infrastructure/JonjubNet.Resilience.Polly/Services/ResilienceClient.cs:31-39 | a new client has an empty cache, a zero counter and no events |
| Client.ResilienceClient.Emit | Infrastructure/JonjubNet.Resilience.Polly/Services/ResilienceClient.cs:306-319 | appends the event to the log and one delivery per sink, in order; a throwing sink changes nothing else |
| Client.ResilienceClient.CreateDefaultPipeline | Infrastructure/JonjubNet.Resilience.Polly/Services/ResilienceClient.cs:252-293 | builds the default pipeline of the configuration |
| Client.ResilienceClient.CreatePipelineFromConfiguration | Infrastructure/JonjubNet.Resilience.Polly/Services/ResilienceClient.cs:128-152 | returns the pipeline configured for the name, or the default one; reports "not found" or "disabled" |
| Client.ResilienceClient.BuildFromPipelineConfiguration | Infrastructure/JonjubNet.Resilience.Polly/Services/ResilienceClient.cs:154-249 | builds the pipeline an enabled named configuration describes |
| Client.ResilienceClient.GetOrCreatePipeline | Infrastructure/JonjubNet.Resilience.Polly/Services/ResilienceClient.cs:100-126 | returns the lookup's pipeline; the cache, counter and events become the lookup's; the cache invariant is kept |
| Client.ResilienceClient.Execute | Infrastructure/JonjubNet.Resilience.Polly/Services/ResilienceClient.cs:52-98 | disabled: the action's outcome with nothing looked up or reported. Enabled: the pipeline's outcome, returned unchanged, after the lookup events, then OperationStarted, then exactly one OperationSucceeded or OperationFailed carrying the error |
| Client.ResilienceClient.ExecuteVoid | Infrastructure/JonjubNet.Resilience.Polly/Services/ResilienceClient.cs:42-49 | the generic path run with an action that returns `true`, with the value dropped |
| OperationContext.Enriched | Infrastructure/JonjubNet.Resilience.Polly/Services/ResilienceService.cs:469-492 | the keys are the old ones plus the four enrichment keys, which hold the operation, the service, the enabled flag and the time; every other entry is kept |
| OperationContext.EnrichedEmptyHasExactlyTheKeys | Infrastructure/JonjubNet.Resilience.Polly/Services/ResilienceService.cs:483-491 | a context created for the call holds exactly the four keys |
| OperationContext.EnrichedIsIdempotent | Infrastructure/JonjubNet.Resilience.Polly/Services/ResilienceService.cs:469-492 | enriching twice with the same values is enriching once |
| OperationContext.Context.constructor | Infrastructure/JonjubNet.Resilience.Polly/Services/ResilienceService.cs:484 | a new dictionary holds the given entries |
| Service.KindOf | Infrastructure/JonjubNet.Resilience.Polly/Services/ResilienceService.cs:425-454 | each of the names "HttpClient", "Database" and "Cache" selects its own shape exactly; every other name selects the default shape |
| Service.TryAdd | Infrastructure/JonjubNet.Resilience.Polly/Services/ResilienceService.cs:197-200 | the key is present afterwards; the value is stored only when the key was absent; existing entries are kept |
| Service.NameOf | Infrastructure/JonjubNet.Resilience.Polly/Services/ResilienceService.cs:23-26 | each shape is registered under one of the four predefined names |
| Service.PredefinedNamesSelectTheirShapes | Infrastructure/JonjubNet.Resilience.Polly/Services/ResilienceService.cs:194-201 | each predefined name selects the shape registered under it |
| Service.UnknownNamesShareTheDefaultShape | Infrastructure/JonjubNet.Resilience.Polly/Services/ResilienceService.cs:444-447 | a name that is not predefined gets a pipeline equal to the default one |
| Service.Resolve | Infrastructure/JonjubNet.Resilience.Polly/Services/ResilienceService.cs:425-454 | a lookup never drops or overwrites a stored entry and adds at most the name looked up; whatever is stored under the name is what is returned; the counter grows exactly as the cache does |
| Service.ResolveYieldsServicePipeline | Infrastructure/JonjubNet.Resilience.Polly/Services/ResilienceService.cs:425-454 | in a consistent cache every lookup, even at the ceiling, yields the pipeline the name selects |
| Service.ResolveKeepsCacheInvariant | Infrastructure/JonjubNet.Resilience.Polly/Services/ResilienceService.cs:425-454 | a lookup keeps the counter equal to the size, at most 100, the four predefined entries present, and every entry consistent |
| Service.ResolveAtCeiling | Infrastructure/JonjubNet.Resilience.Polly/Services/ResilienceService.cs:433-442 | a new name at the ceiling is served the cached "Default" pipeline; nothing is stored and the counter is unchanged |
| Service.ResolveMissStores | Infrastructure/JonjubNet.Resilience.Polly/Services/ResilienceService.cs:444-450 | a new name below the ceiling is stored with a default-shaped pipeline, the counter goes up by one, and a second lookup returns the same |
| Service.PrimaryOrFallback | Infrastructure/JonjubNet.Resilience.Polly/Services/ResilienceService.cs:143-153 | the primary's outcome when it succeeds, the fallback's otherwise; a failure exactly when both fail |
| Service.FallbackIgnoredWhenPrimarySucceeds | Infrastructure/JonjubNet.Resilience.Polly/Services/ResilienceService.cs:143-178 | when the primary succeeds the fallback plays no part |
| Service.HttpBreakerIsFixed | Infrastructure/JonjubNet.Resilience.Polly/Services/ResilienceService.cs:301-311 | the HTTP breaker is 0.5 / 30 s / 2 / 60 s whatever the configuration says |
| Service.CachePipelineShape | Infrastructure/JonjubNet.Resilience.Polly/Services/ResilienceService.cs:399-423 | the cache pipeline has no breaker; its retry, when enabled, handles every exception, 2 attempts from 500 ms up to 2000 ms, exponential |
| Service.DatabasePipelineUsesDetector | Infrastructure/JonjubNet.Resilience.Polly/Services/ResilienceService.cs:331-360 | the database retry reacts exactly to what the detector calls transient; the breaker also to connection failures |
| Service.DefaultBreakerFollowsAdvancedSwitch | Infrastructure/JonjubNet.Resilience.Polly/Services/ResilienceService.cs:242-248 | the default breaker takes the ratio and minimum throughput of the advanced settings when the switch is on, else 0.5 and the plain minimum throughput |
| Service.TimeoutPerService | Infrastructure/JonjubNet.Resilience.Polly/Services/ResilienceService.cs:271-420 | each shape's timeout is its own section: default, external API, database, cache; none when timeouts are disabled |
| Service.ResilienceService.constructor | Infrastructure/JonjubNet.Resilience.Polly/Services/ResilienceService.cs:37-48 | after construction the cache holds exactly Default, HttpClient, Database and Cache, consistently, and the counter is 4 |
| Service.ResilienceService.InitializePipelines | Infrastructure/JonjubNet.Resilience.Polly/Services/ResilienceService.cs:194-204 | adds the four predefined names, keeps the cache consistent, and sets the counter to the cache size |
| Service.ResilienceService.Register | Infrastructure/JonjubNet.Resilience.Polly/Services/ResilienceService.cs:197-200 | one `TryAdd`: adds the shape's name and keeps the cache consistent |
| Service.ResilienceService.CreateDefaultPipeline | Infrastructure/JonjubNet.Resilience.Polly/Services/ResilienceService.cs:206-278 | builds the default shape |
| Service.ResilienceService.CreateHttpClientPipeline | Infrastructure/JonjubNet.Resilience.Polly/Services/ResilienceService.cs:280-319 | builds the HTTP shape |
| Service.ResilienceService.CreateDatabasePipeline | Infrastructure/JonjubNet.Resilience.Polly/Services/ResilienceService.cs:325-397 | builds the database shape |
| Service.ResilienceService.CreateCachePipeline | Infrastructure/JonjubNet.Resilience.Polly/Services/ResilienceService.cs:399-423 | builds the cache shape |
| Service.ResilienceService.GetOrCreatePipeline | Infrastructure/JonjubNet.Resilience.Polly/Services/ResilienceService.cs:425-454 | returns the lookup's pipeline, which is the one the name selects; the cache and counter become the lookup's; the invariant is kept |
| Service.ResilienceService.EnrichContext | Infrastructure/JonjubNet.Resilience.Polly/Services/ResilienceService.cs:469-492 | a given dictionary is updated in place and returned; otherwise a new one with the four keys is returned |
| Service.ResilienceService.ExecuteWithResilience | Infrastructure/JonjubNet.Resilience.Polly/Services/ResilienceService.cs:53-100 | disabled: the operation's outcome with nothing looked up or enriched. Enabled: the pipeline the name selects runs the operation, the outcome is returned unchanged, and the context is enriched |
| Service.ResilienceService.ExecuteHttpWithResilience | Infrastructure/JonjubNet.Resilience.Polly/Services/ResilienceService.cs:105-116 | the generic path with the "HttpClient" name by default: disabled, the operation's outcome with the cache, counter and context unchanged; enabled, the pipeline the name selects runs the operation, the cache and counter are those of the lookup, and the context is enriched |
| Service.ResilienceService.ExecuteDatabaseWithResilience | Infrastructure/JonjubNet.Resilience.Polly/Services/ResilienceService.cs:121-131 | the generic path under the "Database" name: disabled, the outcome with the cache, counter and context unchanged; enabled, the database pipeline runs the operation, the cache and counter are those of the lookup, and the context is enriched |
| Service.ResilienceService.ExecuteWithFallback | Infrastructure/JonjubNet.Resilience.Polly/Services/ResilienceService.cs:136-192 | with resilience or fallback disabled, the primary or, when it fails, the fallback; otherwise the pipeline runs that pair and its outcome is returned |
| LegacyService.LowerCaseBackoffType | JonjubNet.Resilience/Services/ResilienceService.cs:373-382 | Linear exactly when the lower-cased string is "linear", Constant exactly when it is "fixed"; every other string is Exponential |
| LegacyService.LowerCaseBackoffTypeAgrees | JonjubNet.Resilience/Services/ResilienceService.cs:373-382 | the lower-casing switch picks the backoff that the ignore-case comparisons of the other copies pick, for every string |
| LegacyService.SharedShapesAgree | JonjubNet.Resilience/Services/ResilienceService.cs:193-358 | the default, HTTP and cache pipelines are the ones the Polly service builds |
| LegacyService.DatabasePipelineShape | JonjubNet.Resilience/Services/ResilienceService.cs:308-332 | the database pipeline has no breaker; it has a retry exactly when retries are enabled, and that retry handles every exception; the timeout is the database section's |
| LegacyService.DatabasePipelinesDiffer | JonjubNet.Resilience/Services/ResilienceService.cs:308-332 | with the breaker enabled, the legacy database pipeline differs from the Polly one |
| LegacyService.Resolve | JonjubNet.Resilience/Services/ResilienceService.cs:360-371 | a lookup always leaves the name stored with the pipeline it returns, adds no other key, and keeps every earlier entry |
| LegacyService.ResolveYieldsPipelineFor | JonjubNet.Resilience/Services/ResilienceService.cs:360-371 | in a consistent cache every lookup yields the pipeline the name selects |
| LegacyService.ResolveKeepsCacheInvariant | JonjubNet.Resilience/Services/ResilienceService.cs:360-371 | a lookup keeps the predefined entries and consistency, and adds exactly the name looked up |
| LegacyService.ResolveMissAlwaysStores | JonjubNet.Resilience/Services/ResilienceService.cs:367-370 | with no ceiling, a new name is always stored with a default-shaped pipeline, the cache grows by one, and a second lookup returns the same |
| LegacyService.ResilienceService.constructor | JonjubNet.Resilience/Services/ResilienceService.cs:23-32 | after construction the cache holds exactly the four predefined names, consistently |
| LegacyService.ResilienceService.InitializePipelines | JonjubNet.Resilience/Services/ResilienceService.cs:178-191 | assigns the four predefined names and keeps the cache consistent |
| LegacyService.ResilienceService.Put | JonjubNet.Resilience/Services/ResilienceService.cs:181-190 | one indexer assignment: the name now maps to its freshly built shape and the other entries are kept |
| LegacyService.ResilienceService.CreateDefaultPipeline | JonjubNet.Resilience/Services/ResilienceService.cs:193-265 | builds the legacy default shape |
| LegacyService.ResilienceService.CreateHttpClientPipeline | JonjubNet.Resilience/Services/ResilienceService.cs:267-306 | builds the legacy HTTP shape |
| LegacyService.ResilienceService.CreateDatabasePipeline | JonjubNet.Resilience/Services/ResilienceService.cs:308-332 | builds the legacy database shape |
| LegacyService.ResilienceService.CreateCachePipeline | JonjubNet.Resilience/Services/ResilienceService.cs:334-358 | builds the cache shape |
| LegacyService.ResilienceService.GetOrCreatePipeline | JonjubNet.Resilience/Services/ResilienceService.cs:360-371 | returns the lookup's pipeline, which is the one the name selects; the cache becomes the lookup's |
| LegacyService.ResilienceService.EnrichContext | JonjubNet.Resilience/Services/ResilienceService.cs:384-395 | the given dictionary, or a new empty one, with the four keys written into it |
| LegacyService.ResilienceService.ExecuteWithResilience | JonjubNet.Resilience/Services/ResilienceService.cs:37-84 | disabled: the operation's outcome, unchanged state. Enabled: the pipeline the name selects runs the operation, and the outcome is returned unchanged |
| LegacyService.ResilienceService.ExecuteHttpWithResilience | JonjubNet.Resilience/Services/ResilienceService.cs:89-100 | the generic path with the "HttpClient" name by default: disabled, the outcome with the cache and context unchanged; enabled, the pipeline the name selects runs the operation, the cache is that of the lookup, and the context is enriched |
| LegacyService.ResilienceService.ExecuteDatabaseWithResilience | JonjubNet.Resilience/Services/ResilienceService.cs:105-115 | the generic path under the "Database" name: disabled, the outcome with the cache and context unchanged; enabled, the legacy database pipeline runs the operation, the cache is that of the lookup, and the context is enriched |
| LegacyService.ResilienceService.ExecuteWithFallback | JonjubNet.Resilience/Services/ResilienceService.cs:120-176 | with resilience or fallback disabled, the primary or, when it fails, the fallback; otherwise the pipeline runs that pair |

## Left out

- Polly's runtime behaviour is not modelled: retry loops and delays, the circuit-breaker state machine, and timeout enforcement. A pipeline is a descriptor, and its execution is the parameter `run`. Because an operation is its outcome, a retry that re-runs the operation and gets a different outcome is not represented.
- Asynchrony, cancellation tokens and the thread safety of `ConcurrentDictionary` and `Interlocked` are not modelled. The cache is read sequentially.
- The lost-race branch of `TryAdd` in both `GetOrCreatePipeline` methods (ResilienceClient.cs:125, ResilienceService.cs:453) cannot be reached in a sequential reading and is left out.
- Logging (`ILogger`, `IStructuredLoggingService`) is left out, as are the `OnRetry`, `OnOpened`, `OnClosed` and `OnHalfOpened` callbacks. Only the events the client hands to its sinks are recorded, in a ghost log.
- Clocks: `DateTime.UtcNow` is a parameter `now`. Event timestamps and durations are not modelled.
- Floating point: failure ratios are reals that are only passed through.
- Text.Fold, Text.ToLowerInvariant: case mapping covers the ASCII letters only. .NET maps further letters, for which the ignore-case comparison and `ToLowerInvariant` can disagree. Every pattern and keyword of the core is ASCII.
- LegacyService.LowerCaseBackoffTypeAgrees: holds under that ASCII-only mapping. It does not cover non-ASCII letters, where .NET's two mappings can give different answers.
- The detector is modelled as the default `DatabaseExceptionDetector`. The services and the client accept any injected `IDatabaseExceptionDetector`; other implementations are not part of this model.
- Reflection is abstracted into fields of the exception value, which are None when they are missing or null. A failing getter or cast is the flag `fieldReadThrows`. Whether `Number` is an `int` or a `uint` is not distinguished.
- An exception's type name comes from `GetType().Name`, and which framework types it derives from is given by `kind`. The model does not check that the two agree.
- Null strings are not modelled: configuration strings and messages are always present, with "" for the empty ones.
- Configuration that the code never reads (jitter, bulkhead, the fallback sub-settings, `Services`) is carried in the records without behaviour.
- The legacy service reads a configuration class from its own namespace, which is not part of this model. It is assumed to have the fields of the Core configuration.
- Dependency injection, the interface files, `PipelineNames.cs` and the service-collection extensions are not modelled.
- Service.ResilienceService.InitializePipelines, LegacyService.ResilienceService.InitializePipelines: the ensures state the keys and consistency, not the value stored under each key. Consistency determines those values: the Polly copy keeps existing entries, and the legacy copy overwrites them with the same shape.
