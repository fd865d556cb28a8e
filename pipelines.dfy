/**
  Resilience pipelines as descriptors. The retry, circuit-breaker and timeout
  machinery belongs to Polly and is not modelled; a pipeline here is the
  ordered list of strategies added to a `ResiliencePipelineBuilder`, each
  with the options it was given. Durations are in milliseconds.
 */
module Pipelines {
  import opened Wrappers
  import opened Text
  import opened Exceptions
  import opened DatabaseExceptionDetector
  import opened Configuration

  /** Polly's `DelayBackoffType`. */
  datatype BackoffType = Constant | Linear | Exponential

  /** The `ShouldHandle` predicates the core builds. */
  datatype ExceptionFilter =
    | DetectorTransient                                    // ex => IsTransient(ex)
    | DetectorTransientOrConnection                        // ex => IsTransient(ex) || IsConnectionException(ex)
    | PipelineRetryFilter(handleDeadlocks: bool, handleTimeouts: bool)
    | KindsOneOf(kinds: seq<Kind>)                         // Handle<A>().Handle<B>()...
    | AnyException                                         // Handle<Exception>()

  /** Whether a strategy with filter `f` reacts to the exception `e`. */
  function Handles(f: ExceptionFilter, e: Exception): (r: bool)
    ensures !f.KindsOneOf? && IsTransient(Some(e)) ==> r
    ensures f.KindsOneOf? ==> (r <==> e.kind in f.kinds)
  {
    match f
    case DetectorTransient => IsTransient(Some(e))
    case DetectorTransientOrConnection => IsTransient(Some(e)) || IsConnectionException(Some(e))
    case PipelineRetryFilter(handleDeadlocks, handleTimeouts) =>
      if handleDeadlocks || handleTimeouts then
        IsTransient(Some(e)) || (handleTimeouts && e.kind == Timeout) || (handleDeadlocks && e.kind == InvalidOperation)
      else
        IsTransient(Some(e)) || e.kind == Timeout || e.kind == TaskCanceled
    case KindsOneOf(kinds) => e.kind in kinds
    case AnyException => true
  }

  datatype RetryOptions = RetryOptions(
    shouldHandle: ExceptionFilter,
    maxRetryAttempts: int,
    delayMs: int,
    maxDelayMs: int,
    backoffType: BackoffType)

  datatype CircuitBreakerOptions = CircuitBreakerOptions(
    shouldHandle: ExceptionFilter,
    failureRatio: real,
    samplingDurationMs: int,
    minimumThroughput: int,
    breakDurationMs: int)

  datatype Stage =
    | RetryStage(retry: RetryOptions)
    | CircuitBreakerStage(breaker: CircuitBreakerOptions)
    | TimeoutStage(timeoutMs: int)

  /** What `ResiliencePipelineBuilder.Build()` returns: the strategies in the order they were added. */
  datatype Pipeline = Pipeline(stages: seq<Stage>)

  /** The position a stage takes in every pipeline the core builds. */
  function Rank(s: Stage): nat {
    match s
    case RetryStage(_) => 0
    case CircuitBreakerStage(_) => 1
    case TimeoutStage(_) => 2
  }

  /** At most one stage of each kind, retry before circuit breaker before timeout. */
  predicate WellOrdered(p: Pipeline) {
    forall i, j :: 0 <= i < j < |p.stages| ==> Rank(p.stages[i]) < Rank(p.stages[j])
  }

  /** The options of the first retry stage. */
  function RetryIn(stages: seq<Stage>): Option<RetryOptions> {
    if stages == [] then None
    else if stages[0].RetryStage? then Some(stages[0].retry)
    else RetryIn(stages[1..])
  }

  /** The options of the first circuit-breaker stage. */
  function BreakerIn(stages: seq<Stage>): Option<CircuitBreakerOptions> {
    if stages == [] then None
    else if stages[0].CircuitBreakerStage? then Some(stages[0].breaker)
    else BreakerIn(stages[1..])
  }

  /** The duration of the first timeout stage. */
  function TimeoutIn(stages: seq<Stage>): Option<int> {
    if stages == [] then None
    else if stages[0].TimeoutStage? then Some(stages[0].timeoutMs)
    else TimeoutIn(stages[1..])
  }

  /** Searching a concatenation finds the first part's stage when it has one. */
  lemma {:induction false} SearchConcat(a: seq<Stage>, b: seq<Stage>)
    ensures RetryIn(a + b) == if RetryIn(a).Some? then RetryIn(a) else RetryIn(b)
    ensures BreakerIn(a + b) == if BreakerIn(a).Some? then BreakerIn(a) else BreakerIn(b)
    ensures TimeoutIn(a + b) == if TimeoutIn(a).Some? then TimeoutIn(a) else TimeoutIn(b)
  {
    if a == [] {
      assert a + b == b;
    } else {
      assert (a + b)[0] == a[0] && (a + b)[1..] == a[1..] + b;
      SearchConcat(a[1..], b);
    }
  }

  /** The pipeline holding the given strategies, each only when present, in the fixed order. */
  function Compose(retry: Option<RetryOptions>, breaker: Option<CircuitBreakerOptions>, timeoutMs: Option<int>): Pipeline {
    var r := if retry.Some? then [RetryStage(retry.value)] else [];
    var b := if breaker.Some? then [CircuitBreakerStage(breaker.value)] else [];
    var t := if timeoutMs.Some? then [TimeoutStage(timeoutMs.value)] else [];
    Pipeline(r + b + t)
  }

  /** A composed pipeline is well ordered and holds exactly the strategies it was given. */
  lemma ComposeHoldsItsParts(retry: Option<RetryOptions>, breaker: Option<CircuitBreakerOptions>, timeoutMs: Option<int>)
    ensures var p := Compose(retry, breaker, timeoutMs);
      WellOrdered(p)
      && RetryIn(p.stages) == retry && BreakerIn(p.stages) == breaker && TimeoutIn(p.stages) == timeoutMs
  {
    var r := if retry.Some? then [RetryStage(retry.value)] else [];
    var b := if breaker.Some? then [CircuitBreakerStage(breaker.value)] else [];
    var t := if timeoutMs.Some? then [TimeoutStage(timeoutMs.value)] else [];
    SearchConcat(r, b);
    SearchConcat(r + b, t);
  }

  /** In a well-ordered pipeline the stage at position `i` has rank at least `i`. */
  lemma {:induction false} RankAtLeastPosition(s: seq<Stage>, i: int)
    requires forall i, j :: 0 <= i < j < |s| ==> Rank(s[i]) < Rank(s[j])
    requires 0 <= i < |s|
    ensures Rank(s[i]) >= i
  {
    if i > 0 {
      RankAtLeastPosition(s, i - 1);
      assert Rank(s[i - 1]) < Rank(s[i]);
    }
  }

  /** A well-ordered pipeline is determined by its three optional strategies. */
  lemma ComposeOfPartsIsIdentity(p: Pipeline)
    requires WellOrdered(p)
    ensures Compose(RetryIn(p.stages), BreakerIn(p.stages), TimeoutIn(p.stages)) == p
  {
    var s := p.stages;
    if |s| > 0 {
      RankAtLeastPosition(s, |s| - 1);
    }
    if |s| == 2 {
      assert Rank(s[0]) < Rank(s[1]);
      assert s == [s[0]] + [s[1]];
      SearchConcat([s[0]], [s[1]]);
    } else if |s| == 3 {
      RankAtLeastPosition(s, 1);
      assert Rank(s[0]) == 0 && Rank(s[1]) == 1 && Rank(s[2]) == 2;
      assert s == [s[0]] + ([s[1]] + [s[2]]);
      SearchConcat([s[0]], [s[1]] + [s[2]]);
      SearchConcat([s[1]], [s[2]]);
    }
  }

  /**
    `ResiliencePipelineBuilder`: collects strategies in the order they are
    added and returns them as a pipeline.
   */
  class ResiliencePipelineBuilder {
    var stages: seq<Stage>

    constructor()
      ensures stages == []
    {
      stages := [];
    }

    method AddRetry(options: RetryOptions)
      modifies this
      ensures stages == old(stages) + [RetryStage(options)]
    {
      stages := stages + [RetryStage(options)];
    }

    method AddCircuitBreaker(options: CircuitBreakerOptions)
      modifies this
      ensures stages == old(stages) + [CircuitBreakerStage(options)]
    {
      stages := stages + [CircuitBreakerStage(options)];
    }

    method AddTimeout(timeoutMs: int)
      modifies this
      ensures stages == old(stages) + [TimeoutStage(timeoutMs)]
    {
      stages := stages + [TimeoutStage(timeoutMs)];
    }

    method Build() returns (p: Pipeline)
      ensures p.stages == stages
    {
      p := Pipeline(stages);
    }
  }

  /** The builder calls of every `Create*Pipeline`: each strategy added only when present, in the fixed order. */
  method BuildPipeline(retry: Option<RetryOptions>, breaker: Option<CircuitBreakerOptions>, timeoutMs: Option<int>)
    returns (p: Pipeline)
    ensures p == Compose(retry, breaker, timeoutMs)
  {
    var builder := new ResiliencePipelineBuilder();
    if retry.Some? {
      builder.AddRetry(retry.value);
    }
    if breaker.Some? {
      builder.AddCircuitBreaker(breaker.value);
    }
    if timeoutMs.Some? {
      builder.AddTimeout(timeoutMs.value);
    }
    p := builder.Build();
  }

  /**
    The backoff named by a configuration string, compared ignoring case;
    an unknown name means exponential backoff.
   */
  function GetBackoffType(strategy: string): (r: BackoffType)
    ensures r == Linear <==> Fold(strategy) == "LINEAR"
    ensures r == Constant <==> Fold(strategy) == "FIXED"
  {
    var key := Fold(strategy);
    if key == "EXPONENTIAL" then Exponential
    else if key == "LINEAR" then Linear
    else if key == "FIXED" then Constant
    else Exponential
  }

  /** Upper-casing a spelling character by character. */
  lemma FoldSpelling(s: string, u: string)
    requires |s| == |u| && forall i :: 0 <= i < |s| ==> FoldChar(s[i]) == u[i]
    ensures Fold(s) == u
  {
    forall i | 0 <= i < |s|
      ensures Fold(s)[i] == u[i]
    {
      FoldAt(s, i);
    }
  }

  /** "linear" and "fixed" in any case select their backoff; everything else is exponential. */
  lemma GetBackoffTypeComparesIgnoringCase(strategy: string)
    ensures GetBackoffType(strategy) == Linear <==> EqualsIgnoreCase(strategy, "linear")
    ensures GetBackoffType(strategy) == Constant <==> EqualsIgnoreCase(strategy, "fixed")
    ensures GetBackoffType(strategy) == Exponential
            <==> !EqualsIgnoreCase(strategy, "linear") && !EqualsIgnoreCase(strategy, "fixed")
  {
    FoldSpelling("linear", "LINEAR");
    FoldSpelling("fixed", "FIXED");
  }

  /** The spelling the configuration documents for each backoff. */
  function BackoffName(b: BackoffType): string {
    match b
    case Exponential => "Exponential"
    case Linear => "Linear"
    case Constant => "Fixed"
  }

  /** Every documented spelling maps back to its backoff. */
  lemma GetBackoffTypeOfName(b: BackoffType)
    ensures GetBackoffType(BackoffName(b)) == b
  {
    match b
    case Exponential =>
      FoldSpelling("Exponential", "EXPONENTIAL");
    case Linear =>
      FoldSpelling("Linear", "LINEAR");
    case Constant =>
      FoldSpelling("Fixed", "FIXED");
  }

  /** Strings that are equal ignoring case name the same backoff. */
  lemma GetBackoffTypeIgnoresCase(s: string, t: string)
    requires EqualsIgnoreCase(s, t)
    ensures GetBackoffType(s) == GetBackoffType(t)
  {
  }

  /** Timeouts and cancellations are transient, so a filter that adds them to `IsTransient` adds nothing. */
  lemma PipelineRetryFilterIsTransientOrDeadlock(handleDeadlocks: bool, handleTimeouts: bool, e: Exception)
    ensures Handles(PipelineRetryFilter(handleDeadlocks, handleTimeouts), e)
            <==> IsTransient(Some(e)) || (handleDeadlocks && e.kind == InvalidOperation)
  {
  }

  /** A breaker that also counts connection failures reacts to everything a transient-only retry does. */
  lemma BreakerFilterCoversRetryFilter(e: Exception)
    ensures Handles(DetectorTransient, e) ==> Handles(DetectorTransientOrConnection, e)
  {
  }

  /** Retry options read from the global `Retry` section. */
  function GlobalRetry(r: RetryConfiguration, filter: ExceptionFilter, backoff: BackoffType): RetryOptions {
    RetryOptions(filter, r.maxRetryAttempts, r.baseDelayMilliseconds, r.maxDelayMilliseconds, backoff)
  }

  /**
    Circuit-breaker options read from the global `CircuitBreaker` section:
    the advanced switch selects the configured ratio and throughput over the
    fixed ratio 0.5 and the plain throughput.
   */
  function GlobalBreaker(cb: CircuitBreakerConfiguration, filter: ExceptionFilter): CircuitBreakerOptions {
    var advanced := cb.enableAdvancedCircuitBreaker;
    CircuitBreakerOptions(
      filter,
      if advanced then cb.failureThresholdRatio else 0.5,
      1000 * cb.samplingDurationSeconds,
      if advanced then cb.minimumThroughputForAdvanced else cb.minimumThroughput,
      1000 * cb.durationOfBreakSeconds)
  }
}
