/**
  The operation context: the `Dictionary<string, object>` a caller may pass
  along with an operation, which the services enrich before running it.
 */
module OperationContext {

  /** The values the services store; anything else a caller put in is `OtherValue`. */
  datatype ContextValue =
    | TextValue(text: string)
    | FlagValue(flag: bool)
    | TimestampValue(ticks: int)
    | OtherValue(id: nat)

  const OperationNameKey := "OperationName"
  const ServiceNameKey := "ServiceName"
  const ResilienceEnabledKey := "ResilienceEnabled"
  const TimestampKey := "Timestamp"

  const EnrichmentKeys: set<string> := {OperationNameKey, ServiceNameKey, ResilienceEnabledKey, TimestampKey}

  /**
    The entries after enrichment: the four keys set to the operation, the
    service, whether resilience is enabled and the current time; every other
    entry kept.
   */
  function Enriched(entries: map<string, ContextValue>, operationName: string, serviceName: string,
                    enabled: bool, now: int): (r: map<string, ContextValue>)
    ensures r.Keys == entries.Keys + EnrichmentKeys
    ensures r[OperationNameKey] == TextValue(operationName)
    ensures r[ServiceNameKey] == TextValue(serviceName)
    ensures r[ResilienceEnabledKey] == FlagValue(enabled)
    ensures r[TimestampKey] == TimestampValue(now)
    ensures forall k :: k in entries && k !in EnrichmentKeys ==> r[k] == entries[k]
  {
    entries[OperationNameKey := TextValue(operationName)]
           [ServiceNameKey := TextValue(serviceName)]
           [ResilienceEnabledKey := FlagValue(enabled)]
           [TimestampKey := TimestampValue(now)]
  }

  /** A context created for the call holds exactly the four keys. */
  lemma EnrichedEmptyHasExactlyTheKeys(operationName: string, serviceName: string, enabled: bool, now: int)
    ensures Enriched(map[], operationName, serviceName, enabled, now).Keys == EnrichmentKeys
    ensures |Enriched(map[], operationName, serviceName, enabled, now)| == 4
  {
    var r := Enriched(map[], operationName, serviceName, enabled, now);
    assert r.Keys == {OperationNameKey, ServiceNameKey, ResilienceEnabledKey, TimestampKey};
    assert |r.Keys| == 4 by {
      var a := {OperationNameKey};
      var b := a + {ServiceNameKey};
      var c := b + {ResilienceEnabledKey};
      assert |b| == 2 && |c| == 3;
      assert r.Keys == c + {TimestampKey};
    }
  }

  /** Enriching again with the same values changes nothing. */
  lemma EnrichedIsIdempotent(entries: map<string, ContextValue>, operationName: string, serviceName: string,
                             enabled: bool, now: int)
    ensures var once := Enriched(entries, operationName, serviceName, enabled, now);
      Enriched(once, operationName, serviceName, enabled, now) == once
  {
  }

  /** A caller-supplied dictionary, updated in place. */
  class Context {
    var entries: map<string, ContextValue>

    constructor(entries: map<string, ContextValue>)
      ensures this.entries == entries
    {
      this.entries := entries;
    }
  }
}
