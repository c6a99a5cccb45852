/**
  The live-stats snapshot: read from the cache, or fetched and cached for fifteen minutes, with
  any fetch failure reported as a short error text instead of a thrown error.
 */
module CobuildAiContext {
  import opened Wrappers
  import opened Text
  import opened Js
  import opened KvStore
  import opened CacheResult

  /** The live-stats endpoint. */
  const ContextUrl := "https://co.build/api/cobuild/ai-context"
  const CachePrefix := "cobuild:ai-context:"
  const CacheKey := "snapshot"
  const CacheTtlSeconds := 60 * 15
  const ErrorMaxChars := 120
  const Ellipsis: char := '…'

  /** `truncate(value, max)`: unchanged when short enough, else cut to `max` characters ending in an ellipsis. */
  function Truncate(value: string, maxLength: nat): (r: string)
    ensures |value| <= maxLength ==> r == value
    ensures |value| > maxLength && maxLength >= 1 ==>
      |r| == maxLength && r[..maxLength - 1] == value[..maxLength - 1] && r[maxLength - 1] == Ellipsis
  {
    if |value| <= maxLength then value
    else var keep := if maxLength >= 1 then maxLength - 1 else 0; value[..keep] + [Ellipsis]
  }

  /** A truncated error text is never longer than 120 characters. */
  lemma TruncateBound(value: string)
    ensures |Truncate(value, ErrorMaxChars)| <= ErrorMaxChars
  {
  }

  /** `formatCobuildAiContextError`. */
  function FormatError(error: Value): (r: string)
    ensures error.Error? && error.message != "" ==> r == Truncate(error.message, ErrorMaxChars)
    ensures !(error.Error? && error.message != "") && error.Str? ==> r == Truncate(error.s, ErrorMaxChars)
    ensures !(error.Error? && error.message != "") && !error.Str? ==> r == "Unknown error"
  {
    if error.Error? && error.message != "" then Truncate(error.message, ErrorMaxChars)
    else if error.Str? then Truncate(error.s, ErrorMaxChars)
    else "Unknown error"
  }

  /** How the live-stats request ends: a response (whose body may fail to parse), or a thrown value. */
  datatype Fetched = Response(ok: bool, status: int, body: Result<Value>) | FetchFailed(error: Value)

  /** The value `fetchCobuildAiContext` resolves to; `None` where it throws. */
  function FetchOutcome(f: Fetched): (r: Option<Value>)
    ensures r.Some? <==> f.Response? && f.ok && f.body.Ok?
    ensures r.Some? ==> r.value == f.body.value
  {
    if f.Response? && f.ok && f.body.Ok? then Some(f.body.value) else None
  }

  /** The value thrown when the fetch fails: a non-OK status throws `Error("HTTP <status>")`. */
  function FetchError(f: Fetched): (r: Value)
    ensures f.Response? && !f.ok ==> r == Error("Error", "HTTP " + IntToString(f.status), [])
  {
    match f
    case FetchFailed(e) => e
    case Response(ok, status, body) =>
      if !ok then Error("Error", "HTTP " + IntToString(status), [])
      else if body.Err? then Error("SyntaxError", body.message, [])
      else Undefined
  }

  datatype Snapshot = Snapshot(data: Value, error: Option<string>)

  /**
    getCobuildAiContextSnapshot: a truthy cached value is returned without fetching; otherwise the
    fetched data is cached (when caching is on) and returned, and any failure of the fetch or of
    the cache write yields `{data: null, error}`.
   */
  method GetSnapshot(store: Store, json: JsonCodec, enabled: bool, fetched: Fetched, now: int)
    returns (r: Result<Snapshot>, calledFetch: bool)
    modifies store
    ensures var hit := GetSpec(old(store.entries), CachePrefix + CacheKey, now);
      && (enabled && hit.Err? ==> r == Err(hit.message) && !calledFetch && store.entries == old(store.entries))
      && (enabled && hit.Ok? && Truthy(DecodeCached(json, hit.value)) ==>
            r == Ok(Snapshot(DecodeCached(json, hit.value), None)) && !calledFetch && store.entries == old(store.entries))
      && (calledFetch <==> !enabled || (hit.Ok? && !Truthy(DecodeCached(json, hit.value))))
    ensures calledFetch && FetchOutcome(fetched).None? ==>
      r == Ok(Snapshot(Null, Some(FormatError(FetchError(fetched))))) && store.entries == old(store.entries)
    ensures calledFetch && FetchOutcome(fetched).Some? && (!enabled || Nullish(FetchOutcome(fetched).value)) ==>
      r == Ok(Snapshot(FetchOutcome(fetched).value, None)) && store.entries == old(store.entries)
    ensures calledFetch && FetchOutcome(fetched).Some? && enabled && !Nullish(FetchOutcome(fetched).value) ==>
      var text := ValueToCache(json, FetchOutcome(fetched).value);
      && (text.Some? ==>
            r == Ok(Snapshot(FetchOutcome(fetched).value, None))
            && store.entries == old(store.entries)[CachePrefix + CacheKey := Entry(Chars(text.value), Some(now + 900_000))])
      && (text.None? ==>
            r.Ok? && r.value.data == Null && r.value.error.Some? && store.entries == old(store.entries))
  {
    var cached := GetCachedResult(store, json, enabled, CacheKey, CachePrefix, now);
    if cached.Err? { return Err(cached.message), false; }
    if Truthy(cached.value) { return Ok(Snapshot(cached.value, None)), false; }
    calledFetch := true;
    var outcome := FetchOutcome(fetched);
    if outcome.None? {
      return Ok(Snapshot(Null, Some(FormatError(FetchError(fetched))))), true;
    }
    var data := outcome.value;
    assert EffectiveTtl(Finite(CacheTtlSeconds as real)) == 900 by {
      assert (900 as real).Floor == 900;
    }
    var stored := CacheResultOf(store, json, enabled, CacheKey, CachePrefix, Ok(data), Finite(CacheTtlSeconds as real), now);
    if stored.Err? {
      return Ok(Snapshot(Null, Some(FormatError(Error("Error", stored.message, []))))), true;
    }
    r := Ok(Snapshot(data, None));
  }
}
