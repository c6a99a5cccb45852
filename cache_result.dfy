/**
  The result cache over the key-value store: values are kept under `prefix + key`, strings as
  they are and everything else as JSON, with a ttl in seconds. Reading decodes the raw text back;
  caching is switched off entirely in development.
 */
module CacheResult {
  import opened Wrappers
  import opened Text
  import opened Js
  import opened KvStore

  const DefaultTtl := 60 * 60

  /** `process.env.NODE_ENV !== "development"`. */
  function CacheEnabled(nodeEnv: Option<string>): (r: bool)
    ensures r <==> nodeEnv != Some("development")
  {
    nodeEnv != Some("development")
  }

  /** A JavaScript number given as a ttl: a finite value, or NaN / an infinity. */
  datatype Seconds = Finite(x: real) | NotFinite

  /** The ttl actually used: `floor(ttl)` when it is finite and positive, else one hour. */
  function EffectiveTtl(ttl: Seconds): (r: int)
    ensures ttl.Finite? && ttl.x > 0.0 ==> r == ttl.x.Floor && r as real <= ttl.x < r as real + 1.0
    ensures !(ttl.Finite? && ttl.x > 0.0) ==> r == DefaultTtl
    ensures r >= 0
  {
    if ttl.Finite? && ttl.x > 0.0 then ttl.x.Floor else DefaultTtl
  }

  /** A positive ttl below one second floors to 0, which the store then refuses. */
  lemma SubSecondTtlRefused(db: Db, k: string, text: string, now: int)
    ensures EffectiveTtl(Finite(0.5)) == 0
    ensures SetExSpec(db, k, text, EffectiveTtl(Finite(0.5)), now).Err?
  {
    assert (0.5).Floor == 0;
  }

  /** The text stored for a result: a string as it is, anything else through `JSON.stringify`. */
  function ValueToCache(json: JsonCodec, result: Value): (r: Option<string>)
    ensures result.Str? ==> r == Some(result.s)
    ensures !result.Str? ==> r == json.stringify(result)
  {
    if result.Str? then Some(result.s) else json.stringify(result)
  }

  /** Whether a parsed value is worth returning: truthy, and not an object without keys. */
  predicate WorthReturning(parsed: Value) {
    Truthy(parsed) && (!IsObjectType(parsed) || parsed.Arr? || (parsed.Obj? && |parsed.fields| > 0))
  }

  /**
    The value a cache read returns for the raw text found (`Null` for a miss): text that does not
    start with `{` or `[` is returned as a string; anything else is parsed, and a parse failure,
    a falsy value or an empty object reads as a miss.
   */
  function DecodeCached(json: JsonCodec, raw: Option<string>): (r: Value)
    ensures raw.None? ==> r == Null
    ensures raw.Some? && |raw.value| > 0 && raw.value[0] != '{' && raw.value[0] != '[' ==> r == Str(raw.value)
    ensures raw.Some? && (|raw.value| == 0 || raw.value[0] == '{' || raw.value[0] == '[') ==>
      r == (if json.parse(raw.value).Some? && WorthReturning(json.parse(raw.value).value) then json.parse(raw.value).value else Null)
  {
    match raw
    case None => Null
    case Some(text) =>
      if |text| > 0 && text[0] != '{' && text[0] != '[' then Str(text)
      else match json.parse(text)
        case None => Null
        case Some(parsed) => if WorthReturning(parsed) then parsed else Null
  }

  /** A cache read never reports `undefined`, the empty object or a falsy value as a hit. */
  lemma DecodedIsNullOrWorthReturning(json: JsonCodec, raw: Option<string>)
    ensures var r := DecodeCached(json, raw); r == Null || r.Str? || WorthReturning(r)
  {
  }

  /** A string that does not look like JSON comes back as it was stored. */
  lemma PlainStringRoundTrip(json: JsonCodec, s: string)
    requires |s| > 0 && s[0] != '{' && s[0] != '['
    ensures DecodeCached(json, ValueToCache(json, Str(s))) == Str(s)
  {
  }

  /** An array or a non-empty object comes back as it was stored, when the codec round-trips and its JSON starts with a bracket. */
  lemma StructuredRoundTrip(json: JsonCodec, v: Value)
    requires v.Arr? || (v.Obj? && |v.fields| > 0)
    requires json.stringify(v).Some? && json.parse(json.stringify(v).value) == Some(v)
    requires |json.stringify(v).value| > 0 && json.stringify(v).value[0] in "{["
    ensures DecodeCached(json, ValueToCache(json, v)) == v
  {
  }

  /** A cached number is stored as its digits and comes back as a string, not a number. */
  lemma NumberComesBackAsText(json: JsonCodec)
    requires json.stringify(Num(42)) == Some("42")
    ensures DecodeCached(json, ValueToCache(json, Num(42))) == Str("42")
  {
  }

  /** setCachedResult: SET `prefix + key` with EX ttl; an unserialisable result throws. */
  method SetCachedResult(store: Store, json: JsonCodec, key: string, prefix: string, result: Value, ttl: Seconds, now: int)
    returns (r: Result<()>)
    modifies store
    ensures ValueToCache(json, result).None? ==> r.Err? && store.entries == old(store.entries)
    ensures ValueToCache(json, result).Some? ==>
      var stored := SetExSpec(old(store.entries), prefix + key, ValueToCache(json, result).value, EffectiveTtl(ttl), now);
      && (r.Ok? <==> stored.Ok?)
      && store.entries == (if stored.Ok? then stored.value else old(store.entries))
  {
    var text := ValueToCache(json, result);
    if text.None? { return Err("value is not serializable"); }
    r := store.SetEx(prefix + key, text.value, EffectiveTtl(ttl), now);
  }

  /** getCachedResult: `Null` when caching is off or nothing usable is stored. */
  method GetCachedResult(store: Store, json: JsonCodec, enabled: bool, key: string, prefix: string, now: int)
    returns (r: Result<Value>)
    ensures !enabled ==> r == Ok(Null)
    ensures enabled ==> (r.Ok? <==> GetSpec(store.entries, prefix + key, now).Ok?)
    ensures enabled && r.Ok? ==> r.value == DecodeCached(json, GetSpec(store.entries, prefix + key, now).value)
    ensures enabled && r.Err? ==> r == Err(GetSpec(store.entries, prefix + key, now).message)
  {
    if !enabled { return Ok(Null); }
    var raw := store.Get(prefix + key, now);
    if raw.Err? { return Err(raw.message); }
    r := Ok(DecodeCached(json, raw.value));
  }

  /**
    cacheResult: returns what `fetch` produced and stores it only when caching is on and the
    value is neither `null` nor `undefined`; a failing fetch or store propagates.
   */
  method CacheResultOf(store: Store, json: JsonCodec, enabled: bool, key: string, prefix: string, fetched: Result<Value>,
                       ttl: Seconds, now: int)
    returns (r: Result<Value>)
    modifies store
    ensures fetched.Err? ==> r == fetched && store.entries == old(store.entries)
    ensures fetched.Ok? && (!enabled || Nullish(fetched.value)) ==> r == fetched && store.entries == old(store.entries)
    ensures fetched.Ok? && enabled && !Nullish(fetched.value) && ValueToCache(json, fetched.value).Some? ==>
      var stored := SetExSpec(old(store.entries), prefix + key, ValueToCache(json, fetched.value).value, EffectiveTtl(ttl), now);
      && (r.Ok? <==> stored.Ok?)
      && store.entries == (if stored.Ok? then stored.value else old(store.entries))
    ensures fetched.Ok? && enabled && !Nullish(fetched.value) && ValueToCache(json, fetched.value).None? ==>
      r.Err? && store.entries == old(store.entries)
    ensures r.Ok? ==> r == fetched
  {
    if fetched.Err? { return fetched; }
    var result := fetched.value;
    if !enabled || Nullish(result) { return fetched; }
    var stored := SetCachedResult(store, json, key, prefix, result, ttl, now);
    if stored.Err? { return Err(stored.message); }
    r := fetched;
  }

  /** getOrSetCachedResult: a hit is returned and `fetch` is never called; a miss behaves as cacheResult. */
  method GetOrSetCachedResult(store: Store, json: JsonCodec, enabled: bool, key: string, prefix: string,
                              fetched: Result<Value>, ttl: Seconds, now: int)
    returns (r: Result<Value>, calledFetch: bool)
    modifies store
    ensures var hit := GetSpec(old(store.entries), prefix + key, now);
      enabled && hit.Ok? && DecodeCached(json, hit.value) != Null ==>
        !calledFetch && r == Ok(DecodeCached(json, hit.value)) && store.entries == old(store.entries)
    ensures calledFetch && r.Ok? ==> r == fetched
    ensures !enabled ==> calledFetch && r == fetched && store.entries == old(store.entries)
    ensures var hit := GetSpec(old(store.entries), prefix + key, now);
      && (enabled && hit.Err? ==> !calledFetch && r == Err(hit.message) && store.entries == old(store.entries))
      && (calledFetch <==> !enabled || (hit.Ok? && DecodeCached(json, hit.value) == Null))
    ensures var hit := GetSpec(old(store.entries), prefix + key, now);
      enabled && hit.Ok? && DecodeCached(json, hit.value) == Null ==>
        && (fetched.Err? ==> r == fetched && store.entries == old(store.entries))
        && (fetched.Ok? && Nullish(fetched.value) ==> r == fetched && store.entries == old(store.entries))
        && (fetched.Ok? && !Nullish(fetched.value) && ValueToCache(json, fetched.value).None? ==>
              r.Err? && store.entries == old(store.entries))
        && (fetched.Ok? && !Nullish(fetched.value) && ValueToCache(json, fetched.value).Some? ==>
              var stored := SetExSpec(old(store.entries), prefix + key, ValueToCache(json, fetched.value).value,
                                      EffectiveTtl(ttl), now);
              && (r.Ok? <==> stored.Ok?)
              && (r.Ok? ==> r == fetched)
              && store.entries == (if stored.Ok? then stored.value else old(store.entries)))
  {
    var cached := GetCachedResult(store, json, enabled, key, prefix, now);
    if cached.Err? { return Err(cached.message), false; }
    if cached.value != Null { return cached, false; }
    r := CacheResultOf(store, json, enabled, key, prefix, fetched, ttl, now);
    calledFetch := true;
  }

  /** deleteCachedResult: DEL `prefix + key` when caching is on. */
  method DeleteCachedResult(store: Store, enabled: bool, key: string, prefix: string)
    modifies store
    ensures !enabled ==> store.entries == old(store.entries)
    ensures enabled ==> store.entries == DelSpec(old(store.entries), {prefix + key})
  {
    if !enabled { return; }
    store.Del({prefix + key});
  }

  /** The concatenation of the batches. */
  function Flatten(batches: seq<seq<string>>): (r: seq<string>)
    ensures forall k :: k in r <==> exists i :: 0 <= i < |batches| && k in batches[i]
  {
    if |batches| == 0 then [] else
      var r := Flatten(batches[..|batches| - 1]) + batches[|batches| - 1];
      assert forall k :: k in r <==> exists i :: 0 <= i < |batches| && k in batches[i] by {
        forall k
          ensures k in r <==> exists i :: 0 <= i < |batches| && k in batches[i]
        {
          if k in Flatten(batches[..|batches| - 1]) {
            var i :| 0 <= i < |batches| - 1 && k in batches[..|batches| - 1][i];
            assert k in batches[i];
          }
        }
      }
      r
  }

  /** Deleting one set of keys after another deletes their union. */
  lemma DelTwice(db: Db, a: set<string>, b: set<string>)
    ensures DelSpec(DelSpec(db, a), b) == DelSpec(db, a + b)
  {
  }

  /**
    deleteCachedResultsByPrefix: walks the keys the scan yields (`scanned`, in the order the
    iterator reports them), deleting them in batches of 500 and then the remainder. `batches` are
    the DEL calls made.
   */
  method DeleteCachedResultsByPrefix(store: Store, enabled: bool, prefix: string, scanned: seq<string>)
    returns (batches: seq<seq<string>>)
    modifies store
    ensures !enabled ==> batches == [] && store.entries == old(store.entries)
    ensures enabled ==> Flatten(batches) == scanned
    ensures forall i :: 0 <= i < |batches| ==> 1 <= |batches[i]| <= 500
    ensures forall i :: 0 <= i < |batches| - 1 ==> |batches[i]| == 500
    ensures enabled ==> store.entries == DelSpec(old(store.entries), set k | k in scanned)
  {
    batches := [];
    if !enabled { return; }
    var keys: seq<string> := [];
    var i := 0;
    while i < |scanned|
      invariant 0 <= i <= |scanned|
      invariant Flatten(batches) + keys == scanned[..i]
      invariant |keys| < 500
      invariant forall j :: 0 <= j < |batches| ==> |batches[j]| == 500
      invariant store.entries == DelSpec(old(store.entries), set k | k in Flatten(batches))
    {
      keys := keys + [scanned[i]];
      if |keys| >= 500 {
        DelTwice(old(store.entries), set k | k in Flatten(batches), set k | k in keys);
        store.Del(set k | k in keys);
        assert Flatten(batches + [keys]) == Flatten(batches) + keys by {
          assert (batches + [keys])[..|batches|] == batches;
        }
        assert (set k | k in Flatten(batches) + keys) == (set k | k in Flatten(batches)) + (set k | k in keys);
        batches := batches + [keys];
        keys := [];
      }
      assert scanned[..i + 1] == scanned[..i] + [scanned[i]];
      i := i + 1;
    }
    assert scanned[..i] == scanned;
    if |keys| > 0 {
      DelTwice(old(store.entries), set k | k in Flatten(batches), set k | k in keys);
      store.Del(set k | k in keys);
      assert Flatten(batches + [keys]) == Flatten(batches) + keys by {
        assert (batches + [keys])[..|batches|] == batches;
      }
      assert (set k | k in Flatten(batches) + keys) == (set k | k in Flatten(batches)) + (set k | k in keys);
      batches := batches + [keys];
    }
  }

  /** When the scan reports every matching key, none survives the delete. */
  lemma DeleteByPrefixClears(db: Db, prefix: string, scanned: seq<string>, now: int)
    requires forall k :: k in KeysWithPrefix(db, prefix, now) ==> k in scanned
    ensures KeysWithPrefix(DelSpec(db, set k | k in scanned), prefix, now) == {}
  {
  }
}
