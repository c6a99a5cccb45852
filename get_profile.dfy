/**
  The Farcaster profile of a wallet address: served from the cache when a valid profile (fid
  above zero) is stored, otherwise the most recently updated matching profile row, which is then
  cached for a day. Any failure along the way yields no profile.
 */
module GetProfile {
  import opened Wrappers
  import opened Js
  import opened KvStore

  const CacheTtlSeconds := 60 * 60 * 24

  function CacheKey(address: string): string {
    "farcaster-profile-by-address:" + address
  }

  /** A profile row as the query returns it: its update time in ms, if any, and the row itself as JSON. */
  datatype ProfileRow = ProfileRow(updatedAt: Option<int>, record: Value)

  /** `Number(row.updatedAt ?? 0)`. */
  function SortKey(row: ProfileRow): int {
    row.updatedAt.GetOr(0)
  }

  /**
    The first element after a stable sort by update time, newest first: the row with the greatest
    key, the earliest such row on a tie.
   */
  function Latest(rows: seq<ProfileRow>): (i: nat)
    requires |rows| > 0
    ensures i < |rows|
    ensures forall j :: 0 <= j < |rows| ==> SortKey(rows[j]) <= SortKey(rows[i])
    ensures forall j :: 0 <= j < i ==> SortKey(rows[j]) < SortKey(rows[i])
  {
    if |rows| == 1 then 0
    else
      var rest := Latest(rows[1..]) + 1;
      if SortKey(rows[0]) >= SortKey(rows[rest]) then 0 else rest
  }

  /** `profile.fid > 0` for the parsed value; `None` where reading `fid` throws (on `null` or `undefined`). */
  function HasPositiveFid(profile: Value): (r: Option<bool>)
    ensures r.None? <==> Nullish(profile)
    ensures r.Some? ==> (r.value <==> Get(profile, "fid").Num? && Get(profile, "fid").n > 0)
  {
    if Nullish(profile) then None
    else var fid := Get(profile, "fid"); Some(fid.Num? && fid.n > 0)
  }

  /** What the cache read leads to: an error, a miss, an unreadable entry, a valid profile, or a stale one. */
  datatype CacheRead = ReadFailed | Miss | Unusable | Valid(profile: Value) | Stale

  /**
    The cache step of lines 12-17: an empty or missing entry is a miss; a stored text that does
    not parse, or whose `fid` cannot be read, throws; a positive fid is served; any other is stale.
   */
  function ReadCache(json: JsonCodec, got: Result<Option<string>>): (c: CacheRead)
    ensures c.Miss? <==> got.Ok? && (got.value.None? || got.value.value == "")
    ensures c.Valid? ==> got.Ok? && got.value.Some? && json.parse(got.value.value) == Some(c.profile)
                         && HasPositiveFid(c.profile) == Some(true)
  {
    if got.Err? then ReadFailed
    else if got.value.None? || got.value.value == "" then Miss
    else match json.parse(got.value.value)
      case None => Unusable
      case Some(profile) =>
        match HasPositiveFid(profile)
        case None => Unusable
        case Some(positive) => if positive then Valid(profile) else Stale
  }

  /**
    getFarcasterProfileByAddress. `rows` is what the query for profiles listing `address` among
    their verified addresses returns; `queried` says whether the query ran. The result is the
    profile as JSON, or `Null`.
   */
  method GetFarcasterProfileByAddress(store: Store, json: JsonCodec, address: string, rows: seq<ProfileRow>, now: int)
    returns (r: Value, queried: bool)
    modifies store
    ensures var c := ReadCache(json, GetSpec(old(store.entries), CacheKey(address), now));
      && (queried <==> c.Miss? || c.Stale?)
      && (c.Valid? ==> r == c.profile && store.entries == old(store.entries))
      && (c.ReadFailed? || c.Unusable? ==> r == Null && store.entries == old(store.entries))
    ensures queried ==>
      var base := if ReadCache(json, GetSpec(old(store.entries), CacheKey(address), now)).Stale?
                  then DelSpec(old(store.entries), {CacheKey(address)}) else old(store.entries);
      && (rows == [] ==> r == Null && store.entries == base)
      && (rows != [] && json.stringify(rows[Latest(rows)].record).None? ==> r == Null && store.entries == base)
      && (rows != [] && json.stringify(rows[Latest(rows)].record).Some? ==>
            r == rows[Latest(rows)].record
            && store.entries == base[CacheKey(address) :=
                 Entry(Chars(json.stringify(rows[Latest(rows)].record).value), Some(now + CacheTtlSeconds * 1000))])
  {
    queried := false;
    var key := CacheKey(address);
    var cached := store.Get(key, now);
    if cached.Err? { return Null, false; }
    if cached.value.Some? && cached.value.value != "" {
      var parsed := json.parse(cached.value.value);
      if parsed.None? { return Null, false; }
      var positive := HasPositiveFid(parsed.value);
      if positive.None? { return Null, false; }
      if positive.value { return parsed.value, false; }
      store.Del({key});
    }
    queried := true;
    if |rows| == 0 { return Null, true; }
    var result := rows[Latest(rows)];
    var text := json.stringify(result.record);
    if text.None? { return Null, true; }
    var stored := store.SetEx(key, text.value, CacheTtlSeconds, now);
    if stored.Err? { return Null, true; }
    r := result.record;
  }

  /** Missing update times sort as zero: a row without one loses to any row updated after the epoch. */
  lemma MissingUpdateLoses(a: Value, b: Value, t: int)
    requires t > 0
    ensures Latest([ProfileRow(None, a), ProfileRow(Some(t), b)]) == 1
  {
  }

  /** On equal update times the earlier row wins. */
  lemma TieKeepsEarlier(a: Value, b: Value, t: int)
    ensures Latest([ProfileRow(Some(t), a), ProfileRow(Some(t), b)]) == 0
  {
  }
}
