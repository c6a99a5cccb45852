/**
  The key-value store (Redis) as the core uses it: string values with millisecond expiry, sorted
  sets for the usage ledgers, and the commands GET, SET (NX/PX/EX), DEL, PEXPIRE, EXPIRE, ZADD,
  ZREMRANGEBYSCORE and SCAN. Expiry is lazy: an entry past its deadline is treated as absent.
 */
module KvStore {
  import opened Wrappers
  import opened Text

  /** A sorted set maps each member to its score; ledger members are usage amounts. */
  datatype Data = Chars(s: string) | Scores(members: map<int, int>)

  /** A value and its absolute deadline in ms, if any. */
  datatype Entry = Entry(data: Data, expiresAt: Option<int>)

  type Db = map<string, Entry>

  const WrongType := "WRONGTYPE Operation against a key holding the wrong kind of value"

  /** An entry is live up to and including its deadline. */
  predicate Live(e: Entry, now: int) {
    e.expiresAt.None? || now <= e.expiresAt.value
  }

  /** The entry a command sees under `key` at time `now`. */
  function Find(db: Db, key: string, now: int): (r: Option<Entry>)
    ensures r.Some? <==> key in db && Live(db[key], now)
    ensures r.Some? ==> r.value == db[key]
  {
    if key in db && Live(db[key], now) then Some(db[key]) else None
  }

  /** GET: the string stored under `key`, `None` when absent; an error on a sorted set. */
  function GetSpec(db: Db, key: string, now: int): (r: Result<Option<string>>)
    ensures r == Ok(None) <==> Find(db, key, now).None?
    ensures r.Ok? && r.value.Some? <==> Find(db, key, now).Some? && Find(db, key, now).value.data.Chars?
  {
    match Find(db, key, now)
    case None => Ok(None)
    case Some(Entry(Chars(s), _)) => Ok(Some(s))
    case Some(Entry(Scores(_), _)) => Err(WrongType)
  }

  const InvalidExpire := "ERR invalid expire time in 'set' command"

  /**
    SET key value NX PX ttl: stores only when the key is absent or expired, and says whether it
    did; a non-positive ttl is refused.
   */
  function SetNxPxSpec(db: Db, key: string, value: string, ttlMs: int, now: int): (r: Result<(Db, bool)>)
    ensures r.Err? <==> ttlMs <= 0
    ensures r.Ok? ==> (r.value.1 <==> Find(db, key, now).None?)
    ensures r.Ok? && r.value.1 ==> r.value.0 == db[key := Entry(Chars(value), Some(now + ttlMs))]
    ensures r.Ok? && !r.value.1 ==> r.value.0 == db
  {
    if ttlMs <= 0 then Err(InvalidExpire)
    else if Find(db, key, now).None? then Ok((db[key := Entry(Chars(value), Some(now + ttlMs))], true))
    else Ok((db, false))
  }

  /** SET key value EX seconds: replaces whatever was there, with a fresh deadline; a non-positive ttl is refused. */
  function SetExSpec(db: Db, key: string, value: string, seconds: int, now: int): (r: Result<Db>)
    ensures r.Err? <==> seconds <= 0
    ensures r.Ok? ==> r.value == db[key := Entry(Chars(value), Some(now + seconds * 1000))]
  {
    if seconds <= 0 then Err(InvalidExpire) else Ok(db[key := Entry(Chars(value), Some(now + seconds * 1000))])
  }

  /** DEL keys: removes them. */
  function DelSpec(db: Db, keys: set<string>): (r: Db)
    ensures forall k :: k in r <==> k in db && k !in keys
    ensures forall k :: k in r ==> r[k] == db[k]
  {
    map k | k in db && k !in keys :: db[k]
  }

  /** PEXPIRE key ms: a live key gets the deadline `now + ms` (a non-positive ms deletes it). */
  function PExpireSpec(db: Db, key: string, ms: int, now: int): (r: (Db, bool))
    ensures r.1 <==> Find(db, key, now).Some?
    ensures r.1 && ms > 0 ==> r.0 == db[key := db[key].(expiresAt := Some(now + ms))]
    ensures r.1 && ms <= 0 ==> r.0 == DelSpec(db, {key})
    ensures !r.1 ==> r.0 == db
  {
    if Find(db, key, now).None? then (db, false)
    else if ms > 0 then (db[key := db[key].(expiresAt := Some(now + ms))], true)
    else (DelSpec(db, {key}), true)
  }

  /** EXPIRE key seconds. */
  function ExpireSpec(db: Db, key: string, seconds: int, now: int): Db {
    PExpireSpec(db, key, seconds * 1000, now).0
  }

  /** The members of the sorted set under `key` (none when absent); an error on a string. */
  function ScoresAt(db: Db, key: string, now: int): (r: Result<map<int, int>>)
    ensures Find(db, key, now).None? ==> r == Ok(map[])
  {
    match Find(db, key, now)
    case None => Ok(map[])
    case Some(Entry(Scores(z), _)) => Ok(z)
    case Some(Entry(Chars(_), _)) => Err(WrongType)
  }

  /** ZADD key score member: adds the member, or re-scores it when it is already there. */
  function ZAddSpec(db: Db, key: string, member: int, score: int, now: int): (r: Result<Db>)
    ensures r.Ok? <==> ScoresAt(db, key, now).Ok?
    ensures r.Ok? ==>
      key in r.value && r.value[key].data.Scores? && r.value[key].data.members == ScoresAt(db, key, now).value[member := score]
  {
    match ScoresAt(db, key, now)
    case Err(e) => Err(e)
    case Ok(z) =>
      var deadline := if Find(db, key, now).Some? then db[key].expiresAt else None;
      Ok(db[key := Entry(Scores(z[member := score]), deadline)])
  }

  /** The members whose score is strictly above `bound`. */
  function Above(z: map<int, int>, bound: int): (r: map<int, int>)
    ensures forall m :: m in r <==> m in z && z[m] > bound
    ensures forall m :: m in r ==> r[m] == z[m]
  {
    map m | m in z && z[m] > bound :: z[m]
  }

  /**
    ZREMRANGEBYSCORE key -inf bound: drops every member scored at or below `bound`; a set left
    empty disappears with its key.
   */
  function ZRemUpToSpec(db: Db, key: string, bound: int, now: int): (r: Result<Db>)
    ensures r.Ok? <==> ScoresAt(db, key, now).Ok?
  {
    match ScoresAt(db, key, now)
    case Err(e) => Err(e)
    case Ok(z) =>
      if Find(db, key, now).None? then Ok(db)
      else
        var kept := Above(z, bound);
        if kept == map[] then Ok(DelSpec(db, {key})) else Ok(db[key := db[key].(data := Scores(kept))])
  }

  /** The live keys that start with `prefix`: what `SCAN MATCH prefix*` reports. */
  function KeysWithPrefix(db: Db, prefix: string, now: int): (r: set<string>)
    ensures forall k :: k in r <==> k in db && Live(db[k], now) && StartsWith(k, prefix)
  {
    set k | k in db && Live(db[k], now) && StartsWith(k, prefix)
  }

  /** The server: its keyspace, changed in place by each command. */
  class Store {
    var entries: Db

    constructor ()
      ensures entries == map[]
    {
      entries := map[];
    }

    method Get(key: string, now: int) returns (r: Result<Option<string>>)
      ensures r == GetSpec(entries, key, now)
    {
      r := GetSpec(entries, key, now);
    }

    /** SET NX PX; `Ok(true)` is the reply "OK", `Ok(false)` the null reply. */
    method SetNxPx(key: string, value: string, ttlMs: int, now: int) returns (r: Result<bool>)
      modifies this
      ensures var next := SetNxPxSpec(old(entries), key, value, ttlMs, now);
        && (r.Ok? <==> next.Ok?)
        && (r.Ok? ==> entries == next.value.0 && r.value == next.value.1)
        && (r.Err? ==> entries == old(entries) && r.message == next.message)
    {
      var next := SetNxPxSpec(entries, key, value, ttlMs, now);
      if next.Err? { return Err(next.message); }
      entries := next.value.0;
      r := Ok(next.value.1);
    }

    method SetEx(key: string, value: string, seconds: int, now: int) returns (r: Result<()>)
      modifies this
      ensures r == if SetExSpec(old(entries), key, value, seconds, now).Ok? then Ok(()) else Err(SetExSpec(old(entries), key, value, seconds, now).message)
      ensures entries == if r.Ok? then SetExSpec(old(entries), key, value, seconds, now).value else old(entries)
    {
      var next := SetExSpec(entries, key, value, seconds, now);
      if next.Err? { return Err(next.message); }
      entries := next.value;
      r := Ok(());
    }

    method Del(keys: set<string>)
      modifies this
      ensures entries == DelSpec(old(entries), keys)
    {
      entries := DelSpec(entries, keys);
    }

    method PExpire(key: string, ms: int, now: int) returns (ok: bool)
      modifies this
      ensures (entries, ok) == PExpireSpec(old(entries), key, ms, now)
    {
      var r := PExpireSpec(entries, key, ms, now);
      entries, ok := r.0, r.1;
    }

    method Expire(key: string, seconds: int, now: int)
      modifies this
      ensures entries == ExpireSpec(old(entries), key, seconds, now)
    {
      entries := ExpireSpec(entries, key, seconds, now);
    }

    /** ZADD; on a key holding a string nothing changes and the error is returned. */
    method ZAdd(key: string, member: int, score: int, now: int) returns (r: Result<()>)
      modifies this
      ensures r == if ZAddSpec(old(entries), key, member, score, now).Ok? then Ok(()) else Err(ZAddSpec(old(entries), key, member, score, now).message)
      ensures entries == if r.Ok? then ZAddSpec(old(entries), key, member, score, now).value else old(entries)
    {
      var next := ZAddSpec(entries, key, member, score, now);
      if next.Err? { return Err(next.message); }
      entries := next.value;
      r := Ok(());
    }

    method ZRemUpTo(key: string, bound: int, now: int) returns (r: Result<()>)
      modifies this
      ensures r == if ZRemUpToSpec(old(entries), key, bound, now).Ok? then Ok(()) else Err(ZRemUpToSpec(old(entries), key, bound, now).message)
      ensures entries == if r.Ok? then ZRemUpToSpec(old(entries), key, bound, now).value else old(entries)
    {
      var next := ZRemUpToSpec(entries, key, bound, now);
      if next.Err? { return Err(next.message); }
      entries := next.value;
      r := Ok(());
    }

    /** The members of a sorted set, as ZRANGEBYSCORE reports them. */
    method Scores(key: string, now: int) returns (r: Result<map<int, int>>)
      ensures r == ScoresAt(entries, key, now)
    {
      r := ScoresAt(entries, key, now);
    }
  }

  /** A sorted set is pruned only by ZREMRANGEBYSCORE: a second prune at the same bound removes nothing. */
  lemma ZRemUpToIdempotent(db: Db, key: string, bound: int, now: int)
    requires ZRemUpToSpec(db, key, bound, now).Ok?
    ensures ZRemUpToSpec(ZRemUpToSpec(db, key, bound, now).value, key, bound, now)
         == ZRemUpToSpec(db, key, bound, now)
  {
    var z := ScoresAt(db, key, now).value;
    var once := ZRemUpToSpec(db, key, bound, now).value;
    if Find(db, key, now).Some? {
      var kept := Above(z, bound);
      assert Above(kept, bound) == kept;
      if kept != map[] {
        assert once == db[key := db[key].(data := Scores(kept))];
        assert Find(once, key, now) == Some(once[key]);
        assert ScoresAt(once, key, now) == Ok(kept);
        assert once[key := once[key].(data := Scores(kept))] == once;
      } else {
        assert key !in once;
      }
    }
  }

  /** SET NX never disturbs a live entry: while one holder's value is live, another cannot take the key. */
  lemma SetNxExcludes(db: Db, key: string, mine: string, theirs: string, ttlMs: int, acquiredAt: int, now: int)
    requires acquiredAt <= now <= acquiredAt + ttlMs
    requires SetNxPxSpec(db, key, mine, ttlMs, acquiredAt) == Ok((db[key := Entry(Chars(mine), Some(acquiredAt + ttlMs))], true))
    ensures var held := db[key := Entry(Chars(mine), Some(acquiredAt + ttlMs))];
      SetNxPxSpec(held, key, theirs, ttlMs, now) == Ok((held, false))
  {
  }
}
