/**
  The shared key-value connection and the lease lock built on it. A lock is a string key holding
  the holder's token with a millisecond deadline: it is taken with SET NX PX, renewed by a
  heartbeat script that extends the deadline only while the token still matches, and released by
  a script that deletes the key only while the token still matches.
 */
module Redis {
  import opened Wrappers
  import opened KvStore

  /**
    The cached connection promise. `cached` is the module-level `client` being set, `open` the
    client's `isOpen`, `connectCalls` how many times `connect()` was started.
   */
  class Connection {
    var cached: bool
    var open: bool
    var connectCalls: nat

    constructor ()
      ensures !cached && !open && connectCalls == 0
    {
      cached, open, connectCalls := false, false, 0;
    }

    /**
      getRedisClient: reuses the cached connection; otherwise connects, keeping the promise only
      when the connect succeeds so that the next call retries after a failure.
     */
    method GetClient(connectSucceeds: bool, connectError: string) returns (r: Result<()>)
      modifies this
      ensures old(cached) ==> r.Ok? && cached == old(cached) && open == old(open) && connectCalls == old(connectCalls)
      ensures !old(cached) ==> connectCalls == old(connectCalls) + 1
      ensures !old(cached) && connectSucceeds ==> r.Ok? && cached && open
      ensures !old(cached) && !connectSucceeds ==> r == Err(connectError) && !cached && open == old(open)
    {
      if cached { return Ok(()); }
      connectCalls := connectCalls + 1;
      if connectSucceeds {
        cached, open := true, true;
        r := Ok(());
      } else {
        cached := false;
        r := Err(connectError);
      }
    }

    /**
      closeRedisClient: does nothing when the client is not open; otherwise quits, falling back to
      a disconnect when the quit fails (a failed disconnect is only logged, and the client stays
      open), and always drops the cached promise.
     */
    method Close(quitSucceeds: bool, disconnectSucceeds: bool)
      modifies this
      ensures !old(open) ==> cached == old(cached) && open == old(open)
      ensures old(open) ==> !cached && (open <==> !quitSucceeds && !disconnectSucceeds)
      ensures connectCalls == old(connectCalls)
    {
      if !open { return; }
      if quitSucceeds || disconnectSucceeds {
        open := false;
      }
      cached := false;
    }
  }

  /** Options a caller may give; an absent field takes its default. */
  datatype LockOpts = LockOpts(ttlMs: Option<int>, maxWaitMs: Option<int>, retryMinMs: Option<int>, retryMaxMs: Option<int>)

  datatype LockSettings = LockSettings(ttlMs: int, maxWaitMs: int, retryMinMs: int, retryMaxMs: int)

  const DefaultLockSettings := LockSettings(10_000, 60_000, 20, 60)

  /** `{ ...DEFAULT_LOCK_OPTS, ...(opts ?? {}) }`. */
  function MergeLockOpts(opts: Option<LockOpts>): (r: LockSettings)
    ensures opts.None? ==> r == DefaultLockSettings
    ensures opts.Some? ==>
      && r.ttlMs == opts.value.ttlMs.GetOr(DefaultLockSettings.ttlMs)
      && r.maxWaitMs == opts.value.maxWaitMs.GetOr(DefaultLockSettings.maxWaitMs)
      && r.retryMinMs == opts.value.retryMinMs.GetOr(DefaultLockSettings.retryMinMs)
      && r.retryMaxMs == opts.value.retryMaxMs.GetOr(DefaultLockSettings.retryMaxMs)
  {
    match opts
    case None => DefaultLockSettings
    case Some(o) =>
      LockSettings(
        o.ttlMs.GetOr(DefaultLockSettings.ttlMs), o.maxWaitMs.GetOr(DefaultLockSettings.maxWaitMs),
        o.retryMinMs.GetOr(DefaultLockSettings.retryMinMs), o.retryMaxMs.GetOr(DefaultLockSettings.retryMaxMs))
  }

  /** The heartbeat period: `Math.max(1000, Math.floor(ttlMs / 3))`. */
  function HeartbeatPeriod(ttlMs: int): (r: int)
    ensures r >= 1000
    ensures r >= ttlMs / 3
    ensures r == 1000 || r == ttlMs / 3
  {
    if ttlMs / 3 > 1000 then ttlMs / 3 else 1000
  }

  /** The heartbeat renews before the deadline passes exactly when the ttl is at least one second. */
  lemma HeartbeatWithinTtl(ttlMs: int)
    ensures HeartbeatPeriod(ttlMs) <= ttlMs <==> ttlMs >= 1000
  {
  }

  function TimeoutMessage(key: string): string {
    "NonceLockTimeout:" + key
  }

  /** RELEASE_LUA: deletes the key only while it holds `token`; a failing GET changes nothing. */
  function ReleaseSpec(db: Db, key: string, token: string, now: int): (r: Db)
    ensures GetSpec(db, key, now) == Ok(Some(token)) ==> r == DelSpec(db, {key})
    ensures GetSpec(db, key, now) != Ok(Some(token)) ==> r == db
  {
    if GetSpec(db, key, now) == Ok(Some(token)) then DelSpec(db, {key}) else db
  }

  /** HEARTBEAT_LUA: pushes the deadline to `now + ttlMs` only while the key holds `token`. */
  function HeartbeatSpec(db: Db, key: string, token: string, ttlMs: int, now: int): (r: Db)
    ensures GetSpec(db, key, now) == Ok(Some(token)) ==> r == PExpireSpec(db, key, ttlMs, now).0
    ensures GetSpec(db, key, now) != Ok(Some(token)) ==> r == db
  {
    if GetSpec(db, key, now) == Ok(Some(token)) then PExpireSpec(db, key, ttlMs, now).0 else db
  }

  /** Release never removes a lease held under another token, nor touches any other key. */
  lemma ReleaseSparesOtherHolder(db: Db, key: string, mine: string, theirs: string, deadline: int, now: int)
    requires mine != theirs
    requires key in db && db[key] == Entry(Chars(theirs), Some(deadline))
    ensures ReleaseSpec(db, key, mine, now) == db
  {
  }

  /** Release by the holder of a live lease frees the key and leaves every other key as it was. */
  lemma ReleaseFreesOwnLease(db: Db, key: string, token: string, deadline: int, now: int)
    requires key in db && db[key] == Entry(Chars(token), Some(deadline)) && now <= deadline
    ensures key !in ReleaseSpec(db, key, token, now)
    ensures forall k :: k != key && k in db ==> k in ReleaseSpec(db, key, token, now) && ReleaseSpec(db, key, token, now)[k] == db[k]
  {
  }

  /** A heartbeat never extends a lease held under another token. */
  lemma HeartbeatSparesOtherHolder(db: Db, key: string, mine: string, theirs: string, deadline: int, ttlMs: int, now: int)
    requires mine != theirs
    requires key in db && db[key] == Entry(Chars(theirs), Some(deadline))
    ensures HeartbeatSpec(db, key, mine, ttlMs, now) == db
  {
  }

  /** A heartbeat on a live lease of one's own moves its deadline to `now + ttlMs`. */
  lemma HeartbeatRenewsOwnLease(db: Db, key: string, token: string, deadline: int, ttlMs: int, now: int)
    requires ttlMs > 0
    requires key in db && db[key] == Entry(Chars(token), Some(deadline)) && now <= deadline
    ensures HeartbeatSpec(db, key, token, ttlMs, now) == db[key := Entry(Chars(token), Some(now + ttlMs))]
  {
  }

  /** A heartbeat that comes after the deadline finds nothing to renew: the lease has lapsed. */
  lemma HeartbeatAfterLapse(db: Db, key: string, token: string, deadline: int, ttlMs: int, now: int)
    requires key in db && db[key] == Entry(Chars(token), Some(deadline)) && now > deadline
    ensures HeartbeatSpec(db, key, token, ttlMs, now) == db
  {
  }

  /**
    With a ttl below one second the heartbeat comes too late: a 500 ms lease taken at 0 has lapsed
    by the first heartbeat at 1000, so a second caller takes the key at 600 while the first still runs.
   */
  lemma ShortTtlLeaseLapses(db: Db, key: string)
    requires key !in db
    ensures HeartbeatPeriod(500) == 1000
    ensures var held := SetNxPxSpec(db, key, "first", 500, 0);
      && held == Ok((db[key := Entry(Chars("first"), Some(500))], true))
      && SetNxPxSpec(held.value.0, key, "second", 500, 600).Ok?
      && SetNxPxSpec(held.value.0, key, "second", 500, 600).value.1
  {
  }

  /**
    The acquire loop: one SET NX PX per attempt; after a failed attempt it gives up once
    `maxWaitMs` has elapsed and otherwise sleeps. `pause(k)` is how long the k-th sleep lasts (a
    timer never fires before one millisecond). `attempts` are the clock readings of the attempts.
   */
  method Acquire(store: Store, key: string, token: string, s: LockSettings, start: int, pause: nat -> nat)
    returns (r: Result<int>, attempts: seq<int>)
    modifies store
    ensures |attempts| >= 1 && attempts[0] == start
    ensures forall i :: 0 < i < |attempts| ==> attempts[i] > attempts[i - 1]
    ensures forall i :: 0 <= i < |attempts| - 1 ==> attempts[i] - start < s.maxWaitMs
    ensures forall i :: 0 <= i < |attempts| - 1 ==> Find(old(store.entries), key, attempts[i]).Some?
    ensures r.Err? ==> store.entries == old(store.entries)
    ensures r.Err? ==> (r == Err(InvalidExpire) <==> s.ttlMs <= 0)
    ensures r.Err? && s.ttlMs > 0 ==>
      && r.message == TimeoutMessage(key)
      && Find(old(store.entries), key, attempts[|attempts| - 1]).Some?
      && attempts[|attempts| - 1] - start >= s.maxWaitMs
    ensures r.Ok? ==>
      && s.ttlMs > 0
      && r.value == attempts[|attempts| - 1]
      && Find(old(store.entries), key, r.value).None?
      && store.entries == old(store.entries)[key := Entry(Chars(token), Some(r.value + s.ttlMs))]
  {
    var now := start;
    var k: nat := 0;
    attempts := [];
    while true
      invariant store.entries == old(store.entries)
      invariant |attempts| == k
      invariant k == 0 ==> now == start
      invariant k > 0 ==> attempts[0] == start && now > attempts[k - 1]
      invariant forall i :: 0 < i < |attempts| ==> attempts[i] > attempts[i - 1]
      invariant forall i :: 0 <= i < |attempts| ==> attempts[i] - start < s.maxWaitMs
      invariant forall i :: 0 <= i < |attempts| ==> Find(old(store.entries), key, attempts[i]).Some?
      invariant s.ttlMs > 0 || k == 0
      decreases if now - start < s.maxWaitMs then start + s.maxWaitMs - now else 0
    {
      attempts := attempts + [now];
      var ok := store.SetNxPx(key, token, s.ttlMs, now);
      if ok.Err? {
        r := Err(ok.message);
        return;
      }
      if ok.value {
        r := Ok(now);
        return;
      }
      if now - start >= s.maxWaitMs {
        r := Err(TimeoutMessage(key));
        assert TimeoutMessage(key)[0] != InvalidExpire[0];
        return;
      }
      now := now + (if pause(k) < 1 then 1 else pause(k));
      k := k + 1;
    }
  }

  /**
    The heartbeats while `fn` runs: one at every period after the acquisition, strictly before
    `end`. The lease keeps its token throughout; when the ttl is at least one second each
    heartbeat finds it live and renews it, so it is still live at `end`.
   */
  method Heartbeats(store: Store, key: string, token: string, ttlMs: int, acquiredAt: int, end: int)
    returns (beats: seq<int>, ghost deadline: int)
    requires ttlMs > 0
    requires key in store.entries && store.entries[key] == Entry(Chars(token), Some(acquiredAt + ttlMs))
    modifies store
    ensures store.entries == old(store.entries)[key := Entry(Chars(token), Some(deadline))]
    ensures forall i :: 0 <= i < |beats| ==> beats[i] == acquiredAt + (i + 1) * HeartbeatPeriod(ttlMs) && beats[i] < end
    ensures acquiredAt + (|beats| + 1) * HeartbeatPeriod(ttlMs) >= end
    ensures ttlMs >= 1000 ==> end <= deadline
  {
    var p := HeartbeatPeriod(ttlMs);
    var tick := acquiredAt + p;
    deadline := acquiredAt + ttlMs;
    beats := [];
    while tick < end
      invariant tick == acquiredAt + (|beats| + 1) * p
      invariant store.entries == old(store.entries)[key := Entry(Chars(token), Some(deadline))]
      invariant forall i :: 0 <= i < |beats| ==> beats[i] == acquiredAt + (i + 1) * p && beats[i] < end
      invariant ttlMs >= 1000 ==> tick <= deadline
      decreases end - tick
    {
      var before := store.entries;
      var got := store.Get(key, tick);
      if got == Ok(Some(token)) {
        var _ := store.PExpire(key, ttlMs, tick);
        deadline := tick + ttlMs;
      }
      assert store.entries == HeartbeatSpec(before, key, token, ttlMs, tick);
      beats := beats + [tick];
      tick := tick + p;
    }
  }

  /**
    withRedisLock: acquires, runs `fn` (which takes `fnDuration` ms and ends with `outcome`),
    then attempts the release whatever the outcome, ignoring its failure. When the lock cannot be
    taken, `fn` never runs and the acquisition error is returned.
   */
  method WithRedisLock<T>(store: Store, key: string, token: string, opts: Option<LockOpts>, start: int,
                          pause: nat -> nat, fnDuration: nat, outcome: Result<T>)
    returns (r: Result<T>, ran: bool, attempts: seq<int>)
    modifies store
    ensures |attempts| >= 1 && attempts[0] == start
    ensures forall i :: 0 <= i < |attempts| - 1 ==> attempts[i] - start < MergeLockOpts(opts).maxWaitMs
    ensures forall i :: 0 <= i < |attempts| - 1 ==> Find(old(store.entries), key, attempts[i]).Some?
    ensures ran <==> MergeLockOpts(opts).ttlMs > 0 && Find(old(store.entries), key, attempts[|attempts| - 1]).None?
    ensures MergeLockOpts(opts).ttlMs > 0 && Find(old(store.entries), key, start).None? ==> ran
    ensures !ran && MergeLockOpts(opts).ttlMs > 0 ==>
      r == Err(TimeoutMessage(key)) && attempts[|attempts| - 1] - start >= MergeLockOpts(opts).maxWaitMs
    ensures var s := MergeLockOpts(opts);
      !ran ==> store.entries == old(store.entries) && r.Err? && (s.ttlMs <= 0 ==> r == Err(InvalidExpire))
    ensures ran ==> r == outcome && MergeLockOpts(opts).ttlMs > 0
    ensures DelSpec(store.entries, {key}) == DelSpec(old(store.entries), {key})
    ensures ran && MergeLockOpts(opts).ttlMs >= 1000 ==> key !in store.entries
  {
    var s := MergeLockOpts(opts);
    var acquired;
    acquired, attempts := Acquire(store, key, token, s, start, pause);
    if acquired.Err? {
      return Err(acquired.message), false, attempts;
    }
    ghost var before := store.entries;
    HoldAndRelease(store, key, token, s.ttlMs, acquired.value, fnDuration);
    assert DelSpec(before, {key}) == DelSpec(old(store.entries), {key});
    r, ran := outcome, true;
  }

  /**
    The part of withRedisLock after the lock is taken: the heartbeats while `fn` runs, then the
    release. Only the lock's own key can change, and with a ttl of at least one second the lease
    is still held at the end and so is released.
   */
  method HoldAndRelease(store: Store, key: string, token: string, ttlMs: int, acquiredAt: int, fnDuration: nat)
    requires ttlMs > 0
    requires key in store.entries && store.entries[key] == Entry(Chars(token), Some(acquiredAt + ttlMs))
    modifies store
    ensures DelSpec(store.entries, {key}) == DelSpec(old(store.entries), {key})
    ensures ttlMs >= 1000 ==> key !in store.entries
  {
    var end := acquiredAt + fnDuration;
    var beats, deadline := Heartbeats(store, key, token, ttlMs, acquiredAt, end);
    var got := store.Get(key, end);
    if got == Ok(Some(token)) {
      store.Del({key});
    }
  }
}
