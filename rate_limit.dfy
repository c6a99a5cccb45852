/**
  Sliding-window usage ledgers on sorted sets. Recording usage adds the amount as a member
  scored by the current time and gives the key a one-day expiry; reading the usage of the last
  `windowMinutes` first prunes every member at or before the window start, then sums what is left.
  A member is the amount itself, so two equal amounts occupy one member.
 */
module RateLimit {
  import opened Wrappers
  import opened KvStore

  const OneDaySeconds := 24 * 60 * 60

  /** The first excluded instant: `now - windowMinutes * 60 * 1000`. */
  function WindowStart(now: int, windowMinutes: int): int {
    now - windowMinutes * 60 * 1000
  }

  /** A set with no element is empty. */
  lemma HasElement(s: set<int>)
    ensures s == {} || exists x :: x in s
  {
    if forall x :: x !in s {
      assert s == {};
    }
  }

  /** The sum of a set of amounts. */
  ghost function SumOf(s: set<int>): int
    decreases |s|
  {
    if s == {} then 0 else HasElement(s); var x :| x in s; x + SumOf(s - {x})
  }

  /** The sum does not depend on which element is taken first. */
  lemma SumOfRemove(s: set<int>, y: int)
    requires y in s
    ensures SumOf(s) == y + SumOf(s - {y})
    decreases |s|
  {
    var x :| x in s && SumOf(s) == x + SumOf(s - {x});
    if x != y {
      SumOfRemove(s - {x}, y);
      SumOfRemove(s - {y}, x);
      assert s - {x} - {y} == s - {y} - {x};
    }
  }

  lemma SumOfAdd(s: set<int>, y: int)
    requires y !in s
    ensures SumOf(s + {y}) == SumOf(s) + y
  {
    SumOfRemove(s + {y}, y);
    assert s + {y} - {y} == s;
  }

  /** With non-negative amounts, each amount is bounded by the sum. */
  lemma SumOfBound(s: set<int>, y: int)
    requires forall x :: x in s ==> x >= 0
    requires y in s
    ensures y <= SumOf(s)
  {
    SumOfRemove(s, y);
    SumOfNonNegative(s - {y});
  }

  lemma SumOfNonNegative(s: set<int>)
    requires forall x :: x in s ==> x >= 0
    ensures SumOf(s) >= 0
    decreases |s|
  {
    if s != {} {
      HasElement(s);
      var x :| x in s;
      SumOfRemove(s, x);
      SumOfNonNegative(s - {x});
    }
  }

  /** What the ledger `z` holds after the window start `ws`. */
  ghost function WindowTotal(z: map<int, int>, ws: int): int {
    SumOf(Above(z, ws).Keys)
  }

  /** The usage a read at `now` reports for `key`, when the key holds a ledger or nothing. */
  ghost function Usage(db: Db, key: string, ws: int, now: int): int
    requires ScoresAt(db, key, now).Ok?
  {
    WindowTotal(ScoresAt(db, key, now).value, ws)
  }

  /**
    getUsage: prunes the ledger up to the window start and sums the amounts left; a key that
    holds a string makes the script fail.
   */
  method GetUsage(store: Store, key: string, windowMinutes: int, now: int) returns (r: Result<int>)
    modifies store
    ensures r.Ok? <==> ScoresAt(old(store.entries), key, now).Ok?
    ensures r.Ok? ==>
      && store.entries == ZRemUpToSpec(old(store.entries), key, WindowStart(now, windowMinutes), now).value
      && r.value == Usage(old(store.entries), key, WindowStart(now, windowMinutes), now)
    ensures r.Err? ==> store.entries == old(store.entries)
  {
    var ws := WindowStart(now, windowMinutes);
    ghost var before := store.entries;
    var pruned := store.ZRemUpTo(key, ws, now);
    if pruned.Err? { return Err(pruned.message); }
    PrunedLedger(before, key, ws, now);
    var z := store.Scores(key, now);
    assert z.value.Keys == Above(ScoresAt(before, key, now).value, ws).Keys;
    ghost var after := store.entries;
    var pending := z.value.Keys;
    var sum := 0;
    while pending != {}
      invariant store.entries == after
      invariant pending <= z.value.Keys
      invariant sum + SumOf(pending) == SumOf(z.value.Keys)
      decreases |pending|
    {
      var x :| x in pending;
      SumOfRemove(pending, x);
      sum := sum + x;
      pending := pending - {x};
    }
    r := Ok(sum);
  }

  /** After the prune, the ledger holds exactly the members above the window start. */
  lemma PrunedLedger(db: Db, key: string, ws: int, now: int)
    requires ZRemUpToSpec(db, key, ws, now).Ok?
    ensures var after := ZRemUpToSpec(db, key, ws, now).value;
      ScoresAt(after, key, now) == Ok(Above(ScoresAt(db, key, now).value, ws))
  {
    var z := ScoresAt(db, key, now).value;
    var after := ZRemUpToSpec(db, key, ws, now).value;
    if Find(db, key, now).Some? {
      var kept := Above(z, ws);
      if kept == map[] {
        assert key !in after;
      } else {
        assert after[key] == db[key].(data := Scores(kept));
      }
    } else {
      assert Above(map[], ws) == map[];
    }
  }

  /** Reading twice at the same instant reports the same usage: the prune loses nothing in the window. */
  lemma UsageReadIdempotent(db: Db, key: string, ws: int, now: int)
    requires ScoresAt(db, key, now).Ok?
    ensures ZRemUpToSpec(db, key, ws, now).Ok?
    ensures Usage(ZRemUpToSpec(db, key, ws, now).value, key, ws, now) == Usage(db, key, ws, now)
  {
    PrunedLedger(db, key, ws, now);
    var z := ScoresAt(db, key, now).value;
    assert Above(Above(z, ws), ws) == Above(z, ws);
  }

  /** recordUsage as one MULTI: ZADD then EXPIRE one day; the EXPIRE runs even when the ZADD fails. */
  function RecordSpec(db: Db, key: string, amount: int, now: int): (r: (Db, Result<()>))
    ensures r.1.Ok? <==> ScoresAt(db, key, now).Ok?
  {
    var added := ZAddSpec(db, key, amount, now, now);
    var db1 := if added.Ok? then added.value else db;
    (ExpireSpec(db1, key, OneDaySeconds, now), if added.Ok? then Ok(()) else Err(added.message))
  }

  method RecordUsage(store: Store, key: string, amount: int, now: int) returns (r: Result<()>)
    modifies store
    ensures (store.entries, r) == RecordSpec(old(store.entries), key, amount, now)
  {
    var added := store.ZAdd(key, amount, now, now);
    assert store.entries == if added.Ok? then ZAddSpec(old(store.entries), key, amount, now, now).value else old(store.entries);
    store.Expire(key, OneDaySeconds, now);
    r := if added.Ok? then Ok(()) else Err(added.message);
  }

  /** A recorded ledger is live for one day, and its newest member is the amount, scored at `now`. */
  lemma RecordKeepsLedgerLive(db: Db, key: string, amount: int, now: int)
    requires RecordSpec(db, key, amount, now).1.Ok?
    ensures var after := RecordSpec(db, key, amount, now).0;
      && key in after && after[key].expiresAt == Some(now + OneDaySeconds * 1000)
      && after[key].data == Scores(ScoresAt(db, key, now).value[amount := now])
  {
  }

  /**
    A record that falls inside the window adds its amount to the usage read within the day, when
    no recorded amount equal to it is still in the window.
   */
  lemma RecordAddsAmount(db: Db, key: string, amount: int, t: int, ws: int, now: int)
    requires RecordSpec(db, key, amount, t).1.Ok?
    requires ws < t <= now <= t + OneDaySeconds * 1000
    requires amount !in Above(ScoresAt(db, key, t).value, ws)
    ensures ScoresAt(RecordSpec(db, key, amount, t).0, key, now).Ok?
    ensures Usage(RecordSpec(db, key, amount, t).0, key, ws, now)
         == WindowTotal(ScoresAt(db, key, t).value, ws) + amount
  {
    var z := ScoresAt(db, key, t).value;
    var after := RecordSpec(db, key, amount, t).0;
    RecordKeepsLedgerLive(db, key, amount, t);
    assert ScoresAt(after, key, now) == Ok(z[amount := t]);
    assert Above(z[amount := t], ws).Keys == Above(z, ws).Keys + {amount};
    SumOfAdd(Above(z, ws).Keys, amount);
  }

  /**
    Recording an amount equal to one already in the window adds nothing: the member is only
    re-scored, so the usage read afterwards is what it was.
   */
  lemma RecordEqualAmountCollides(db: Db, key: string, amount: int, t: int, ws: int, now: int)
    requires RecordSpec(db, key, amount, t).1.Ok?
    requires ws < t <= now <= t + OneDaySeconds * 1000
    requires amount in Above(ScoresAt(db, key, t).value, ws)
    ensures ScoresAt(RecordSpec(db, key, amount, t).0, key, now).Ok?
    ensures Usage(RecordSpec(db, key, amount, t).0, key, ws, now) == WindowTotal(ScoresAt(db, key, t).value, ws)
  {
    var z := ScoresAt(db, key, t).value;
    var after := RecordSpec(db, key, amount, t).0;
    RecordKeepsLedgerLive(db, key, amount, t);
    assert ScoresAt(after, key, now) == Ok(z[amount := t]);
    assert Above(z[amount := t], ws).Keys == Above(z, ws).Keys;
  }

  /** With non-negative amounts, every amount recorded inside the window is within the usage read. */
  lemma UsageBoundsEachRecord(db: Db, key: string, ws: int, now: int, amount: int)
    requires ScoresAt(db, key, now).Ok?
    requires forall m :: m in ScoresAt(db, key, now).value ==> m >= 0
    requires amount in ScoresAt(db, key, now).value && ScoresAt(db, key, now).value[amount] > ws
    ensures amount <= Usage(db, key, ws, now)
  {
    SumOfBound(Above(ScoresAt(db, key, now).value, ws).Keys, amount);
  }

  /** A ledger untouched for a whole window reads as zero usage. */
  lemma StaleLedgerReadsZero(db: Db, key: string, ws: int, now: int)
    requires ScoresAt(db, key, now).Ok?
    requires forall m :: m in ScoresAt(db, key, now).value ==> ScoresAt(db, key, now).value[m] <= ws
    ensures Usage(db, key, ws, now) == 0
  {
    var z := ScoresAt(db, key, now).value;
    assert forall m :: m !in Above(z, ws);
    assert Above(z, ws).Keys == {};
  }
}
