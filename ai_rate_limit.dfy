/**
  Token budgets for the model: one ledger per wallet address (six-hour window) and one per
  Farcaster id (one-day window). A caller may start a model call while its usage is strictly
  below the limit.
 */
module AiRateLimit {
  import opened Wrappers
  import opened Text
  import opened KvStore
  import opened RateLimit
  import Address

  /** The per-address limit: 225000 tokens in production, 2000000 elsewhere. */
  function MaxUsagePerUser(production: bool): int {
    if production then 225000 else 2000000
  }

  const MaxUsageWindow := 360
  const MaxUsagePerFid := 250000
  const MaxUsageWindowPerFid := 1440

  /** The ledger of an address: `ai:<address>`. */
  function AddressKey(address: string): (r: string)
    ensures StartsWith(r, "ai:") && r[3..] == address
  {
    "ai:" + address
  }

  /** The ledger of a Farcaster id: `ai:fid:<fid>`. */
  function FidKey(fid: int): (r: string)
    ensures StartsWith(r, "ai:fid:") && r[7..] == IntToString(fid)
  {
    "ai:fid:" + IntToString(fid)
  }

  /** isAiUsageAvailable: reads the address's six-hour usage and compares it with the limit. */
  method IsAiUsageAvailable(store: Store, address: string, production: bool, now: int) returns (r: Result<bool>)
    modifies store
    ensures r.Ok? <==> ScoresAt(old(store.entries), AddressKey(address), now).Ok?
    ensures r.Ok? ==> (r.value <==>
      Usage(old(store.entries), AddressKey(address), WindowStart(now, MaxUsageWindow), now) < MaxUsagePerUser(production))
    ensures r.Ok? ==> store.entries == ZRemUpToSpec(old(store.entries), AddressKey(address), WindowStart(now, MaxUsageWindow), now).value
    ensures r.Err? ==> store.entries == old(store.entries)
  {
    var usage := GetUsage(store, AddressKey(address), MaxUsageWindow, now);
    if usage.Err? { return Err(usage.message); }
    r := Ok(usage.value < MaxUsagePerUser(production));
  }

  method RecordAiUsage(store: Store, address: string, usage: int, now: int) returns (r: Result<()>)
    modifies store
    ensures (store.entries, r) == RecordSpec(old(store.entries), AddressKey(address), usage, now)
  {
    r := RecordUsage(store, AddressKey(address), usage, now);
  }

  /** isAiUsageAvailablePerFid: the same test on the Farcaster id's one-day ledger. */
  method IsAiUsageAvailablePerFid(store: Store, fid: int, now: int) returns (r: Result<bool>)
    modifies store
    ensures r.Ok? <==> ScoresAt(old(store.entries), FidKey(fid), now).Ok?
    ensures r.Ok? ==> (r.value <==>
      Usage(old(store.entries), FidKey(fid), WindowStart(now, MaxUsageWindowPerFid), now) < MaxUsagePerFid)
    ensures r.Ok? ==> store.entries == ZRemUpToSpec(old(store.entries), FidKey(fid), WindowStart(now, MaxUsageWindowPerFid), now).value
    ensures r.Err? ==> store.entries == old(store.entries)
  {
    var usage := GetUsage(store, FidKey(fid), MaxUsageWindowPerFid, now);
    if usage.Err? { return Err(usage.message); }
    r := Ok(usage.value < MaxUsagePerFid);
  }

  method RecordAiUsagePerFid(store: Store, fid: int, usage: int, now: int) returns (r: Result<()>)
    modifies store
    ensures (store.entries, r) == RecordSpec(old(store.entries), FidKey(fid), usage, now)
  {
    r := RecordUsage(store, FidKey(fid), usage, now);
  }

  /** Distinct addresses have distinct ledgers. */
  lemma AddressKeyInjective(a: string, b: string)
    requires AddressKey(a) == AddressKey(b)
    ensures a == b
  {
    assert a == AddressKey(a)[3..];
  }

  /** A wallet address (`0x` and 40 hex digits) never shares a ledger with a Farcaster id. */
  lemma AddressAndFidLedgersApart(address: string, fid: int)
    requires Address.IsAddressText(address)
    ensures AddressKey(address) != FidKey(fid)
  {
    assert AddressKey(address)[3] == '0';
    assert FidKey(fid)[3] == 'f';
  }

  /** The two key spaces meet only through strings that are not addresses, such as `fid:7`. */
  lemma FidShapedTextSharesLedger()
    ensures AddressKey("fid:7") == FidKey(7)
  {
    assert IntToString(7) == "7";
  }

  /**
    A caller whose in-window records already reach the limit is refused: with non-negative
    amounts, one record at or over the limit is enough.
   */
  lemma LargeRecordExhaustsBudget(db: Db, address: string, production: bool, now: int, amount: int)
    requires ScoresAt(db, AddressKey(address), now).Ok?
    requires forall m :: m in ScoresAt(db, AddressKey(address), now).value ==> m >= 0
    requires amount in ScoresAt(db, AddressKey(address), now).value
    requires ScoresAt(db, AddressKey(address), now).value[amount] > WindowStart(now, MaxUsageWindow)
    requires amount >= MaxUsagePerUser(production)
    ensures !(Usage(db, AddressKey(address), WindowStart(now, MaxUsageWindow), now) < MaxUsagePerUser(production))
  {
    UsageBoundsEachRecord(db, AddressKey(address), WindowStart(now, MaxUsageWindow), now, amount);
  }
}
