/**
  The wallet address behind a Privy identity token: the token is verified against the
  configured ES256 key, and the address is that of the first wallet among the linked accounts.
 */
module GetUserFromToken {
  import opened Wrappers
  import opened Text
  import opened Js
  import Env

  const MissingKey := "Missing PRIVY_VERIFICATION_KEY"

  /**
    The token library: the payload of a token that verifies with the given key for issuer
    `privy.io` and the given audience, or `None` where importing the key or verifying throws.
   */
  type Verifier = (string, string, string) -> Option<Value>

  /** A linked account that counts as the user's wallet. */
  predicate WalletAccount(account: Value) {
    Truthy(account) && Get(account, "address").Str? && Get(account, "type") in {Str("wallet"), Str("ethereum")}
  }

  /** `Array.prototype.find` with `WalletAccount`: the index of the first wallet account. */
  function FirstWallet(accounts: seq<Value>): (r: Option<nat>)
    ensures r.Some? ==> r.value < |accounts| && WalletAccount(accounts[r.value])
    ensures r.Some? ==> forall j :: 0 <= j < r.value ==> !WalletAccount(accounts[j])
    ensures r.None? ==> forall j :: 0 <= j < |accounts| ==> !WalletAccount(accounts[j])
  {
    if |accounts| == 0 then None
    else if WalletAccount(accounts[0]) then Some(0)
    else
      var rest := FirstWallet(accounts[1..]);
      if rest.Some? then Some(rest.value + 1) else None
  }

  /** The linked accounts as parsed from the payload's `linked_accounts` text, if that parses to an array. */
  function LinkedAccounts(json: JsonCodec, payload: Value): (r: Option<seq<Value>>)
    ensures r.Some? ==> var linked := Get(payload, "linked_accounts");
      linked.Str? && json.parse(linked.s) == Some(Arr(r.value))
    ensures var linked := Get(payload, "linked_accounts");
      linked.Str? && json.parse(linked.s).Some? && json.parse(linked.s).value.Arr? ==>
        r == Some(json.parse(linked.s).value.elems)
  {
    var linked := Get(payload, "linked_accounts");
    if !linked.Str? then None
    else
      var parsed := json.parse(linked.s);
      if parsed.Some? && parsed.value.Arr? then Some(parsed.value.elems) else None
  }

  /**
    getUserAddressFromToken: a missing key throws; every failure after that (the app id, the
    verification, the payload, the parse) yields no address.
   */
  function GetUserAddressFromToken(env: Env.Environment, verify: Verifier, json: JsonCodec, token: string)
    : (r: Result<Option<string>>)
    ensures Env.GetPrivyVerificationKey(env).Err? ==> r == Err(Env.GetPrivyVerificationKey(env).message)
    ensures Env.GetPrivyVerificationKey(env) == Ok(None) ==> r == Err(MissingKey)
    ensures r.Ok? && r.value.Some? ==>
      var key := Env.GetPrivyVerificationKey(env).value.value;
      && Env.Var(env, "PRIVY_APP_ID").Some?
      && var payload := verify(token, key, env["PRIVY_APP_ID"]);
      && payload.Some?
      && Truthy(Get(payload.value, "sub"))
      && LinkedAccounts(json, payload.value).Some?
      && var accounts := LinkedAccounts(json, payload.value).value;
      && FirstWallet(accounts).Some?
      && r.value.value == Lower(Get(accounts[FirstWallet(accounts).value], "address").s)
    ensures Env.GetPrivyVerificationKey(env).Ok? && Env.GetPrivyVerificationKey(env).value.Some? ==> r.Ok?
    ensures var key := Env.GetPrivyVerificationKey(env);
      var appId := Env.Var(env, "PRIVY_APP_ID");
      key.Ok? && key.value.Some? && appId.Some? && appId.value != "" ==>
        var payload := verify(token, key.value.value, appId.value);
        payload.Some? && Truthy(payload.value) && Truthy(Get(payload.value, "sub"))
        && Truthy(Get(payload.value, "linked_accounts"))
        && LinkedAccounts(json, payload.value).Some? && FirstWallet(LinkedAccounts(json, payload.value).value).Some? ==>
          var accounts := LinkedAccounts(json, payload.value).value;
          r == Ok(Some(Lower(Get(accounts[FirstWallet(accounts).value], "address").s)))
  {
    var key := Env.GetPrivyVerificationKey(env);
    if key.Err? then Err(key.message)
    else if key.value.None? then Err(MissingKey)
    else
      var appId := Env.Var(env, "PRIVY_APP_ID");
      if appId.None? || appId.value == "" then Ok(None)
      else
        var payload := verify(token, key.value.value, appId.value);
        if payload.None? || !Truthy(payload.value) then Ok(None)
        else if !Truthy(Get(payload.value, "sub")) || !Truthy(Get(payload.value, "linked_accounts")) then Ok(None)
        else
          var accounts := LinkedAccounts(json, payload.value);
          if accounts.None? then Ok(None)
          else
            var found := FirstWallet(accounts.value);
            if found.None? then Ok(None)
            else Ok(Some(Lower(Get(accounts.value[found.value], "address").s)))
  }

  /** A payload without the subject claim yields no address. */
  lemma MissingSubjectGivesNothing(env: Env.Environment, verify: Verifier, json: JsonCodec, token: string)
    requires Env.GetPrivyVerificationKey(env).Ok? && Env.GetPrivyVerificationKey(env).value.Some?
    requires "PRIVY_APP_ID" in env
    requires var p := verify(token, Env.GetPrivyVerificationKey(env).value.value, env["PRIVY_APP_ID"]);
      p.Some? && !Truthy(Get(p.value, "sub"))
    ensures GetUserAddressFromToken(env, verify, json, token) == Ok(None)
  {
  }

  /** The first wallet wins over a later one, and other account types are skipped. */
  lemma FirstWalletWins(a: string, b: string)
    ensures var email := Obj([("type", Str("email")), ("address", Str(b))]);
      var first := Obj([("type", Str("wallet")), ("address", Str(a))]);
      var second := Obj([("type", Str("ethereum")), ("address", Str(b))]);
      FirstWallet([email, first, second]) == Some(1)
  {
    var email := Obj([("type", Str("email")), ("address", Str(b))]);
    var first := Obj([("type", Str("wallet")), ("address", Str(a))]);
    assert first.fields[1..] == [("address", Str(a))];
    assert "type"[0] != "address"[0];
    assert Lookup(first.fields, "address") == Lookup(first.fields[1..], "address") == Str(a);
    assert Get(email, "type") == Str("email");
    assert "email" != "wallet" && "email" != "ethereum";
    var xs := [email, first, Obj([("type", Str("ethereum")), ("address", Str(b))])];
    assert xs[1..][0] == first;
  }
}
