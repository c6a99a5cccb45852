/**
  Reading the process environment: the comma-separated lists (database replicas, allowed
  origins), the start-up validation of required settings, and the getters for the database
  configuration, the Privy verification key and the chat debug flag.
 */
module Env {
  import opened Wrappers
  import opened Text

  /** The process environment: variable name to value. */
  type Environment = map<string, string>

  function Var(env: Environment, name: string): Option<string> {
    if name in env then Some(env[name]) else None
  }

  /** The trimmed pieces of `raw.split(",")` that are not empty, in order. */
  function CommaList(raw: string): (r: seq<string>)
    ensures forall k :: 0 <= k < |r| ==> r[k] != "" && ',' !in r[k]
  {
    NonEmpty(TrimAll(Split(raw, ',')))
  }

  /** No piece of a comma list starts or ends with whitespace. */
  lemma CommaListTrimmed(raw: string)
    ensures forall k :: 0 <= k < |CommaList(raw)| ==> Trim(CommaList(raw)[k]) == CommaList(raw)[k]
  {
    forall k | 0 <= k < |CommaList(raw)|
      ensures Trim(CommaList(raw)[k]) == CommaList(raw)[k]
    {
      var x := CommaList(raw)[k];
      assert x in TrimAll(Split(raw, ','));
      var j :| 0 <= j < |Split(raw, ',')| && x == Trim(Split(raw, ',')[j]);
      TrimIdempotent(Split(raw, ',')[j]);
    }
  }

  function TrimAll(xs: seq<string>): (r: seq<string>)
    ensures |r| == |xs|
    ensures forall k :: 0 <= k < |r| ==> r[k] == Trim(xs[k])
  {
    seq(|xs|, k requires 0 <= k < |xs| => Trim(xs[k]))
  }

  function NonEmpty(xs: seq<string>): (r: seq<string>)
    ensures forall k :: 0 <= k < |r| ==> r[k] != "" && r[k] in xs
  {
    if |xs| == 0 then [] else if xs[0] == "" then NonEmpty(xs[1..]) else [xs[0]] + NonEmpty(xs[1..])
  }

  lemma {:induction false} NonEmptyKeepsAll(xs: seq<string>)
    requires forall k :: 0 <= k < |xs| ==> xs[k] != ""
    ensures NonEmpty(xs) == xs
    decreases |xs|
  {
    if |xs| > 0 {
      NonEmptyKeepsAll(xs[1..]);
    }
  }

  /** Joining trimmed, non-empty, comma-free pieces with commas and parsing again gives the pieces back. */
  lemma CommaListRoundTrip(xs: seq<string>)
    requires |xs| >= 1
    requires forall k :: 0 <= k < |xs| ==> xs[k] != "" && ',' !in xs[k] && Trim(xs[k]) == xs[k]
    ensures CommaList(Join(xs, ",")) == xs
  {
    SplitJoin(xs, ',');
    assert TrimAll(xs) == xs;
    NonEmptyKeepsAll(xs);
  }

  /** The replica URL preprocessing: no list for a missing value or one with no usable piece. */
  function ReplicaUrls(value: Option<string>): (r: Option<seq<string>>)
    ensures value.None? ==> r.None?
    ensures value.Some? && CommaList(value.value) == [] ==> r.None?
    ensures value.Some? && CommaList(value.value) != [] ==> r == Some(CommaList(value.value))
  {
    if value.None? then None
    else
      var urls := CommaList(value.value);
      if |urls| > 0 then Some(urls) else None
  }

  const Development := "development"
  const Production := "production"

  /** The settings the schema demands as non-empty strings. */
  const RequiredVars := ["OPENAI_API_KEY", "COBUILD_REDIS_URL", "COBUILD_POSTGRES_URL", "PRIVY_APP_ID",
                         "CHAT_GRANT_SECRET", "NEYNAR_API_KEY_NOTIFICATIONS"]

  /** The settings the schema allows to be missing, but not empty. */
  const OptionalVars := ["PRIVY_VERIFICATION_KEY", "DOCS_VECTOR_STORE_ID", "DEBUG_CHAT", "DEBUG_HTTP",
                         "CHAT_ALLOWED_ORIGINS"]

  const MissingKeyInProduction := "Missing required env in production: PRIVY_VERIFICATION_KEY"
  const SchemaRejected := "Invalid environment variables"

  /** What the schema accepts: a known NODE_ENV, every required value non-empty, no optional value empty. */
  predicate SchemaAccepts(env: Environment) {
    && Var(env, "NODE_ENV") in {Some(Development), Some(Production)}
    && (forall k :: 0 <= k < |RequiredVars| ==> RequiredVars[k] in env && env[RequiredVars[k]] != "")
    && (forall k :: 0 <= k < |OptionalVars| ==> OptionalVars[k] in env ==> env[OptionalVars[k]] != "")
  }

  /** The validated settings the rest of the program reads. */
  datatype Settings = Settings(production: bool, postgresUrl: string, replicaUrls: Option<seq<string>>,
                               privyVerificationKey: Option<string>)

  /**
    validateEnvVariables: the schema must accept the environment, and production also needs the
    Privy verification key.
   */
  function ValidateEnvVariables(env: Environment): (r: Result<Settings>)
    ensures r.Ok? <==> SchemaAccepts(env) && !(env["NODE_ENV"] == Production && "PRIVY_VERIFICATION_KEY" !in env)
    ensures SchemaAccepts(env) && env["NODE_ENV"] == Production && "PRIVY_VERIFICATION_KEY" !in env ==>
      r == Err(MissingKeyInProduction)
    ensures r.Ok? ==> "COBUILD_POSTGRES_URL" in env && r.value.postgresUrl == env["COBUILD_POSTGRES_URL"]
    ensures r.Ok? ==> r.value.replicaUrls == ReplicaUrls(Var(env, "COBUILD_POSTGRES_REPLICA_URLS"))
    ensures r.Ok? ==> r.value.privyVerificationKey == Var(env, "PRIVY_VERIFICATION_KEY")
    ensures r.Ok? ==> (r.value.production <==> env["NODE_ENV"] == Production)
  {
    if !SchemaAccepts(env) then Err(SchemaRejected)
    else
      var production := env["NODE_ENV"] == Production;
      var key := Var(env, "PRIVY_VERIFICATION_KEY");
      if production && key.None? then Err(MissingKeyInProduction)
      else
        assert "COBUILD_POSTGRES_URL" == RequiredVars[2];
        Ok(Settings(production, env["COBUILD_POSTGRES_URL"], ReplicaUrls(Var(env, "COBUILD_POSTGRES_REPLICA_URLS")), key))
  }

  datatype DatabaseConfig = DatabaseConfig(primaryUrl: string, replicaUrls: seq<string>)

  /** loadDatabaseConfig: the primary URL and the replica list, empty when none is configured. */
  function LoadDatabaseConfig(env: Environment): (r: Result<DatabaseConfig>)
    ensures r.Ok? <==> ValidateEnvVariables(env).Ok?
    ensures r.Ok? ==> "COBUILD_POSTGRES_URL" in env && r.value.primaryUrl == env["COBUILD_POSTGRES_URL"]
    ensures r.Ok? ==> r.value.replicaUrls == ReplicaUrls(Var(env, "COBUILD_POSTGRES_REPLICA_URLS")).GetOr([])
  {
    var settings := ValidateEnvVariables(env);
    if settings.Err? then Err(settings.message)
    else Ok(DatabaseConfig(settings.value.postgresUrl, settings.value.replicaUrls.GetOr([])))
  }

  /**
    getPrivyVerificationKey: an empty value fails the schema; a missing key is an error in
    production and no key elsewhere.
   */
  function GetPrivyVerificationKey(env: Environment): (r: Result<Option<string>>)
    ensures Var(env, "PRIVY_VERIFICATION_KEY") == Some("") ==> r.Err?
    ensures Var(env, "PRIVY_VERIFICATION_KEY").None? ==>
      r == if Var(env, "NODE_ENV") == Some(Production) then Err(MissingKeyInProduction) else Ok(None)
    ensures r.Ok? && r.value.Some? ==> r.value == Var(env, "PRIVY_VERIFICATION_KEY") && r.value.value != ""
  {
    var key := Var(env, "PRIVY_VERIFICATION_KEY");
    if key == Some("") then Err(SchemaRejected)
    else if key.None? && Var(env, "NODE_ENV") == Some(Production) then Err(MissingKeyInProduction)
    else Ok(key)
  }

  /** isChatDebugEnabled: `DEBUG_CHAT` is "true" or "1", in any case; an empty value fails the schema. */
  function IsChatDebugEnabled(env: Environment): (r: Result<bool>)
    ensures Var(env, "DEBUG_CHAT") == Some("") <==> r.Err?
    ensures r.Ok? ==> (r.value <==> "DEBUG_CHAT" in env && Lower(env["DEBUG_CHAT"]) in {"true", "1"})
  {
    var flag := Var(env, "DEBUG_CHAT");
    if flag == Some("") then Err(SchemaRejected)
    else Ok(flag.Some? && Lower(flag.value) in {"true", "1"})
  }

  /** Upper-case spellings switch chat debugging on too. */
  lemma DebugFlagIgnoresCase(env: Environment)
    requires Var(env, "DEBUG_CHAT") == Some("TRUE")
    ensures IsChatDebugEnabled(env) == Ok(true)
  {
    assert Lower("TRUE") == "true";
  }
}
