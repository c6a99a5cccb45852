/** The CORS origins the HTTP server allows. */
module Server {
  import opened Wrappers
  import opened Env

  const DefaultProdOrigins := ["https://co.build", "https://www.co.build"]
  const DevOrigin := "http://localhost:3000"

  /** The `origin` option: a list of origins or one origin. */
  datatype Origins = List(origins: seq<string>) | Single(origin: string)

  /** The parsed `CHAT_ALLOWED_ORIGINS` list; empty when the variable is missing. */
  function Configured(raw: Option<string>): seq<string> {
    if raw.Some? then CommaList(raw.value) else []
  }

  /**
    getAllowedOrigins: a usable `CHAT_ALLOWED_ORIGINS` list wins, alone and in its own order;
    otherwise production gets the two co.build origins and anything else the local dev origin.
    The source first tests the variable for truthiness; an empty value parses to no origin
    (`EmptyListsNothing`), so testing the parsed list alone decides the same way.
   */
  function GetAllowedOrigins(raw: Option<string>, nodeEnv: Option<string>): (r: Origins)
    ensures |Configured(raw)| > 0 ==> r == List(Configured(raw))
    ensures |Configured(raw)| == 0 ==> r == Fallback(nodeEnv)
  {
    if |Configured(raw)| > 0 then List(Configured(raw))
    else Fallback(nodeEnv)
  }

  /** The origins used when none are configured. */
  function Fallback(nodeEnv: Option<string>): (r: Origins)
    ensures nodeEnv == Some(Production) ==> r == List(DefaultProdOrigins)
    ensures nodeEnv != Some(Production) ==> r == Single(DevOrigin)
  {
    if nodeEnv == Some(Production) then List(DefaultProdOrigins) else Single(DevOrigin)
  }

  /** An empty setting holds no origin. */
  lemma EmptyListsNothing()
    ensures CommaList("") == []
  {
    assert Text.Split("", ',') == [""];
    assert Text.Trim("") == "";
    assert TrimAll([""]) == [""];
  }

  /** A configured list is never merged with the defaults. */
  lemma ConfiguredOriginsAlone(xs: seq<string>, nodeEnv: Option<string>)
    requires |xs| >= 1
    requires forall k :: 0 <= k < |xs| ==> xs[k] != "" && ',' !in xs[k] && Text.Trim(xs[k]) == xs[k]
    ensures GetAllowedOrigins(Some(Text.Join(xs, ",")), nodeEnv) == List(xs)
  {
    CommaListRoundTrip(xs);
  }
}
