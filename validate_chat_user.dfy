/**
  The authentication hook in front of the chat routes. In self-hosted mode the caller names
  itself in a header (behind an optional shared secret); otherwise a Privy identity token must
  resolve to a wallet address. The authenticated user is kept in the request context.
 */
module ValidateChatUser {
  import opened Wrappers
  import opened Text
  import opened Js
  import opened Address
  import Env
  import GetUserFromToken

  /** The authenticated caller: a normalised address and the location and agent headers, if sent. */
  datatype ChatUser = ChatUser(address: string, city: Option<string>, country: Option<string>,
                               countryRegion: Option<string>, userAgent: Option<string>)

  type Headers = map<string, Header>

  function HeaderOf(headers: Headers, name: string): Header {
    if name in headers then headers[name] else Absent
  }

  /** `headers[name]?.toString() ?? null`: an array of values is joined with commas. */
  function HeaderText(headers: Headers, name: string): (r: Option<string>)
    ensures HeaderOf(headers, name).One? ==> r == Some(HeaderOf(headers, name).text)
    ensures HeaderOf(headers, name).Absent? ==> r.None?
  {
    match HeaderOf(headers, name)
    case Absent => None
    case One(text) => Some(text)
    case Many(texts) => Some(Join(texts, ","))
  }

  /** The settings self-hosted mode reads, given as inputs. */
  datatype SelfHosting = SelfHosting(enabled: bool, sharedSecret: Option<string>, defaultAddress: Option<string>)

  /** The outcome of the hook: the user to remember, or a 401 with this error text. */
  datatype Decision = Accept(user: ChatUser) | Reject(error: string)

  const MissingChatAuth := "Missing chat auth"
  const InvalidChatAuth := "Invalid chat auth"
  const MissingChatUser := "Missing chat user"
  const MissingToken := "Missing privy id token"
  const InvalidChatUser := "Invalid chat user"

  function UserFor(headers: Headers, address: string): ChatUser {
    ChatUser(address, HeaderText(headers, "city"), HeaderText(headers, "country"),
             HeaderText(headers, "country-region"), HeaderText(headers, "user-agent"))
  }

  /** The non-empty string a header holds, the test `!h || typeof h !== "string"` fails on. */
  predicate PresentString(h: Header) {
    h.One? && h.text != ""
  }

  /** The self-hosted branch: the shared secret, then the claimed address or the default one. */
  function DecideSelfHosted(s: SelfHosting, headers: Headers): (r: Decision)
    ensures var secret := s.sharedSecret;
      secret.Some? && secret.value != "" && !PresentString(HeaderOf(headers, "x-chat-auth")) ==> r == Reject(MissingChatAuth)
    ensures var secret := s.sharedSecret; var auth := HeaderOf(headers, "x-chat-auth");
      secret.Some? && secret.value != "" && PresentString(auth) && auth.text != secret.value ==> r == Reject(InvalidChatAuth)
    ensures r.Accept? ==> NormalizeAddress(Str(RawSelfHostedAddress(s, headers))) == Some(r.user.address)
    ensures r.Accept? ==> r.user == UserFor(headers, r.user.address)
    ensures var secret := s.sharedSecret; var auth := HeaderOf(headers, "x-chat-auth");
      !(secret.Some? && secret.value != "") || (PresentString(auth) && auth.text == secret.value) ==>
        var normalized := NormalizeAddress(Str(RawSelfHostedAddress(s, headers)));
        && (normalized.None? ==> r == Reject(MissingChatUser))
        && (normalized.Some? ==> r == Accept(UserFor(headers, normalized.value)))
  {
    var secret := s.sharedSecret;
    var auth := HeaderOf(headers, "x-chat-auth");
    if secret.Some? && secret.value != "" && !PresentString(auth) then Reject(MissingChatAuth)
    else if secret.Some? && secret.value != "" && auth.text != secret.value then Reject(InvalidChatAuth)
    else
      var normalized := NormalizeAddress(Str(RawSelfHostedAddress(s, headers)));
      if normalized.None? then Reject(MissingChatUser) else Accept(UserFor(headers, normalized.value))
  }

  /** `(typeof header === "string" ? header : null) ?? default ?? ""`. */
  function RawSelfHostedAddress(s: SelfHosting, headers: Headers): string {
    var h := HeaderOf(headers, "x-chat-user");
    if h.One? then h.text else s.defaultAddress.GetOr("")
  }

  /**
    validateChatUser's decision. Errors thrown while resolving the token (a missing verification
    key) propagate.
   */
  function Decide(s: SelfHosting, headers: Headers, env: Env.Environment, verify: GetUserFromToken.Verifier,
                  json: JsonCodec): (r: Result<Decision>)
    ensures s.enabled ==> r == Ok(DecideSelfHosted(s, headers))
    ensures !s.enabled && !PresentString(HeaderOf(headers, "privy-id-token")) ==> r == Ok(Reject(MissingToken))
    ensures !s.enabled && PresentString(HeaderOf(headers, "privy-id-token")) ==>
      var found := GetUserFromToken.GetUserAddressFromToken(env, verify, json, RemoveFirst(HeaderOf(headers, "privy-id-token").text, '"'));
      && (found.Err? ==> r == Err(found.message))
      && (found.Ok? && found.value.None? ==> r == Ok(Reject(InvalidChatUser)))
      && (found.Ok? && found.value.Some? ==>
            r == Ok(if NormalizeAddress(Str(found.value.value)).Some?
                    then Accept(UserFor(headers, NormalizeAddress(Str(found.value.value)).value))
                    else Reject(InvalidChatUser)))
  {
    if s.enabled then Ok(DecideSelfHosted(s, headers))
    else
      var token := HeaderOf(headers, "privy-id-token");
      if !PresentString(token) then Ok(Reject(MissingToken))
      else
        var found := GetUserFromToken.GetUserAddressFromToken(env, verify, json, RemoveFirst(token.text, '"'));
        if found.Err? then Err(found.message)
        else
          var normalized := NormalizeAddress(if found.value.Some? then Str(found.value.value) else Undefined);
          if normalized.None? then Ok(Reject(InvalidChatUser)) else Ok(Accept(UserFor(headers, normalized.value)))
  }

  /** Every accepted caller has a normalised address: `0x` and forty lower-case hex digits. */
  lemma AcceptedAddressNormalised(s: SelfHosting, headers: Headers, env: Env.Environment,
                                  verify: GetUserFromToken.Verifier, json: JsonCodec)
    requires Decide(s, headers, env, verify, json).Ok? && Decide(s, headers, env, verify, json).value.Accept?
    ensures var a := Decide(s, headers, env, verify, json).value.user.address;
      IsAddressText(a) && forall i :: 0 <= i < |a| ==> !('A' <= a[i] <= 'Z')
  {
    if s.enabled {
      NormalizedShape(Str(RawSelfHostedAddress(s, headers)));
    } else {
      var token := HeaderOf(headers, "privy-id-token");
      var found := GetUserFromToken.GetUserAddressFromToken(env, verify, json, RemoveFirst(token.text, '"'));
      NormalizedShape(Str(found.value.value));
    }
  }

  /** The per-request store the hook writes the user into. */
  class RequestContext {
    var user: Option<ChatUser>

    constructor ()
      ensures user.None?
    {
      user := None;
    }

    /**
      validateChatUser: remembers an accepted user and answers `None`; a rejection answers the
      401 error text and leaves the context alone.
     */
    method ValidateChatUser(s: SelfHosting, headers: Headers, env: Env.Environment,
                            verify: GetUserFromToken.Verifier, json: JsonCodec)
      returns (r: Result<Option<string>>)
      modifies this
      ensures var d := Decide(s, headers, env, verify, json);
        && (d.Err? ==> r == Err(d.message) && user == old(user))
        && (d.Ok? && d.value.Reject? ==> r == Ok(Some(d.value.error)) && user == old(user))
        && (d.Ok? && d.value.Accept? ==> r == Ok(None) && user == Some(d.value.user))
    {
      var d := Decide(s, headers, env, verify, json);
      if d.Err? {
        return Err(d.message);
      }
      match d.value
      case Reject(error) => r := Ok(Some(error));
      case Accept(u) => user := Some(u); r := Ok(None);
    }

    /** getChatUserOrThrow. */
    function GetChatUserOrThrow(): (r: Result<ChatUser>)
      reads this
      ensures user.None? ==> r == Err("User not found")
      ensures user.Some? ==> r == Ok(user.value)
    {
      if user.None? then Err("User not found") else Ok(user.value)
    }
  }
}
