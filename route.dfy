/**
  The chat send handler. It authorises the caller (a matching chat grant, or ownership of the
  chat, which mints a new grant), checks the caller's model budget, persists the transcript with
  a pending assistant placeholder, and hands the model's reply stream three callbacks: the
  message-id generator, the finish handler and the error handler, modelled by `StreamSession`.
 */
module Route {
  import opened Wrappers
  import opened Text
  import opened Js
  import opened Messages
  import opened Schema
  import opened Address
  import opened Grant
  import opened KvStore
  import opened MessageStore
  import opened MessageStatus
  import opened ChatHelpers
  import opened ValidateChatUser
  import RateLimit
  import AiRateLimit
  import Title
  import Env

  /** The request body; `data` is `Undefined` when the client sends none. */
  datatype ChatBody = ChatBody(id: string, messages: seq<UIMessage>, chatType: string, data: Value,
                               context: Option<string>, clientMessageId: Option<string>)

  const NotFoundBody := Obj([("error", Str("Chat not found"))])
  const RateLimitedText := "Too many AI requests. Please try again in a few hours."

  /**
    What the handler answers: 404 with `NotFoundBody`, 429 with `RateLimitedText`, or the UI
    message stream built from `prompt`; `grant` is the `x-chat-grant` response header, if set.
   */
  datatype Reply =
    | NotFound
    | TooManyRequests(grant: Option<string>)
    | Streaming(grant: Option<string>, prompt: seq<ModelMessage>, mobile: bool)

  /** The request's `x-chat-grant` header verifies, names this chat, and names the caller. */
  predicate GrantMatches(codec: JwtCodec, secret: string, header: Header, chatId: string, address: string, nowMs: nat) {
    header.One?
    && var grant := VerifyChatGrant(codec, secret, header.text, nowMs);
    grant.Some? && grant.value.cid == chatId && IsSameAddress(Str(grant.value.sub), Str(address))
  }

  /** The outcome of the authorisation step: refused, or allowed with the grant it minted, if any. */
  datatype Access = Denied | Allowed(issued: Option<string>)

  /**
    A matching grant skips the lookup and mints nothing; otherwise a missing chat and a chat of
    another owner are refused alike, and the owner gets a grant signed now.
   */
  function Authorize(chats: map<string, ChatRow>, codec: JwtCodec, secret: string, header: Header,
                     chatId: string, address: string, nowMs: nat): (r: Access)
    ensures GrantMatches(codec, secret, header, chatId, address, nowMs) ==> r == Allowed(None)
    ensures !GrantMatches(codec, secret, header, chatId, address, nowMs) ==>
      (r.Allowed? <==> chatId in chats && IsSameAddress(Str(chats[chatId].user), Str(address)))
    ensures !GrantMatches(codec, secret, header, chatId, address, nowMs) && r.Allowed? ==>
      r.issued == Some(SignChatGrant(codec, secret, chatId, address, nowMs))
  {
    if GrantMatches(codec, secret, header, chatId, address, nowMs) then Allowed(None)
    else if chatId !in chats then Denied
    else if !IsSameAddress(Str(chats[chatId].user), Str(address)) then Denied
    else Allowed(Some(SignChatGrant(codec, secret, chatId, address, nowMs)))
  }

  /** With a matching grant the chat table is not consulted: any table gives the same answer. */
  lemma GrantSkipsLookup(c1: map<string, ChatRow>, c2: map<string, ChatRow>, codec: JwtCodec, secret: string,
                         header: Header, chatId: string, address: string, nowMs: nat)
    requires GrantMatches(codec, secret, header, chatId, address, nowMs)
    ensures Authorize(c1, codec, secret, header, chatId, address, nowMs) == Authorize(c2, codec, secret, header, chatId, address, nowMs)
  {
  }

  /** A stranger learns nothing: another owner's chat is refused exactly like a missing one. */
  lemma ForeignChatLooksMissing(chats: map<string, ChatRow>, codec: JwtCodec, secret: string, header: Header,
                                chatId: string, address: string, nowMs: nat)
    requires chatId in chats && !IsSameAddress(Str(chats[chatId].user), Str(address))
    ensures Authorize(chats, codec, secret, header, chatId, address, nowMs)
         == Authorize(chats - {chatId}, codec, secret, header, chatId, address, nowMs)
  {
  }

  /**
    The grant minted for an owner lets the same caller back in, without the lookup, until it
    expires: inside its 900 seconds the next request matches.
   */
  lemma MintedGrantMatches(chats: map<string, ChatRow>, codec: JwtCodec, secret: string, header: Header,
                           chatId: string, address: string, signedAt: nat, checkedAt: nat)
    requires Sound(codec)
    requires NormalizeAddress(Str(address)) == Some(address)
    requires Authorize(chats, codec, secret, header, chatId, address, signedAt) == Allowed(Some(SignChatGrant(codec, secret, chatId, address, signedAt)))
    requires signedAt <= checkedAt && EpochSeconds(checkedAt) < EpochSeconds(signedAt) + TtlSeconds
    ensures GrantMatches(codec, secret, One(SignChatGrant(codec, secret, chatId, address, signedAt)), chatId, address, checkedAt)
  {
    GrantRoundTrip(codec, secret, chatId, address, signedAt, checkedAt);
    NormalizedIsLower(address);
  }

  /** A normalised address is its own lower-case form. */
  lemma NormalizedIsLower(address: string)
    requires NormalizeAddress(Str(address)) == Some(address)
    ensures Lower(address) == address
  {
    var t := Trim(address);
    assert address == Lower(t);
    LowerIdempotent(t);
  }

  /** The `x-chat-grant` response header: set only for a non-empty minted grant. */
  function GrantHeader(issued: Option<string>): (r: Option<string>)
    ensures r.Some? <==> issued.Some? && issued.value != ""
    ensures r.Some? ==> r == issued
  {
    if issued.Some? && issued.value != "" then issued else None
  }

  /** The pending assistant entry stored before the stream starts. */
  function Placeholder(pendingId: string): UIMessage {
    UIMessage(Some(pendingId), Assistant, Arr([]), Some(Obj([("pending", Bool(true))])))
  }

  /** `data = {}` in the destructuring: only a missing value takes the default. */
  function BodyData(data: Value): (r: Value)
    ensures data.Undefined? ==> r == Obj([])
    ensures !data.Undefined? ==> r == data
  {
    if data.Undefined? then Obj([]) else data
  }

  /** The store call made before streaming: the transcript and the placeholder, without a title. */
  function InitialArgs(body: ChatBody, address: string, pendingId: string): (a: StoreArgs)
    ensures a.messages == body.messages + [Placeholder(pendingId)] && !a.generateTitle
    ensures a.chatId == body.id && a.userAddress == address && a.clientMessageId == body.clientMessageId
  {
    StoreArgs(body.id, body.messages + [Placeholder(pendingId)], body.chatType, BodyData(body.data), address,
              body.clientMessageId, false)
  }

  /** The store call made on finish: the finished transcript, with a title if none is stored yet. */
  function FinishArgs(body: ChatBody, address: string, finished: seq<UIMessage>): (a: StoreArgs)
    ensures a.messages == finished && a.generateTitle
    ensures a.chatId == body.id && a.userAddress == address && a.clientMessageId == body.clientMessageId
  {
    StoreArgs(body.id, finished, body.chatType, BodyData(body.data), address, body.clientMessageId, true)
  }

  /**
    The stream's callbacks for one request: they remember the chat, the placeholder id, the
    caller's store arguments and whether the placeholder id was handed out.
   */
  class StreamSession {
    const body: ChatBody
    const address: string
    const pendingId: string
    var usedPendingId: bool

    constructor (body: ChatBody, address: string, pendingId: string)
      ensures this.body == body && this.address == address && this.pendingId == pendingId && !usedPendingId
    {
      this.body := body;
      this.address := address;
      this.pendingId := pendingId;
      usedPendingId := false;
    }

    /** `generateMessageId`: the placeholder id on the first call, a fresh id on every later one. */
    method GenerateMessageId(freshId: string) returns (id: string)
      modifies this
      ensures !old(usedPendingId) ==> id == pendingId
      ensures old(usedPendingId) ==> id == freshId
      ensures usedPendingId
    {
      if !usedPendingId {
        usedPendingId := true;
        return pendingId;
      }
      id := freshId;
    }

    /**
      `onFinish`: stores the finished transcript (title enabled), then clears the placeholder
      unless a finished entry claimed its id. Any failure, including reading the debug flag,
      becomes CHAT_PERSIST_ERROR.
     */
    method OnFinish(db: ChatDb, finished: seq<UIMessage>, json: JsonCodec, env: Env.Environment, now: int,
                    fallbackCreatedAt: int, uuids: seq<string>, reply: Title.ModelReply) returns (r: Result<()>)
      requires db.Valid()
      requires |uuids| == |finished|
      modifies db
      ensures db.Valid()
      ensures var (t, stored) := StoreSpec(Tables(old(db.chats), old(db.messages)), FinishArgs(body, address, finished),
                                          json, now, fallbackCreatedAt, uuids, reply);
        && (stored.Err? ==> r == Err(ChatPersistError) && db.chats == t.chats && db.messages == t.messages)
        && (stored.Ok? ==> db.chats == t.chats && db.messages == ClearPending(t.messages, body.id, pendingId, finished))
        && (stored.Ok? ==> (r.Ok? <==> Env.IsChatDebugEnabled(env).Ok?))
        && (r.Err? ==> r == Err(ChatPersistError))
    {
      var stored := StoreChatMessages(db, FinishArgs(body, address, finished), json, now, fallbackCreatedAt, uuids, reply);
      if stored.Err? {
        return Err(ChatPersistError);
      }
      ClearPendingAssistantIfUnclaimed(db, body.id, pendingId, finished);
      var debug := Env.IsChatDebugEnabled(env);
      if debug.Err? {
        return Err(ChatPersistError);
      }
      r := Ok(());
    }

    /** `onError`: marks the placeholder failed with the stream error text and returns that text. */
    method OnError(db: ChatDb, error: Value) returns (message: string)
      requires db.Valid()
      modifies db
      ensures db.Valid()
      ensures message == StreamErrorMessage(error)
      ensures db.chats == old(db.chats)
      ensures db.messages == MarkFailed(old(db.messages), body.id, pendingId, message)
    {
      message := StreamErrorMessage(error);
      MarkAssistantMessageFailed(db, body.id, pendingId, message);
    }
  }

  /** How far a request gets before anything is stored, with the grant header it would carry. */
  datatype Gate = Refused | LedgerFailed | Throttled(grant: Option<string>) | Admitted(grant: Option<string>)

  /** The caller's usage ledger after the window is pruned. */
  ghost function Pruned(entries: map<string, Entry>, address: string, nowMs: int): map<string, Entry>
    requires ScoresAt(entries, AiRateLimit.AddressKey(address), nowMs).Ok?
  {
    ZRemUpToSpec(entries, AiRateLimit.AddressKey(address), RateLimit.WindowStart(nowMs, AiRateLimit.MaxUsageWindow), nowMs).value
  }

  /**
    The authorisation and budget checks together: refused (404), the ledger read failed, over
    the budget (429) or admitted; the budget counts the caller's spend inside the usage window.
   */
  ghost function Admission(chats: map<string, ChatRow>, entries: map<string, Entry>, codec: JwtCodec, secret: string,
                           header: Header, chatId: string, address: string, production: bool, nowMs: nat): (g: Gate)
    ensures g.Refused? <==> Authorize(chats, codec, secret, header, chatId, address, nowMs).Denied?
    ensures g.LedgerFailed? <==>
      (Authorize(chats, codec, secret, header, chatId, address, nowMs).Allowed?
       && ScoresAt(entries, AiRateLimit.AddressKey(address), nowMs).Err?)
    ensures g.Throttled? || g.Admitted? ==>
      g.grant == GrantHeader(Authorize(chats, codec, secret, header, chatId, address, nowMs).issued)
    ensures g.Admitted? ==>
      RateLimit.Usage(entries, AiRateLimit.AddressKey(address), RateLimit.WindowStart(nowMs, AiRateLimit.MaxUsageWindow), nowMs)
      < AiRateLimit.MaxUsagePerUser(production)
    ensures g.Throttled? ==>
      RateLimit.Usage(entries, AiRateLimit.AddressKey(address), RateLimit.WindowStart(nowMs, AiRateLimit.MaxUsageWindow), nowMs)
      >= AiRateLimit.MaxUsagePerUser(production)
  {
    var access := Authorize(chats, codec, secret, header, chatId, address, nowMs);
    if access.Denied? then Refused
    else
      var key := AiRateLimit.AddressKey(address);
      if ScoresAt(entries, key, nowMs).Err? then LedgerFailed
      else if RateLimit.Usage(entries, key, RateLimit.WindowStart(nowMs, AiRateLimit.MaxUsageWindow), nowMs)
              < AiRateLimit.MaxUsagePerUser(production)
      then Admitted(GrantHeader(access.issued))
      else Throttled(GrantHeader(access.issued))
  }

  /**
    handleChatPostRequest up to the start of the stream. The agent's system prompts and the
    converted model messages are inputs, as are the clock, the placeholder id, the UUIDs of the
    store call and the JSON library. A session is returned exactly when the stream starts.
   */
  method HandleChatPost(db: ChatDb, store: Store, ctx: RequestContext, body: ChatBody, headers: Headers,
                        codec: JwtCodec, secret: string, production: bool, json: JsonCodec, nowMs: nat,
                        fallbackCreatedAt: int, pendingId: string, uuids: seq<string>,
                        systemPrompts: seq<ModelMessage>, modelMessages: seq<ModelMessage>)
    returns (r: Result<Reply>, session: StreamSession?)
    requires db.Valid()
    requires |uuids| == |body.messages| + 1
    modifies db, store
    ensures db.Valid()
    ensures ctx.user.None? ==> r == Err("User not found")
    ensures session != null <==> r.Ok? && r.value.Streaming?
    ensures session != null ==>
      (fresh(session) && session.body == body && session.pendingId == pendingId
       && session.address == ctx.user.value.address && !session.usedPendingId)
    ensures ctx.user.Some? ==>
      var gate := Admission(old(db.chats), old(store.entries), codec, secret, HeaderOf(headers, "x-chat-grant"), body.id,
                            ctx.user.value.address, production, nowMs);
      && (gate.Refused? ==> r == Ok(NotFound) && unchanged(db, store))
      && (gate.LedgerFailed? ==> r.Err? && unchanged(db) && store.entries == old(store.entries))
      && (gate.Throttled? ==> r == Ok(TooManyRequests(gate.grant)) && unchanged(db))
      && (gate.Throttled? || gate.Admitted? ==>
            store.entries == Pruned(old(store.entries), ctx.user.value.address, nowMs))
    ensures ctx.user.Some? && Admission(old(db.chats), old(store.entries), codec, secret, HeaderOf(headers, "x-chat-grant"),
                                        body.id, ctx.user.value.address, production, nowMs).Admitted? ==>
      var grant := Admission(old(db.chats), old(store.entries), codec, secret, HeaderOf(headers, "x-chat-grant"), body.id,
                             ctx.user.value.address, production, nowMs).grant;
      var (t, stored) := StoreSpec(Tables(old(db.chats), old(db.messages)), InitialArgs(body, ctx.user.value.address, pendingId),
                                   json, nowMs, fallbackCreatedAt, uuids, Title.Threw(""));
      && Tables(db.chats, db.messages) == t
      && (stored.Err? ==> r == Err(ChatPersistError))
      && (stored.Ok? ==> r == Ok(Streaming(grant, BuildStreamMessages(systemPrompts, modelMessages, body.context),
                                           ResolveIsMobileRequest(HeaderOf(headers, "x-client-device"), ctx.user.value.userAgent))))
  {
    session := null;
    var user := ctx.GetChatUserOrThrow();
    if user.Err? {
      return Err(user.message), null;
    }
    var u := user.value;
    ghost var gate := Admission(db.chats, store.entries, codec, secret, HeaderOf(headers, "x-chat-grant"), body.id,
                                u.address, production, nowMs);
    var access := Authorize(db.chats, codec, secret, HeaderOf(headers, "x-chat-grant"), body.id, u.address, nowMs);
    if access.Denied? {
      assert gate.Refused?;
      return Ok(NotFound), null;
    }
    var canUseAi := AiRateLimit.IsAiUsageAvailable(store, u.address, production, nowMs);
    if canUseAi.Err? {
      assert gate.LedgerFailed?;
      return Err(canUseAi.message), null;
    }
    if !canUseAi.value {
      assert gate.Throttled?;
      return Ok(TooManyRequests(GrantHeader(access.issued))), null;
    }
    assert gate.Admitted?;
    var stored := StoreChatMessages(db, InitialArgs(body, u.address, pendingId), json, nowMs, fallbackCreatedAt, uuids,
                                    Title.Threw(""));
    if stored.Err? {
      return Err(ChatPersistError), null;
    }
    var prompt := BuildStreamMessages(systemPrompts, modelMessages, body.context);
    var mobile := ResolveIsMobileRequest(HeaderOf(headers, "x-client-device"), u.userAgent);
    session := new StreamSession(body, u.address, pendingId);
    r := Ok(Streaming(GrantHeader(access.issued), prompt, mobile));
  }
}
