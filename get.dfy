/**
  The chat-read handler: the owner of a chat gets its type, its data and its transcript in
  position order, with every stored row sanitised, and a fresh grant; anyone else gets the same
  404 as for a chat that does not exist.
 */
module Get {
  import opened Wrappers
  import opened Js
  import opened Messages
  import opened Schema
  import opened Address
  import opened Grant
  import opened ValidateChatUser

  /** What the handler answers: 404 `{error: "Chat not found"}`, or the chat with its grant. */
  datatype GetReply =
    | GetNotFound
    | ChatView(chatId: string, chatType: string, data: Value, messages: seq<UIMessage>, chatGrant: string)

  /** `isUiMetadata`: a truthy value of object type. */
  predicate IsUiMetadata(metadata: Value) {
    Truthy(metadata) && IsObjectType(metadata)
  }

  /** The transcript entry served for one stored row. */
  function ToUiMessage(id: string, row: MessageRow): (m: UIMessage)
    ensures m.id == Some(id) && m.role == row.role
    ensures row.parts.Arr? ==> m.parts == row.parts
    ensures !row.parts.Arr? ==> m.parts == Arr([])
    ensures m.metadata.Some? <==> IsUiMetadata(row.metadata)
    ensures m.metadata.Some? ==> m.metadata.value == row.metadata
  {
    UIMessage(Some(id), row.role, if row.parts.Arr? then row.parts else Arr([]),
              if IsUiMetadata(row.metadata) then Some(row.metadata) else None)
  }

  /** Every row of the query result, in the query's order. */
  function ToUiMessages(rows: seq<(string, MessageRow)>): (ms: seq<UIMessage>)
    ensures |ms| == |rows|
    ensures forall i :: 0 <= i < |rows| ==> ms[i] == ToUiMessage(rows[i].0, rows[i].1)
  {
    seq(|rows|, i requires 0 <= i < |rows| => ToUiMessage(rows[i].0, rows[i].1))
  }

  /** `parseJson(data) ?? {}` on the stored JSON text: a parse failure or a JSON null gives `{}`. */
  function ChatData(json: JsonCodec, data: string): (v: Value)
    ensures json.parse(data).None? ==> v == Obj([])
    ensures json.parse(data).Some? && Nullish(json.parse(data).value) ==> v == Obj([])
    ensures json.parse(data).Some? && !Nullish(json.parse(data).value) ==> v == json.parse(data).value
  {
    match json.parse(data)
    case None => Obj([])
    case Some(v) => Coalesce(v, Obj([]))
  }

  /**
    What the message query yields: each row of the chat exactly once, by ascending position
    (the database's order among equal positions is left open).
   */
  predicate IsPositionQuery(messages: map<string, MessageRow>, chatId: string, rows: seq<(string, MessageRow)>) {
    && (forall i :: 0 <= i < |rows| ==> rows[i].0 in messages && messages[rows[i].0] == rows[i].1 && rows[i].1.chatId == chatId)
    && (forall i, j :: 0 <= i < j < |rows| ==> rows[i].0 != rows[j].0 && rows[i].1.position <= rows[j].1.position)
    && (forall id :: id in messages && messages[id].chatId == chatId ==> exists i :: 0 <= i < |rows| && rows[i].0 == id)
  }

  /** The ownership check: the chat exists and its stored owner is the caller's address. */
  predicate Owns(chats: map<string, ChatRow>, chatId: string, address: string) {
    chatId in chats && IsSameAddress(Str(chats[chatId].user), Str(address))
  }

  /**
    handleChatGetRequest. `rows` is the result of the message query for `chatId`; the JSON
    library, the signing key and the clock are inputs.
   */
  function HandleChatGet(chats: map<string, ChatRow>, ctx: RequestContext, chatId: string,
                         rows: seq<(string, MessageRow)>, json: JsonCodec, codec: JwtCodec, secret: string,
                         nowMs: nat): (r: Result<GetReply>)
    reads ctx
    ensures ctx.user.None? ==> r == Err("User not found")
    ensures ctx.user.Some? && !Owns(chats, chatId, ctx.user.value.address) ==> r == Ok(GetNotFound)
    ensures ctx.user.Some? && Owns(chats, chatId, ctx.user.value.address) ==>
      && r.Ok? && r.value.ChatView? && r.value.chatId == chatId
      && r.value.chatType == chats[chatId].chatType
      && r.value.data == ChatData(json, chats[chatId].data)
      && r.value.messages == ToUiMessages(rows)
      && r.value.chatGrant == SignChatGrant(codec, secret, chatId, ctx.user.value.address, nowMs)
  {
    match ctx.GetChatUserOrThrow()
    case Err(e) => Err(e)
    case Ok(user) =>
      if chatId !in chats then Ok(GetNotFound)
      else if !IsSameAddress(Str(chats[chatId].user), Str(user.address)) then Ok(GetNotFound)
      else
        var existing := chats[chatId];
        Ok(ChatView(chatId, existing.chatType, ChatData(json, existing.data), ToUiMessages(rows),
                    SignChatGrant(codec, secret, chatId, user.address, nowMs)))
  }

  /** Somebody else's chat is answered exactly as a chat that does not exist. */
  lemma ForeignChatLooksMissing(chats: map<string, ChatRow>, ctx: RequestContext, chatId: string,
                                rows: seq<(string, MessageRow)>, json: JsonCodec, codec: JwtCodec, secret: string,
                                nowMs: nat)
    requires ctx.user.Some? && chatId in chats && !IsSameAddress(Str(chats[chatId].user), Str(ctx.user.value.address))
    ensures HandleChatGet(chats, ctx, chatId, rows, json, codec, secret, nowMs)
         == HandleChatGet(chats - {chatId}, ctx, chatId, [], json, codec, secret, nowMs)
  {
  }

  /**
    Served from the position query, the transcript lists every row of the chat once, by
    ascending position, each under its own id and role.
   */
  lemma TranscriptInPositionOrder(messages: map<string, MessageRow>, chatId: string, rows: seq<(string, MessageRow)>)
    requires IsPositionQuery(messages, chatId, rows)
    ensures var ms := ToUiMessages(rows);
      && (forall i :: 0 <= i < |ms| ==>
            (ms[i].id.Some? && ms[i].id.value in RowsOfChat(messages, chatId)
             && ms[i].role == messages[ms[i].id.value].role))
      && (forall id :: id in RowsOfChat(messages, chatId) ==> exists i :: 0 <= i < |ms| && ms[i].id == Some(id))
      && (forall i, j :: 0 <= i < j < |ms| ==>
            ms[i].id != ms[j].id && messages[ms[i].id.value].position <= messages[ms[j].id.value].position)
  {
    var ms := ToUiMessages(rows);
    forall id | id in RowsOfChat(messages, chatId) ensures exists i :: 0 <= i < |ms| && ms[i].id == Some(id) {
      var i :| 0 <= i < |rows| && rows[i].0 == id;
      assert ms[i].id == Some(id);
    }
  }

  /** A stored row that is not an array of parts, with null metadata, is served as an empty entry. */
  lemma MalformedRowServedEmpty(id: string, row: MessageRow)
    requires !row.parts.Arr? && row.metadata == Null
    ensures ToUiMessage(id, row) == UIMessage(Some(id), row.role, Arr([]), None)
  {
  }
}
