/**
  The chat-create handler: up to three attempts to insert a new chat row under a fresh id, each
  insert doing nothing when the id is taken; the first insert that lands is answered with the
  id and a grant for it.
 */
module Create {
  import opened Wrappers
  import opened Js
  import opened Schema
  import opened Grant
  import opened ValidateChatUser

  const MaxAttempts := 3

  /** What the handler answers: `{chatId, chatGrant}`, or 500 `{error: "Failed to create chat"}`. */
  datatype CreateReply = Created(chatId: string, chatGrant: string) | CreateFailed

  /** The row an insert writes: no title yet, both times `now`. */
  function NewChatRow(chatType: string, data: string, user: string, now: int): (row: ChatRow)
    ensures row.title.None? && row.createdAt == now && row.updatedAt == now
    ensures row.chatType == chatType && row.data == data && row.user == user
  {
    ChatRow(chatType, None, data, now, now, user)
  }

  /** The first of the candidate ids not yet taken, or `None` when every one is. */
  function FirstFree(chats: map<string, ChatRow>, candidates: seq<string>): (r: Option<nat>)
    ensures r.Some? ==> r.value < |candidates| && candidates[r.value] !in chats
    ensures r.Some? ==> forall j :: 0 <= j < r.value ==> candidates[j] in chats
    ensures r.None? <==> forall j :: 0 <= j < |candidates| ==> candidates[j] in chats
  {
    if |candidates| == 0 then None
    else if candidates[0] !in chats then Some(0)
    else match FirstFree(chats, candidates[1..])
      case None => None
      case Some(k) => Some(k + 1)
  }

  /**
    handleChatCreateRequest. `candidates` are the ids `randomUUID` yields, one per attempt;
    the JSON library, the signing key and the clock are inputs. A JSON failure or a missing
    user is thrown.
   */
  method HandleChatCreate(db: ChatDb, ctx: RequestContext, chatType: string, data: Value, json: JsonCodec,
                          codec: JwtCodec, secret: string, nowMs: nat, candidates: seq<string>)
    returns (r: Result<CreateReply>)
    requires db.Valid()
    requires |candidates| == MaxAttempts
    modifies db
    ensures db.Valid()
    ensures db.messages == old(db.messages)
    ensures ctx.user.None? ==> r == Err("User not found") && db.chats == old(db.chats)
    ensures ctx.user.Some? && json.stringify(Coalesce(data, Obj([]))).None? ==> r.Err? && db.chats == old(db.chats)
    ensures ctx.user.Some? && json.stringify(Coalesce(data, Obj([]))).Some? ==>
      var free := FirstFree(old(db.chats), candidates);
      var address := ctx.user.value.address;
      && (free.None? ==> r == Ok(CreateFailed) && db.chats == old(db.chats))
      && (free.Some? ==>
            var id := candidates[free.value];
            && r == Ok(Created(id, SignChatGrant(codec, secret, id, address, nowMs)))
            && db.chats == old(db.chats)[id := NewChatRow(chatType, json.stringify(Coalesce(data, Obj([]))).value,
                                                          address, nowMs)])
  {
    var user := ctx.GetChatUserOrThrow();
    if user.Err? {
      return Err(user.message);
    }
    var attempt := 0;
    while attempt < MaxAttempts
      invariant 0 <= attempt <= MaxAttempts
      invariant db.chats == old(db.chats) && db.messages == old(db.messages)
      invariant forall j :: 0 <= j < attempt ==> candidates[j] in db.chats
      invariant attempt > 0 ==> json.stringify(Coalesce(data, Obj([]))).Some?
    {
      var chatId := candidates[attempt];
      var text := json.stringify(Coalesce(data, Obj([])));
      if text.None? {
        return Err("JSON.stringify failed");
      }
      if chatId !in db.chats {
        db.chats := db.chats[chatId := NewChatRow(chatType, text.value, user.value.address, nowMs)];
        assert FirstFree(old(db.chats), candidates) == Some(attempt) by {
          FirstFreeIs(old(db.chats), candidates, attempt);
        }
        return Ok(Created(chatId, SignChatGrant(codec, secret, chatId, user.value.address, nowMs)));
      }
      attempt := attempt + 1;
    }
    r := Ok(CreateFailed);
  }

  /** The first free candidate is the one before which every candidate is taken. */
  lemma FirstFreeIs(chats: map<string, ChatRow>, candidates: seq<string>, k: nat)
    requires k < |candidates| && candidates[k] !in chats
    requires forall j :: 0 <= j < k ==> candidates[j] in chats
    ensures FirstFree(chats, candidates) == Some(k)
  {
  }

  /** An existing chat row is never modified by a create, whatever the candidates. */
  lemma ExistingChatUntouched(chats: map<string, ChatRow>, candidates: seq<string>, id: string, row: ChatRow)
    requires id in chats
    requires FirstFree(chats, candidates).Some?
    ensures var k := FirstFree(chats, candidates).value;
      candidates[k] != id && chats[candidates[k] := row][id] == chats[id]
  {
  }
}
