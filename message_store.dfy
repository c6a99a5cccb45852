/**
  Transcript reconciliation: `storeChatMessages` writes a whole client transcript into the
  `chat` and `chat_message` tables. It upserts the chat row, resolves every entry to a row id
  (exact id, then client id, then a fresh id), bulk-upserts the rows, deletes the chat's rows
  that the transcript no longer names and, at most once per chat, stores a generated title.
 */
module MessageStore {
  import opened Wrappers
  import opened Js
  import opened Text
  import opened Messages
  import opened Schema
  import MessageText
  import Title

  /** The arguments of `storeChatMessages`; `data` is `Undefined` when the caller passes none. */
  datatype StoreArgs = StoreArgs(
    chatId: string, messages: seq<UIMessage>, chatType: string, data: Value, userAddress: string,
    clientMessageId: Option<string>, generateTitle: bool)

  /** The two tables as values. */
  datatype Tables = Tables(chats: map<string, ChatRow>, messages: map<string, MessageRow>)

  /** `existingById` entries. */
  datatype KnownRow = KnownRow(createdAt: int, clientId: Option<string>)

  /** `existingByClientId` entries. */
  datatype ClientRow = ClientRow(id: string, createdAt: int, clientId: Option<string>)

  /** One row of the bulk upsert: the resolved id and the row to insert under it. */
  datatype ResolvedRow = ResolvedRow(id: string, row: MessageRow)

  // ---------------------------------------------------------------------------------------
  // Step 1: the chat row.

  /**
    The chat upsert: a new row gets a null title and `now` for both timestamps; an existing row
    gets the new type, data, owner and `updatedAt`, and keeps its title and `createdAt`.
   */
  function UpsertChat(chats: map<string, ChatRow>, chatId: string, chatType: string, data: string, user: string, now: int)
    : (r: map<string, ChatRow>)
    ensures r.Keys == chats.Keys + {chatId}
    ensures forall id :: id in chats && id != chatId ==> r[id] == chats[id]
    ensures r[chatId].chatType == chatType && r[chatId].data == data && r[chatId].user == user
    ensures r[chatId].updatedAt == now
    ensures chatId in chats ==> r[chatId].title == chats[chatId].title && r[chatId].createdAt == chats[chatId].createdAt
    ensures chatId !in chats ==> r[chatId].title == None && r[chatId].createdAt == now
  {
    if chatId in chats then
      chats[chatId := chats[chatId].(chatType := chatType, data := data, user := user, updatedAt := now)]
    else
      chats[chatId := ChatRow(chatType, None, data, now, now, user)]
  }

  // ---------------------------------------------------------------------------------------
  // Step 2: the two lookup maps over the chat's existing rows.

  /** `existingById` after the rows `ids` have been visited. */
  function ById(rows: map<string, MessageRow>, ids: set<string>): (m: map<string, KnownRow>)
    ensures forall id :: id in m <==> id in ids && id in rows
  {
    map id | id in ids && id in rows :: KnownRow(rows[id].createdAt, rows[id].clientId)
  }

  /** A client id is indexed only when it is truthy (a non-empty string). */
  predicate HasClientKey(r: MessageRow) {
    r.clientId.Some? && r.clientId.value != ""
  }

  /** The visited rows are rows of one chat, so their client ids are pairwise distinct. */
  predicate SameChatRows(rows: map<string, MessageRow>, ids: set<string>, chatId: string) {
    ClientIdsUnique(rows) && forall id :: id in ids ==> id in rows && rows[id].chatId == chatId
  }

  /** `existingByClientId` after the rows `ids` have been visited. */
  function ByClient(rows: map<string, MessageRow>, ids: set<string>, chatId: string): (m: map<string, ClientRow>)
    requires SameChatRows(rows, ids, chatId)
    ensures forall c :: c in m ==>
      m[c].id in ids && rows[m[c].id].clientId == Some(c) && c != "" && m[c] == ClientRow(m[c].id, rows[m[c].id].createdAt, Some(c))
    ensures forall id :: id in ids && HasClientKey(rows[id]) ==> rows[id].clientId.value in m && m[rows[id].clientId.value].id == id
  {
    map id | id in ids && HasClientKey(rows[id]) :: rows[id].clientId.value := ClientRow(id, rows[id].createdAt, rows[id].clientId)
  }

  // ---------------------------------------------------------------------------------------
  // Step 3: resolving each transcript entry.

  /** The index of the last user entry, -1 when there is none. */
  function LastUserIndex(messages: seq<UIMessage>): (r: int)
    ensures -1 <= r < |messages|
    ensures r >= 0 ==> messages[r].role == User
    ensures forall j :: r < j < |messages| ==> messages[j].role != User
  {
    if |messages| == 0 then -1
    else if messages[|messages| - 1].role == User then |messages| - 1
    else LastUserIndex(messages[..|messages| - 1])
  }

  /** `clientMessageId?.trim() || null`. */
  function RequestedClientId(clientMessageId: Option<string>): (r: Option<string>)
    ensures r.Some? ==> r.value != "" && clientMessageId.Some? && r.value == Trim(clientMessageId.value)
    ensures r.None? ==> clientMessageId.None? || Trim(clientMessageId.value) == ""
  {
    match clientMessageId
    case None => None
    case Some(s) => if Trim(s) == "" then None else Some(Trim(s))
  }

  /** An optional string that is present and non-empty, i.e. truthy. */
  predicate Present(s: Option<string>) {
    s.Some? && s.value != ""
  }

  /** Everything one entry's resolution depends on besides the entry itself. */
  datatype Context = Context(
    chatId: string, byId: map<string, KnownRow>, byClient: map<string, ClientRow>,
    lastUserIndex: int, requestedClientId: Option<string>, fallbackCreatedAt: int)

  /** The client id the request supplies for entry `index`: only the last user entry gets it. */
  function IncomingClientId(ctx: Context, message: UIMessage, index: int): (r: Option<string>)
    ensures r.Some? ==> message.role == User && index == ctx.lastUserIndex && r == ctx.requestedClientId
  {
    if message.role == User && index == ctx.lastUserIndex && ctx.requestedClientId.Some? then ctx.requestedClientId
    else None
  }

  /** The key looked up in `existingByClientId`: the entry's own id when truthy, else the incoming client id. */
  function ClientLookupId(ctx: Context, message: UIMessage, index: int): Option<string> {
    if Present(message.id) then message.id else IncomingClientId(ctx, message, index)
  }

  /** The existing row the entry's id names, if the id is truthy and names a row of this chat. */
  predicate MatchesById(ctx: Context, message: UIMessage) {
    Present(message.id) && message.id.value in ctx.byId
  }

  /** The existing row whose client id equals the lookup key, if that key is truthy. */
  predicate MatchesByClient(ctx: Context, message: UIMessage, index: int) {
    var key := ClientLookupId(ctx, message, index);
    Present(key) && key.value in ctx.byClient
  }

  /** `message.metadata ?? null`. */
  function StoredMetadata(metadata: Option<Value>): Value {
    if metadata.None? || Nullish(metadata.value) then Null else metadata.value
  }

  /** `messageId ?? randomUUID()`, `incomingClientId ?? messageId`, and so on: `a ?? b` on options. */
  function OrElse(a: Option<string>, b: Option<string>): Option<string> {
    if a.Some? then a else b
  }

  /**
    One entry of the `messages.map` in the source. `freshId` is the id `randomUUID()` would give.
    The branches, in order: an id match keeps the id and `createdAt` (a user entry keeps its
    stored client id, else takes the incoming one; other roles get none); a client-id match reuses
    that row's id, client id and `createdAt`; a user entry gets a fresh id with the incoming client
    id or else its own id as client id; any other entry keeps its id (fresh only when absent) and
    has no client id. New rows all get `fallbackCreatedAt`.
   */
  function ResolveEntry(ctx: Context, message: UIMessage, index: int, freshId: string): (r: ResolvedRow)
    ensures r.row.chatId == ctx.chatId && r.row.role == message.role && r.row.parts == message.parts
    ensures r.row.metadata == StoredMetadata(message.metadata) && r.row.position == index
  {
    var isUser := message.role == User;
    var incoming := IncomingClientId(ctx, message, index);
    var lookup := ClientLookupId(ctx, message, index);
    var base := MessageRow(ctx.chatId, None, message.role, message.parts, StoredMetadata(message.metadata), index, ctx.fallbackCreatedAt);
    if MatchesById(ctx, message) then
      var known := ctx.byId[message.id.value];
      ResolvedRow(message.id.value, base.(clientId := if isUser then OrElse(known.clientId, incoming) else None, createdAt := known.createdAt))
    else if MatchesByClient(ctx, message, index) then
      var known := ctx.byClient[lookup.value];
      ResolvedRow(known.id, base.(clientId := known.clientId, createdAt := known.createdAt))
    else if isUser then
      ResolvedRow(freshId, base.(clientId := OrElse(incoming, message.id)))
    else
      ResolvedRow(if message.id.Some? then message.id.value else freshId, base)
  }

  /** The rows of the bulk upsert, one per entry, in transcript order. */
  function ResolveRows(ctx: Context, messages: seq<UIMessage>, uuids: seq<string>): (rows: seq<ResolvedRow>)
    requires |uuids| == |messages|
    ensures |rows| == |messages|
    ensures forall i :: 0 <= i < |messages| ==> rows[i] == ResolveEntry(ctx, messages[i], i, uuids[i])
  {
    seq(|messages|, i requires 0 <= i < |messages| => ResolveEntry(ctx, messages[i], i, uuids[i]))
  }

  /** The resolved ids, the `ids` the delete keeps. */
  function IdSet(rows: seq<ResolvedRow>): (ids: set<string>)
    ensures forall i :: 0 <= i < |rows| ==> rows[i].id in ids
    ensures forall id :: id in ids ==> exists i :: 0 <= i < |rows| && rows[i].id == id
  {
    set i | 0 <= i < |rows| :: rows[i].id
  }

  // ---------------------------------------------------------------------------------------
  // Step 4: the bulk upsert and step 5: the delete.

  /**
    One row of `INSERT ... ON CONFLICT (id) DO UPDATE`: a new id is inserted as is; an existing id
    (in whichever chat) takes the new role, parts, metadata and position and
    `coalesce(excluded.clientId, clientId)`, and keeps its chatId and createdAt.
   */
  function UpsertRow(table: map<string, MessageRow>, r: ResolvedRow): (t: map<string, MessageRow>)
    ensures t.Keys == table.Keys + {r.id}
  {
    if r.id in table then
      var old_ := table[r.id];
      table[r.id := old_.(clientId := OrElse(r.row.clientId, old_.clientId), role := r.row.role,
        parts := r.row.parts, metadata := r.row.metadata, position := r.row.position)]
    else table[r.id := r.row]
  }

  function UpsertRows(table: map<string, MessageRow>, rows: seq<ResolvedRow>): (t: map<string, MessageRow>)
    decreases |rows|
  {
    if |rows| == 0 then table else UpsertRows(UpsertRow(table, rows[0]), rows[1..])
  }

  predicate DistinctIds(rows: seq<ResolvedRow>) {
    forall i, j :: 0 <= i < j < |rows| ==> rows[i].id != rows[j].id
  }

  /**
    The statement as a whole: it fails, changing nothing, when it would update one row twice or
    when its result violates the (chatId, clientId) unique index.
   */
  function BulkUpsert(table: map<string, MessageRow>, rows: seq<ResolvedRow>): Result<map<string, MessageRow>> {
    if !DistinctIds(rows) then Err("ON CONFLICT DO UPDATE command cannot affect row a second time")
    else
      var t := UpsertRows(table, rows);
      if ClientIdsUnique(t) then Ok(t)
      else Err("duplicate key value violates unique constraint \"chat_message_chat_client_id_uq\"")
  }

  /** `DELETE FROM chat_message WHERE chatId = $chatId AND id NOT IN ($keep)`. */
  function DeleteOrphans(table: map<string, MessageRow>, chatId: string, keep: set<string>): (t: map<string, MessageRow>)
    ensures forall id :: id in t <==> id in table && (table[id].chatId != chatId || id in keep)
    ensures forall id :: id in t ==> t[id] == table[id]
  {
    map id | id in table && (table[id].chatId != chatId || id in keep) :: table[id]
  }

  /** `DELETE FROM chat_message WHERE chatId = $chatId`. */
  function DeleteChatRows(table: map<string, MessageRow>, chatId: string): (t: map<string, MessageRow>)
    ensures forall id :: id in t <==> id in table && table[id].chatId != chatId
    ensures forall id :: id in t ==> t[id] == table[id]
  {
    DeleteOrphans(table, chatId, {})
  }

  // ---------------------------------------------------------------------------------------
  // Step 6: the title.

  /**
    `maybeSetConversationTitle` after the title read: nothing when the stored title is truthy,
    when no user entry has text, when generation fails or yields nothing; otherwise the title is
    written with `WHERE title IS NULL`.
   */
  function TitleUpdate(chats: map<string, ChatRow>, chatId: string, messages: seq<UIMessage>, reply: Title.ModelReply)
    : (r: map<string, ChatRow>)
    ensures r.Keys == chats.Keys
    ensures forall id :: id in chats && id != chatId ==> r[id] == chats[id]
    ensures chatId in chats ==> r[chatId] == chats[chatId].(title := r[chatId].title)
    ensures chatId in chats && chats[chatId].title.Some? ==> r == chats
  {
    if chatId !in chats then chats
    else
      var existing := chats[chatId].title;
      if Present(existing) then chats
      else match MessageText.FirstUserText(messages)
        case None => chats
        case Some(text) =>
          match Title.GenerateChatTitle(text, reply)
          case Err(_) => chats
          case Ok(None) => chats
          case Ok(Some(title)) =>
            if chats[chatId].title.None? then chats[chatId := chats[chatId].(title := Some(title))] else chats
  }

  // ---------------------------------------------------------------------------------------
  // The whole operation as a function of the tables before it.

  /** The resolution context the source builds for this call. */
  function ContextFor(messages: map<string, MessageRow>, a: StoreArgs, fallbackCreatedAt: int): Context
    requires ClientIdsUnique(messages)
  {
    var ids := RowsOfChat(messages, a.chatId);
    Context(a.chatId, ById(messages, ids), ByClient(messages, ids, a.chatId), LastUserIndex(a.messages),
      RequestedClientId(a.clientMessageId), fallbackCreatedAt)
  }

  /** What `storeChatMessages` leaves in the tables, and whether it threw. */
  function StoreSpec(t: Tables, a: StoreArgs, json: JsonCodec, now: int, fallbackCreatedAt: int,
                     uuids: seq<string>, reply: Title.ModelReply): (Tables, Result<()>)
    requires ClientIdsUnique(t.messages)
    requires |uuids| == |a.messages|
  {
    match json.stringify(Coalesce(a.data, Obj([])))
    case None => (t, Err("JSON.stringify failed"))
    case Some(data) =>
      var chats := UpsertChat(t.chats, a.chatId, a.chatType, data, a.userAddress, now);
      if |a.messages| == 0 then
        var rows := DeleteChatRows(t.messages, a.chatId);
        var chats' := if a.generateTitle then TitleUpdate(chats, a.chatId, a.messages, reply) else chats;
        (Tables(chats', rows), Ok(()))
      else
        match TranscriptWrite(t.messages, a, fallbackCreatedAt, uuids)
        case Err(e) => (Tables(chats, t.messages), Err(e))
        case Ok(rows) =>
          var chats' := if a.generateTitle then TitleUpdate(chats, a.chatId, a.messages, reply) else chats;
          (Tables(chats', rows), Ok(()))
  }

  /** Steps 2 to 5 on `chat_message`: resolve every entry, upsert the batch, delete the orphans. */
  function TranscriptWrite(table: map<string, MessageRow>, a: StoreArgs, fallbackCreatedAt: int, uuids: seq<string>)
    : Result<map<string, MessageRow>>
    requires ClientIdsUnique(table)
    requires |uuids| == |a.messages|
  {
    var resolved := ResolveRows(ContextFor(table, a, fallbackCreatedAt), a.messages, uuids);
    match BulkUpsert(table, resolved)
    case Err(e) => Err(e)
    case Ok(upserted) => Ok(DeleteOrphans(upserted, a.chatId, IdSet(resolved)))
  }

  // ---------------------------------------------------------------------------------------
  // The operation on the database.

  /**
    `storeChatMessages`. The clock readings `now` and `fallbackCreatedAt`, the UUIDs `uuids`
    (one per entry, used only where the source calls `randomUUID`), the JSON library and the
    title model's reply are inputs.
   */
  method StoreChatMessages(db: ChatDb, a: StoreArgs, json: JsonCodec, now: int, fallbackCreatedAt: int,
                           uuids: seq<string>, reply: Title.ModelReply) returns (r: Result<()>)
    requires db.Valid()
    requires |uuids| == |a.messages|
    modifies db
    ensures db.Valid()
    ensures (Tables(db.chats, db.messages), r)
         == StoreSpec(Tables(old(db.chats), old(db.messages)), a, json, now, fallbackCreatedAt, uuids, reply)
  {
    var serialized := json.stringify(Coalesce(a.data, Obj([])));
    if serialized.None? {
      return Err("JSON.stringify failed");
    }
    var data := serialized.value;
    db.chats := UpsertChat(db.chats, a.chatId, a.chatType, data, a.userAddress, now);

    if |a.messages| == 0 {
      DeleteKeepsValid(db.chats, db.messages, a.chatId, {});
      db.messages := DeleteChatRows(db.messages, a.chatId);
      if a.generateTitle {
        db.chats := TitleUpdate(db.chats, a.chatId, a.messages, reply);
      }
      return Ok(());
    }

    r := WriteTranscript(db, a, fallbackCreatedAt, uuids);
    if r.Err? {
      return r;
    }
    if a.generateTitle {
      db.chats := TitleUpdate(db.chats, a.chatId, a.messages, reply);
    }
    return Ok(());
  }

  /**
    Steps 2 to 5 of `storeChatMessages` on the database: the lookup maps are built by the loop,
    the batch is upserted, and the chat's rows the transcript no longer names are deleted.
   */
  method WriteTranscript(db: ChatDb, a: StoreArgs, fallbackCreatedAt: int, uuids: seq<string>) returns (r: Result<()>)
    requires db.Valid() && a.chatId in db.chats
    requires |uuids| == |a.messages|
    modifies db
    ensures db.Valid() && db.chats == old(db.chats)
    ensures match TranscriptWrite(old(db.messages), a, fallbackCreatedAt, uuids)
      case Err(e) => r == Err(e) && db.messages == old(db.messages)
      case Ok(rows) => r == Ok(()) && db.messages == rows
  {
    var byId, byClient := LoadExisting(db.messages, a.chatId);
    var ctx := Context(a.chatId, byId, byClient, LastUserIndex(a.messages), RequestedClientId(a.clientMessageId), fallbackCreatedAt);
    assert ctx == ContextFor(db.messages, a, fallbackCreatedAt);
    var rows := ResolveRows(ctx, a.messages, uuids);
    var upserted := BulkUpsert(db.messages, rows);
    ghost var expected := TranscriptWrite(db.messages, a, fallbackCreatedAt, uuids);
    if upserted.Err? {
      assert expected == Err(upserted.message);
      return Err(upserted.message);
    }
    assert expected == Ok(DeleteOrphans(upserted.value, a.chatId, IdSet(rows)));
    UpsertKeepsForeignKeys(db.chats, db.messages, rows, a.chatId);
    DeleteKeepsValid(db.chats, upserted.value, a.chatId, IdSet(rows));
    db.messages := DeleteOrphans(upserted.value, a.chatId, IdSet(rows));
    return Ok(());
  }

  /**
    The `for` loop over the chat's existing rows that fills `existingById` and
    `existingByClientId`; the rows are visited in whatever order the query returns them.
   */
  method LoadExisting(table: map<string, MessageRow>, chatId: string)
    returns (byId: map<string, KnownRow>, byClient: map<string, ClientRow>)
    requires ClientIdsUnique(table)
    ensures byId == ById(table, RowsOfChat(table, chatId))
    ensures byClient == ByClient(table, RowsOfChat(table, chatId), chatId)
  {
    var pending := RowsOfChat(table, chatId);
    ghost var chatRows := pending;
    byId, byClient := map[], map[];
    ghost var visited: set<string> := {};
    while pending != {}
      invariant pending <= chatRows && visited == chatRows - pending
      invariant SameChatRows(table, visited, chatId)
      invariant byId == ById(table, visited)
      invariant byClient == ByClient(table, visited, chatId)
      decreases |pending|
    {
      var id :| id in pending;
      var row := table[id];
      byId := byId[id := KnownRow(row.createdAt, row.clientId)];
      if HasClientKey(row) {
        byClient := byClient[row.clientId.value := ClientRow(id, row.createdAt, row.clientId)];
      }
      VisitStep(table, chatId, visited, id);
      pending := pending - {id};
      visited := visited + {id};
    }
    assert visited == chatRows;
  }

  /** One iteration of the loop: the visited rows stay rows of the chat and both maps grow by one row. */
  lemma VisitStep(table: map<string, MessageRow>, chatId: string, visited: set<string>, id: string)
    requires SameChatRows(table, visited, chatId)
    requires id in table && table[id].chatId == chatId && id !in visited
    ensures SameChatRows(table, visited + {id}, chatId)
    ensures ById(table, visited + {id}) == ById(table, visited)[id := KnownRow(table[id].createdAt, table[id].clientId)]
    ensures ByClient(table, visited + {id}, chatId)
         == if HasClientKey(table[id])
            then ByClient(table, visited, chatId)[table[id].clientId.value := ClientRow(id, table[id].createdAt, table[id].clientId)]
            else ByClient(table, visited, chatId)
  {
    ByIdStep(table, visited, id);
    ByClientStep(table, visited, chatId, id);
  }

  /** Visiting one more row adds it to `existingById`. */
  lemma ByIdStep(rows: map<string, MessageRow>, visited: set<string>, id: string)
    requires id in rows
    ensures ById(rows, visited + {id}) == ById(rows, visited)[id := KnownRow(rows[id].createdAt, rows[id].clientId)]
  {
  }

  /** Visiting one more row extends `existingByClientId` by that row's client id, if truthy. */
  lemma ByClientStep(rows: map<string, MessageRow>, visited: set<string>, chatId: string, id: string)
    requires SameChatRows(rows, visited + {id}, chatId)
    requires id !in visited
    ensures ByClient(rows, visited + {id}, chatId)
         == if HasClientKey(rows[id])
            then ByClient(rows, visited, chatId)[rows[id].clientId.value := ClientRow(id, rows[id].createdAt, rows[id].clientId)]
            else ByClient(rows, visited, chatId)
  {
  }

  /** The upsert writes only rows of existing chats, so the foreign key keeps holding. */
  lemma {:induction false} UpsertKeepsForeignKeys(chats: map<string, ChatRow>, table: map<string, MessageRow>, rows: seq<ResolvedRow>, chatId: string)
    requires ForeignKeysHold(chats, table) && chatId in chats
    requires forall i :: 0 <= i < |rows| ==> rows[i].row.chatId == chatId
    ensures ForeignKeysHold(chats, UpsertRows(table, rows))
    decreases |rows|
  {
    if |rows| > 0 {
      UpsertKeepsForeignKeys(chats, UpsertRow(table, rows[0]), rows[1..], chatId);
    }
  }

  /** Deleting rows keeps both the foreign key and the unique index. */
  lemma DeleteKeepsValid(chats: map<string, ChatRow>, table: map<string, MessageRow>, chatId: string, keep: set<string>)
    requires ForeignKeysHold(chats, table) && ClientIdsUnique(table)
    ensures ForeignKeysHold(chats, DeleteOrphans(table, chatId, keep)) && ClientIdsUnique(DeleteOrphans(table, chatId, keep))
  {
  }

  // ---------------------------------------------------------------------------------------
  // Properties.

  /** The row an upserted entry leaves under its id: inserted as is, or merged into the stored row. */
  function Merged(table: map<string, MessageRow>, r: ResolvedRow): MessageRow {
    if r.id in table then
      table[r.id].(clientId := OrElse(r.row.clientId, table[r.id].clientId), role := r.row.role,
        parts := r.row.parts, metadata := r.row.metadata, position := r.row.position)
    else r.row
  }

  /** The ids of a non-empty batch: the first one and those of the rest. */
  lemma IdSetCons(rows: seq<ResolvedRow>)
    requires |rows| > 0
    ensures IdSet(rows) == {rows[0].id} + IdSet(rows[1..])
  {
    var rest := rows[1..];
    forall id | id in IdSet(rows) ensures id in {rows[0].id} + IdSet(rest) {
      var i :| 0 <= i < |rows| && rows[i].id == id;
      if i > 0 { assert rest[i - 1].id == id; }
    }
    forall id | id in IdSet(rest) ensures id in IdSet(rows) {
      var k :| 0 <= k < |rest| && rest[k].id == id;
      assert rows[k + 1].id == id;
    }
  }

  /** In a batch of distinct ids the first id does not recur. */
  lemma FirstIdNotInRest(rows: seq<ResolvedRow>)
    requires |rows| > 0 && DistinctIds(rows)
    ensures rows[0].id !in IdSet(rows[1..]) && DistinctIds(rows[1..])
  {
  }

  /** The upsert adds exactly the batch's ids to the keys. */
  lemma {:induction false} UpsertRowsKeys(table: map<string, MessageRow>, rows: seq<ResolvedRow>)
    ensures UpsertRows(table, rows).Keys == table.Keys + IdSet(rows)
    decreases |rows|
  {
    if |rows| > 0 {
      UpsertRowsKeys(UpsertRow(table, rows[0]), rows[1..]);
      IdSetCons(rows);
    }
  }

  /** Rows the batch does not name come out of the upsert unchanged. */
  lemma {:induction false} UpsertRowsOthers(table: map<string, MessageRow>, rows: seq<ResolvedRow>, id: string)
    requires id in table && id !in IdSet(rows)
    ensures id in UpsertRows(table, rows) && UpsertRows(table, rows)[id] == table[id]
    decreases |rows|
  {
    if |rows| > 0 {
      IdSetCons(rows);
      UpsertRowsOthers(UpsertRow(table, rows[0]), rows[1..], id);
    }
  }

  /** With pairwise distinct ids, each batch row leaves its merge with the stored row under its id. */
  lemma {:induction false} UpsertRowsAt(table: map<string, MessageRow>, rows: seq<ResolvedRow>, i: int)
    requires DistinctIds(rows) && 0 <= i < |rows|
    ensures rows[i].id in UpsertRows(table, rows)
    ensures UpsertRows(table, rows)[rows[i].id] == Merged(table, rows[i])
    decreases |rows|
  {
    var t1 := UpsertRow(table, rows[0]);
    FirstIdNotInRest(rows);
    if i == 0 {
      UpsertRowsOthers(t1, rows[1..], rows[0].id);
    } else {
      assert rows[1..][i - 1] == rows[i];
      UpsertRowsAt(t1, rows[1..], i - 1);
      assert rows[i].id != rows[0].id;
    }
  }

  /**
    With pairwise distinct ids, the bulk upsert leaves each row's merge under its id and every
    other row as it was.
   */
  lemma UpsertRowsSpec(table: map<string, MessageRow>, rows: seq<ResolvedRow>)
    requires DistinctIds(rows)
    ensures UpsertRows(table, rows).Keys == table.Keys + IdSet(rows)
    ensures forall i :: 0 <= i < |rows| ==> UpsertRows(table, rows)[rows[i].id] == Merged(table, rows[i])
    ensures forall id :: id in table && id !in IdSet(rows) ==> UpsertRows(table, rows)[id] == table[id]
  {
    UpsertRowsKeys(table, rows);
    forall i | 0 <= i < |rows| ensures UpsertRows(table, rows)[rows[i].id] == Merged(table, rows[i]) {
      UpsertRowsAt(table, rows, i);
    }
    forall id | id in table && id !in IdSet(rows) ensures UpsertRows(table, rows)[id] == table[id] {
      UpsertRowsOthers(table, rows, id);
    }
  }

  /** A successful call with a non-empty transcript leaves the upsert followed by the delete. */
  lemma StoreSpecMessages(t: Tables, a: StoreArgs, json: JsonCodec, now: int, fallbackCreatedAt: int,
                          uuids: seq<string>, reply: Title.ModelReply)
    requires ClientIdsUnique(t.messages) && |uuids| == |a.messages| && |a.messages| > 0
    requires StoreSpec(t, a, json, now, fallbackCreatedAt, uuids, reply).1.Ok?
    ensures var resolved := ResolveRows(ContextFor(t.messages, a, fallbackCreatedAt), a.messages, uuids);
      && DistinctIds(resolved)
      && StoreSpec(t, a, json, now, fallbackCreatedAt, uuids, reply).0.messages
         == DeleteOrphans(UpsertRows(t.messages, resolved), a.chatId, IdSet(resolved))
  {
  }

  /**
    The upsert never touches a stored row's chatId or createdAt, and never replaces a stored
    client id by null (`coalesce`), whatever chat the row belongs to.
   */
  lemma {:induction false} UpsertKeepsIdentity(table: map<string, MessageRow>, rows: seq<ResolvedRow>, id: string)
    requires id in table
    ensures id in UpsertRows(table, rows)
    ensures UpsertRows(table, rows)[id].chatId == table[id].chatId
    ensures UpsertRows(table, rows)[id].createdAt == table[id].createdAt
    ensures table[id].clientId.Some? ==> UpsertRows(table, rows)[id].clientId.Some?
    decreases |rows|
  {
    if |rows| > 0 {
      UpsertKeepsIdentity(UpsertRow(table, rows[0]), rows[1..], id);
    }
  }

  /**
    After a successful call with a non-empty transcript whose ids name no row of another chat,
    the chat's rows are exactly the resolved ids; the row under the id of entry `i` has position
    `i` and the entry's role, parts and metadata; rows of other chats are untouched.
   */
  lemma StoredRowsMatchTranscript(t: Tables, a: StoreArgs, json: JsonCodec, now: int, fallbackCreatedAt: int,
                                  uuids: seq<string>, reply: Title.ModelReply)
    requires ClientIdsUnique(t.messages) && |uuids| == |a.messages| && |a.messages| > 0
    requires StoreSpec(t, a, json, now, fallbackCreatedAt, uuids, reply).1.Ok?
    requires var resolved := ResolveRows(ContextFor(t.messages, a, fallbackCreatedAt), a.messages, uuids);
      forall i :: 0 <= i < |resolved| && resolved[i].id in t.messages ==> t.messages[resolved[i].id].chatId == a.chatId
    ensures var resolved := ResolveRows(ContextFor(t.messages, a, fallbackCreatedAt), a.messages, uuids);
      var out := StoreSpec(t, a, json, now, fallbackCreatedAt, uuids, reply).0.messages;
      && RowsOfChat(out, a.chatId) == IdSet(resolved)
      && (forall i :: 0 <= i < |a.messages| ==>
            var row := out[resolved[i].id];
            row.position == i && row.role == a.messages[i].role && row.parts == a.messages[i].parts
            && row.metadata == StoredMetadata(a.messages[i].metadata))
      && (forall id :: id in t.messages && t.messages[id].chatId != a.chatId ==> id in out && out[id] == t.messages[id])
  {
    var resolved := ResolveRows(ContextFor(t.messages, a, fallbackCreatedAt), a.messages, uuids);
    StoreSpecMessages(t, a, json, now, fallbackCreatedAt, uuids, reply);
    TranscriptRows(t.messages, resolved, a.messages, a.chatId);
  }

  /** The table facts behind `StoredRowsMatchTranscript`, for a batch resolved from `messages`. */
  lemma TranscriptRows(table: map<string, MessageRow>, rows: seq<ResolvedRow>, messages: seq<UIMessage>, chatId: string)
    requires DistinctIds(rows) && |rows| == |messages|
    requires forall i :: 0 <= i < |rows| ==>
      && rows[i].row.chatId == chatId && rows[i].row.position == i && rows[i].row.role == messages[i].role
      && rows[i].row.parts == messages[i].parts && rows[i].row.metadata == StoredMetadata(messages[i].metadata)
    requires forall i :: 0 <= i < |rows| && rows[i].id in table ==> table[rows[i].id].chatId == chatId
    ensures var out := DeleteOrphans(UpsertRows(table, rows), chatId, IdSet(rows));
      && RowsOfChat(out, chatId) == IdSet(rows)
      && (forall i :: 0 <= i < |messages| ==>
            var row := out[rows[i].id];
            row.position == i && row.role == messages[i].role && row.parts == messages[i].parts
            && row.metadata == StoredMetadata(messages[i].metadata))
      && (forall id :: id in table && table[id].chatId != chatId ==> id in out && out[id] == table[id])
  {
    UpsertThenDelete(table, rows, chatId);
  }

  /** The upsert followed by the delete, on tables. */
  lemma UpsertThenDelete(table: map<string, MessageRow>, rows: seq<ResolvedRow>, chatId: string)
    requires DistinctIds(rows)
    requires forall i :: 0 <= i < |rows| ==> rows[i].row.chatId == chatId
    requires forall i :: 0 <= i < |rows| && rows[i].id in table ==> table[rows[i].id].chatId == chatId
    ensures var out := DeleteOrphans(UpsertRows(table, rows), chatId, IdSet(rows));
      && RowsOfChat(out, chatId) == IdSet(rows)
      && (forall i :: 0 <= i < |rows| ==> rows[i].id in out && out[rows[i].id] == Merged(table, rows[i]))
      && (forall id :: id in table && table[id].chatId != chatId ==> id in out && out[id] == table[id])
  {
    var upserted := UpsertRows(table, rows);
    UpsertRowsSpec(table, rows);
  }

  /**
    An entry whose id names a row of another chat is written over that row, which stays in the
    other chat: the conflict target is the global id, and chatId is not in the update set.
   */
  lemma ForeignIdOverwritesOtherChat(t: Tables, a: StoreArgs, json: JsonCodec, now: int, fallbackCreatedAt: int,
                                     uuids: seq<string>, reply: Title.ModelReply, i: int)
    requires ClientIdsUnique(t.messages) && |uuids| == |a.messages| && 0 <= i < |a.messages|
    requires StoreSpec(t, a, json, now, fallbackCreatedAt, uuids, reply).1.Ok?
    requires var r := ResolveRows(ContextFor(t.messages, a, fallbackCreatedAt), a.messages, uuids)[i];
      r.id in t.messages && t.messages[r.id].chatId != a.chatId
    ensures var r := ResolveRows(ContextFor(t.messages, a, fallbackCreatedAt), a.messages, uuids)[i];
      var out := StoreSpec(t, a, json, now, fallbackCreatedAt, uuids, reply).0.messages;
      && r.id in out && r.id !in RowsOfChat(out, a.chatId)
      && out[r.id].chatId == t.messages[r.id].chatId
      && out[r.id].parts == a.messages[i].parts && out[r.id].position == i
  {
    var resolved := ResolveRows(ContextFor(t.messages, a, fallbackCreatedAt), a.messages, uuids);
    StoreSpecMessages(t, a, json, now, fallbackCreatedAt, uuids, reply);
    UpsertRowsAt(t.messages, resolved, i);
  }

  /** With an empty transcript every row of the chat is deleted and every other row is kept. */
  lemma EmptyTranscriptClearsChat(t: Tables, a: StoreArgs, json: JsonCodec, now: int, fallbackCreatedAt: int,
                                  reply: Title.ModelReply)
    requires ClientIdsUnique(t.messages) && a.messages == []
    requires json.stringify(Coalesce(a.data, Obj([]))).Some?
    ensures var (out, r) := StoreSpec(t, a, json, now, fallbackCreatedAt, [], reply);
      r.Ok? && RowsOfChat(out.messages, a.chatId) == {}
      && forall id :: id in t.messages && t.messages[id].chatId != a.chatId ==> id in out.messages && out.messages[id] == t.messages[id]
  {
  }

  /**
    Every call that gets past serialisation upserts the chat row: type, the JSON of `data ?? {}`,
    owner and `updatedAt` are replaced; `createdAt` is kept, and a stored title is never changed.
    Nothing else in `chat` changes. A failed message upsert leaves `chat_message` as it was.
   */
  lemma StoreUpsertsChat(t: Tables, a: StoreArgs, json: JsonCodec, now: int, fallbackCreatedAt: int,
                         uuids: seq<string>, reply: Title.ModelReply)
    requires ClientIdsUnique(t.messages) && |uuids| == |a.messages|
    requires json.stringify(Coalesce(a.data, Obj([]))).Some?
    ensures var (out, r) := StoreSpec(t, a, json, now, fallbackCreatedAt, uuids, reply);
      var row := out.chats[a.chatId];
      && out.chats.Keys == t.chats.Keys + {a.chatId}
      && row.chatType == a.chatType && row.data == json.stringify(Coalesce(a.data, Obj([]))).value
      && row.user == a.userAddress && row.updatedAt == now
      && (a.chatId in t.chats ==> row.createdAt == t.chats[a.chatId].createdAt)
      && (a.chatId in t.chats && t.chats[a.chatId].title.Some? ==> row.title == t.chats[a.chatId].title)
      && (forall id :: id in t.chats && id != a.chatId ==> out.chats[id] == t.chats[id])
      && (r.Err? ==> out.messages == t.messages)
  {
  }

  /**
    A title is written only when all of these hold: titles were requested, the stored title was
    null, some user entry has text, and generation produced a non-empty title; the title
    written is that one. It is written whenever they hold.
   */
  lemma TitleWrittenOnlyWhen(chats: map<string, ChatRow>, chatId: string, messages: seq<UIMessage>, reply: Title.ModelReply)
    requires chatId in chats
    ensures var after := TitleUpdate(chats, chatId, messages, reply)[chatId].title;
      after != chats[chatId].title <==>
        && chats[chatId].title.None?
        && MessageText.FirstUserText(messages).Some?
        && Title.GenerateChatTitle(MessageText.FirstUserText(messages).value, reply).Ok?
        && Title.GenerateChatTitle(MessageText.FirstUserText(messages).value, reply).value.Some?
    ensures var after := TitleUpdate(chats, chatId, messages, reply)[chatId].title;
      after != chats[chatId].title ==>
        after == Title.GenerateChatTitle(MessageText.FirstUserText(messages).value, reply).value
  {
  }

  /** Once a chat has a title, storing again never changes it. */
  lemma TitleNeverOverwritten(t: Tables, a: StoreArgs, json: JsonCodec, now: int, fallbackCreatedAt: int,
                              uuids: seq<string>, reply: Title.ModelReply)
    requires ClientIdsUnique(t.messages) && |uuids| == |a.messages|
    requires a.chatId in t.chats && t.chats[a.chatId].title.Some?
    ensures StoreSpec(t, a, json, now, fallbackCreatedAt, uuids, reply).0.chats[a.chatId].title == t.chats[a.chatId].title
  {
  }

  // Entry resolution against the stored rows.

  /** The context built from the stored rows and the request. */
  function Ctx(t: Tables, a: StoreArgs, fallbackCreatedAt: int): Context
    requires ClientIdsUnique(t.messages)
  {
    ContextFor(t.messages, a, fallbackCreatedAt)
  }

  /**
    Only the last user entry is offered the request's client id, and only when that id is
    non-empty after trimming; the offered value is the trimmed id.
   */
  lemma ClientIdOnlyForLastUser(t: Tables, a: StoreArgs, fallbackCreatedAt: int, i: int)
    requires ClientIdsUnique(t.messages) && 0 <= i < |a.messages|
    ensures var incoming := IncomingClientId(Ctx(t, a, fallbackCreatedAt), a.messages[i], i);
      incoming.Some? <==>
        a.messages[i].role == User && (forall j :: i < j < |a.messages| ==> a.messages[j].role != User)
        && a.clientMessageId.Some? && Trim(a.clientMessageId.value) != ""
    ensures var incoming := IncomingClientId(Ctx(t, a, fallbackCreatedAt), a.messages[i], i);
      incoming.Some? ==> incoming.value == Trim(a.clientMessageId.value)
  {
    var last := LastUserIndex(a.messages);
    if a.messages[i].role == User && (forall j :: i < j < |a.messages| ==> a.messages[j].role != User) {
      assert last >= i;
    }
  }

  /**
    An entry whose (non-empty) id names a row of this chat keeps that id and row's createdAt; a
    user entry keeps the stored client id, falling back to the incoming one; other roles get none.
   */
  lemma ExactIdMatch(t: Tables, a: StoreArgs, fallbackCreatedAt: int, i: int, freshId: string)
    requires ClientIdsUnique(t.messages) && 0 <= i < |a.messages|
    requires var m := a.messages[i];
      Present(m.id) && m.id.value in t.messages && t.messages[m.id.value].chatId == a.chatId
    ensures var ctx := Ctx(t, a, fallbackCreatedAt);
      var m := a.messages[i];
      var stored := t.messages[m.id.value];
      var r := ResolveEntry(ctx, m, i, freshId);
      && r.id == m.id.value && r.row.createdAt == stored.createdAt
      && r.row.clientId == (if m.role == User then OrElse(stored.clientId, IncomingClientId(ctx, m, i)) else None)
  {
  }

  /**
    With no id match, an entry is matched to the row of this chat whose client id equals the
    entry's own id (or, when the entry has no usable id, the incoming client id), and reuses
    that row's id, client id and createdAt.
   */
  lemma ClientIdMatch(t: Tables, a: StoreArgs, fallbackCreatedAt: int, i: int, freshId: string, rowId: string)
    requires ClientIdsUnique(t.messages) && 0 <= i < |a.messages|
    requires var m := a.messages[i];
      !(Present(m.id) && m.id.value in t.messages && t.messages[m.id.value].chatId == a.chatId)
    requires rowId in t.messages && t.messages[rowId].chatId == a.chatId
    requires var key := ClientLookupId(Ctx(t, a, fallbackCreatedAt), a.messages[i], i);
      Present(key) && t.messages[rowId].clientId == key
    ensures var r := ResolveEntry(Ctx(t, a, fallbackCreatedAt), a.messages[i], i, freshId);
      r.id == rowId && r.row.clientId == t.messages[rowId].clientId && r.row.createdAt == t.messages[rowId].createdAt
  {
    var ctx := Ctx(t, a, fallbackCreatedAt);
    var key := ClientLookupId(ctx, a.messages[i], i).value;
    assert key in ctx.byClient;
  }

  /**
    An entry with neither match is a new row stamped with the shared fallback createdAt; a user
    entry gets the fresh id and the incoming client id, else its own id, as client id; any other
    entry keeps its id (the fresh one only when it has none) and gets no client id.
   */
  lemma NoMatchNewRow(t: Tables, a: StoreArgs, fallbackCreatedAt: int, i: int, freshId: string)
    requires ClientIdsUnique(t.messages) && 0 <= i < |a.messages|
    requires var m := a.messages[i];
      !(Present(m.id) && m.id.value in t.messages && t.messages[m.id.value].chatId == a.chatId)
    requires var key := ClientLookupId(Ctx(t, a, fallbackCreatedAt), a.messages[i], i);
      !Present(key) || forall id :: id in t.messages && t.messages[id].chatId == a.chatId ==> t.messages[id].clientId != key
    ensures var ctx := Ctx(t, a, fallbackCreatedAt);
      var m := a.messages[i];
      var r := ResolveEntry(ctx, m, i, freshId);
      && r.row.createdAt == fallbackCreatedAt
      && (m.role == User ==> r.id == freshId && r.row.clientId == OrElse(IncomingClientId(ctx, m, i), m.id))
      && (m.role != User ==> r.id == (if m.id.Some? then m.id.value else freshId) && r.row.clientId == None)
  {
  }

  /**
    A resubmitted last user entry that carries a new id and the request's client id is not
    matched to the row that already holds that client id: the lookup key is the entry's own id.
    It becomes a new row with the same client id, and the upsert breaks the unique index.
   */
  lemma ResubmittedEntryClashes(table: map<string, MessageRow>, a: StoreArgs, fallbackCreatedAt: int,
                                freshId: string, rowId: string)
    requires ClientIdsUnique(table)
    requires |a.messages| == 1 && a.messages[0].role == User
    requires Present(a.messages[0].id) && a.messages[0].id.value !in table
    requires RequestedClientId(a.clientMessageId).Some?
    requires rowId in table && table[rowId].chatId == a.chatId && table[rowId].clientId == RequestedClientId(a.clientMessageId)
    requires forall id :: id in table && table[id].chatId == a.chatId ==> table[id].clientId != a.messages[0].id
    requires freshId !in table
    ensures TranscriptWrite(table, a, fallbackCreatedAt, [freshId]).Err?
  {
    var ctx := ContextFor(table, a, fallbackCreatedAt);
    var m := a.messages[0];
    assert ctx.lastUserIndex == 0;
    assert !MatchesById(ctx, m);
    assert !MatchesByClient(ctx, m, 0);
    var r := ResolveEntry(ctx, m, 0, freshId);
    assert r.id == freshId && r.row.clientId == RequestedClientId(a.clientMessageId);
    assert ResolveRows(ctx, a.messages, [freshId]) == [r];
    NewRowClashes(table, r, rowId);
  }

  /** One new row whose client id an existing row of its chat already holds fails the upsert. */
  lemma NewRowClashes(table: map<string, MessageRow>, r: ResolvedRow, rowId: string)
    requires r.id !in table && r.row.clientId.Some?
    requires rowId in table && table[rowId].chatId == r.row.chatId && table[rowId].clientId == r.row.clientId
    ensures BulkUpsert(table, [r]).Err?
  {
    var t := table[r.id := r.row];
    assert [r][1..] == [];
    assert UpsertRows(table, [r]) == t;
    assert !ClientIdsDiffer(t, rowId, r.id);
  }

  /**
    A user entry without a usable id, and not offered the request's client id, takes the fresh
    id whatever the stored rows are: storing the same transcript again gives it a new row id.
   */
  lemma IdlessUserEntryGetsFreshId(table: map<string, MessageRow>, a: StoreArgs, fallbackCreatedAt: int,
                                   i: int, freshId: string)
    requires ClientIdsUnique(table) && 0 <= i < |a.messages|
    requires a.messages[i].role == User && !Present(a.messages[i].id)
    requires i != LastUserIndex(a.messages) || RequestedClientId(a.clientMessageId).None?
    ensures var r := ResolveEntry(ContextFor(table, a, fallbackCreatedAt), a.messages[i], i, freshId);
      r.id == freshId && r.row.clientId == a.messages[i].id
  {
  }
}
