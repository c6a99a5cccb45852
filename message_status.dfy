/** Single-row updates of the pending assistant placeholder: marking it failed and clearing it. */
module MessageStatus {
  import opened Wrappers
  import opened Js
  import opened Messages
  import opened Schema

  /** The parts and metadata a failed message is given. */
  function FailedParts(errorMessage: string): Value {
    Arr([Obj([("type", Str("text")), ("text", Str(errorMessage))])])
  }

  const FailedMetadata := Obj([("error", Bool(true))])

  /** Whether row `id` exists and belongs to chat `chatId`: the `WHERE id = $1 AND chatId = $2`. */
  predicate RowOf(table: map<string, MessageRow>, chatId: string, id: string) {
    id in table && table[id].chatId == chatId
  }

  /**
    `markAssistantMessageFailed`: the one matching row gets a single text part with the error
    and `{error: true}` metadata; everything else, that row's other columns included, is kept.
   */
  function MarkFailed(table: map<string, MessageRow>, chatId: string, messageId: string, errorMessage: string)
    : (t: map<string, MessageRow>)
    ensures t.Keys == table.Keys
    ensures forall id :: id in table && id != messageId ==> t[id] == table[id]
    ensures RowOf(table, chatId, messageId) ==>
      t[messageId] == table[messageId].(parts := FailedParts(errorMessage), metadata := FailedMetadata)
    ensures !RowOf(table, chatId, messageId) ==> t == table
  {
    if RowOf(table, chatId, messageId) then
      table[messageId := table[messageId].(parts := FailedParts(errorMessage), metadata := FailedMetadata)]
    else table
  }

  /** Some finished message carries the placeholder id: the stream claimed it. */
  predicate Claimed(pendingId: string, finished: seq<UIMessage>) {
    exists i :: 0 <= i < |finished| && finished[i].id == Some(pendingId)
  }

  /**
    `clearPendingAssistantIfUnclaimed`: nothing when a finished message carries the placeholder
    id; otherwise exactly the row with that id in that chat, if any, is deleted.
   */
  function ClearPending(table: map<string, MessageRow>, chatId: string, pendingId: string, finished: seq<UIMessage>)
    : (t: map<string, MessageRow>)
    ensures Claimed(pendingId, finished) ==> t == table
    ensures !Claimed(pendingId, finished) ==>
      t.Keys == table.Keys - (if RowOf(table, chatId, pendingId) then {pendingId} else {})
    ensures forall id :: id in t ==> t[id] == table[id]
  {
    if Claimed(pendingId, finished) then table
    else if RowOf(table, chatId, pendingId) then map id | id in table && id != pendingId :: table[id]
    else table
  }

  method MarkAssistantMessageFailed(db: ChatDb, chatId: string, messageId: string, errorMessage: string)
    requires db.Valid()
    modifies db
    ensures db.Valid()
    ensures db.chats == old(db.chats)
    ensures db.messages == MarkFailed(old(db.messages), chatId, messageId, errorMessage)
  {
    db.messages := MarkFailed(db.messages, chatId, messageId, errorMessage);
  }

  method ClearPendingAssistantIfUnclaimed(db: ChatDb, chatId: string, pendingId: string, finished: seq<UIMessage>)
    requires db.Valid()
    modifies db
    ensures db.Valid()
    ensures db.chats == old(db.chats)
    ensures db.messages == ClearPending(old(db.messages), chatId, pendingId, finished)
  {
    if exists i :: 0 <= i < |finished| && finished[i].id == Some(pendingId) {
      return;
    }
    db.messages := ClearPending(db.messages, chatId, pendingId, finished);
  }

  /** Clearing twice is clearing once. */
  lemma ClearIdempotent(table: map<string, MessageRow>, chatId: string, pendingId: string, finished: seq<UIMessage>)
    ensures var once := ClearPending(table, chatId, pendingId, finished);
      ClearPending(once, chatId, pendingId, finished) == once
  {
  }

  /** After an unclaimed clear, no row of the chat carries the placeholder id. */
  lemma ClearRemovesPlaceholder(table: map<string, MessageRow>, chatId: string, pendingId: string, finished: seq<UIMessage>)
    requires !Claimed(pendingId, finished)
    ensures !RowOf(ClearPending(table, chatId, pendingId, finished), chatId, pendingId)
  {
  }

  /** A claimed placeholder id, or one that names a row of another chat, deletes nothing. */
  lemma ClearSparesOthers(table: map<string, MessageRow>, chatId: string, pendingId: string, finished: seq<UIMessage>)
    requires Claimed(pendingId, finished) || (pendingId in table && table[pendingId].chatId != chatId)
    ensures ClearPending(table, chatId, pendingId, finished) == table
  {
  }

  /** Marking keeps the row's role, position, client id and createdAt, and its chat. */
  lemma MarkKeepsIdentity(table: map<string, MessageRow>, chatId: string, messageId: string, errorMessage: string)
    requires messageId in table
    ensures var t := MarkFailed(table, chatId, messageId, errorMessage);
      && t[messageId].role == table[messageId].role && t[messageId].position == table[messageId].position
      && t[messageId].clientId == table[messageId].clientId && t[messageId].createdAt == table[messageId].createdAt
      && t[messageId].chatId == table[messageId].chatId
  {
  }

  /** Marking keeps the tables valid: no key or client id changes. */
  lemma MarkKeepsValid(chats: map<string, ChatRow>, table: map<string, MessageRow>, chatId: string, messageId: string, errorMessage: string)
    requires ForeignKeysHold(chats, table) && ClientIdsUnique(table)
    ensures ForeignKeysHold(chats, MarkFailed(table, chatId, messageId, errorMessage))
    ensures ClientIdsUnique(MarkFailed(table, chatId, messageId, errorMessage))
  {
  }
}
