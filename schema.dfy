/**
  The two relational tables the chat core writes: `chat` (one row per conversation) and
  `chat_message` (one row per transcript entry), keyed by their text primary keys.
 */
module Schema {
  import opened Wrappers
  import opened Js
  import opened Messages

  /** A `chat` row; `data` holds the JSON text of the chat's data object. Times are in ms. */
  datatype ChatRow = ChatRow(
    chatType: string, title: Option<string>, data: string, createdAt: int, updatedAt: int, user: string)

  /** A `chat_message` row; an absent `metadata` is `Null`. */
  datatype MessageRow = MessageRow(
    chatId: string, clientId: Option<string>, role: Role, parts: Value, metadata: Value,
    position: int, createdAt: int)

  /** The unique index on (chatId, clientId); rows whose clientId is NULL never clash. */
  predicate ClientIdsUnique(rows: map<string, MessageRow>) {
    forall a, b :: a in rows && b in rows ==> ClientIdsDiffer(rows, a, b)
  }

  /** Rows `a` and `b` do not clash on the unique index. */
  predicate ClientIdsDiffer(rows: map<string, MessageRow>, a: string, b: string)
    requires a in rows && b in rows
  {
    a != b && rows[a].chatId == rows[b].chatId && rows[a].clientId.Some? ==> rows[a].clientId != rows[b].clientId
  }

  /** The foreign key from `chat_message.chatId` to `chat.id`. */
  predicate ForeignKeysHold(chats: map<string, ChatRow>, rows: map<string, MessageRow>) {
    forall id :: id in rows ==> rows[id].chatId in chats
  }

  /** The ids of the message rows that belong to one chat. */
  function RowsOfChat(rows: map<string, MessageRow>, chatId: string): set<string> {
    set id | id in rows && rows[id].chatId == chatId
  }

  /** Both tables, held by the database; the operations of the core change them in place. */
  class ChatDb {
    var chats: map<string, ChatRow>
    var messages: map<string, MessageRow>

    predicate Valid()
      reads this
    {
      ForeignKeysHold(chats, messages) && ClientIdsUnique(messages)
    }

    constructor ()
      ensures Valid() && chats == map[] && messages == map[]
    {
      chats := map[];
      messages := map[];
    }
  }
}
