/**
  The chat-list handler: the caller's chats, newest first, at most a clamped number of rows,
  optionally narrowed to the chats whose data names a given goal address. The narrowing happens
  after the limit, so a filtered page can be short.
 */
module List {
  import opened Wrappers
  import opened Js
  import opened Schema
  import opened Address
  import opened ValidateChatUser

  const DefaultLimit := 50
  const MaxLimit := 100

  /**
    `Math.min(Math.max(Number(limit) || 50, 1), 100)`, where `limit` is `Number(limit)` and `None`
    stands for NaN (an absent or non-numeric query value).
   */
  function ResolvedLimit(limit: Option<int>): (r: int)
    ensures 1 <= r <= MaxLimit
    ensures limit.None? || limit == Some(0) ==> r == DefaultLimit
    ensures limit.Some? && limit.value != 0 && limit.value < 1 ==> r == 1
    ensures limit.Some? && 1 <= limit.value <= MaxLimit ==> r == limit.value
    ensures limit.Some? && limit.value > MaxLimit ==> r == MaxLimit
  {
    var n := if limit.None? || limit.value == 0 then DefaultLimit else limit.value;
    var atLeastOne := if n > 1 then n else 1;
    if atLeastOne < MaxLimit then atLeastOne else MaxLimit
  }

  /** The goal address a chat's data names, normalised; `None` for unparsable data or an absent goal. */
  function EntryGoal(json: JsonCodec, data: string): (g: Option<string>)
    ensures g.Some? ==> json.parse(data).Some? && Get(json.parse(data).value, "goalAddress").Str?
    ensures g.Some? ==> g == NormalizeAddress(Get(json.parse(data).value, "goalAddress"))
    ensures json.parse(data).Some? && Get(json.parse(data).value, "goalAddress").Str? ==>
      g == NormalizeAddress(Get(json.parse(data).value, "goalAddress"))
  {
    match json.parse(data)
    case None => None
    case Some(v) =>
      var goal := Get(v, "goalAddress");
      if goal.Str? then NormalizeAddress(goal) else None
  }

  /** A chat passes the filter: there is no usable goal, or its own goal normalises to it. */
  predicate Keeps(json: JsonCodec, goal: Option<string>, row: ChatRow) {
    goal.None? || EntryGoal(json, row.data) == goal
  }

  /** An entry of the reply; the ISO timestamps are kept as milliseconds. */
  datatype ListItem = ListItem(id: string, title: Option<string>, chatType: string, updatedAt: int, createdAt: int)

  function ItemOf(id: string, row: ChatRow): (item: ListItem)
    ensures item.id == id && item.title == row.title && item.chatType == row.chatType
    ensures item.updatedAt == row.updatedAt && item.createdAt == row.createdAt
  {
    ListItem(id, row.title, row.chatType, row.updatedAt, row.createdAt)
  }

  /** The `flatMap`: the items of the kept rows, in order. */
  function Items(json: JsonCodec, goal: Option<string>, rows: seq<(string, ChatRow)>): (items: seq<ListItem>)
    ensures |items| <= |rows|
  {
    if |rows| == 0 then []
    else
      var rest := Items(json, goal, rows[1..]);
      if Keeps(json, goal, rows[0].1) then [ItemOf(rows[0].0, rows[0].1)] + rest else rest
  }

  /**
    handleChatListRequest. `queried` is the caller's chats as the query orders them, before its
    `LIMIT`; the first `ResolvedLimit(limit)` of them are the page.
   */
  function HandleChatList(ctx: RequestContext, json: JsonCodec, goalAddress: Value, limit: Option<int>,
                          queried: seq<(string, ChatRow)>): (r: Result<seq<ListItem>>)
    reads ctx
    ensures ctx.user.None? ==> r == Err("User not found")
    ensures ctx.user.Some? ==> r.Ok? && |r.value| <= ResolvedLimit(limit)
    ensures ctx.user.Some? ==>
      var page := if |queried| <= ResolvedLimit(limit) then queried else queried[..ResolvedLimit(limit)];
      r == Ok(Items(json, NormalizeAddress(goalAddress), page))
  {
    match ctx.GetChatUserOrThrow()
    case Err(e) => Err(e)
    case Ok(_) =>
      var resolved := ResolvedLimit(limit);
      var page := if |queried| <= resolved then queried else queried[..resolved];
      Ok(Items(json, NormalizeAddress(goalAddress), page))
  }

  /** The query: exactly the chats whose stored owner is `address`, once each, newest `updatedAt` first. */
  predicate IsNewestFirst(chats: map<string, ChatRow>, address: string, rows: seq<(string, ChatRow)>) {
    && (forall i :: 0 <= i < |rows| ==> rows[i].0 in chats && chats[rows[i].0] == rows[i].1 && rows[i].1.user == address)
    && (forall i, j :: 0 <= i < j < |rows| ==> rows[i].0 != rows[j].0 && rows[i].1.updatedAt >= rows[j].1.updatedAt)
    && (forall id :: id in chats && chats[id].user == address ==> exists i :: 0 <= i < |rows| && rows[i].0 == id)
  }

  /** Without a usable goal every row of the page is listed, in order. */
  lemma {:induction false} NoGoalListsAll(json: JsonCodec, rows: seq<(string, ChatRow)>)
    ensures |Items(json, None, rows)| == |rows|
    ensures forall i :: 0 <= i < |rows| ==> Items(json, None, rows)[i] == ItemOf(rows[i].0, rows[i].1)
  {
    if |rows| > 0 {
      NoGoalListsAll(json, rows[1..]);
    }
  }

  /** A chat is listed exactly when a row of the page carries it and passes the filter. */
  lemma {:induction false} ListedIffKept(json: JsonCodec, goal: Option<string>, rows: seq<(string, ChatRow)>, item: ListItem)
    ensures item in Items(json, goal, rows) <==>
      exists i :: 0 <= i < |rows| && Keeps(json, goal, rows[i].1) && item == ItemOf(rows[i].0, rows[i].1)
  {
    if |rows| > 0 {
      ListedIffKept(json, goal, rows[1..], item);
      if item in Items(json, goal, rows[1..]) {
        var i :| 0 <= i < |rows[1..]| && Keeps(json, goal, rows[1..][i].1) && item == ItemOf(rows[1..][i].0, rows[1..][i].1);
        assert rows[i + 1] == rows[1..][i];
      }
      if exists i :: 0 <= i < |rows| && Keeps(json, goal, rows[i].1) && item == ItemOf(rows[i].0, rows[i].1) {
        var i :| 0 <= i < |rows| && Keeps(json, goal, rows[i].1) && item == ItemOf(rows[i].0, rows[i].1);
        if i > 0 {
          assert rows[1..][i - 1] == rows[i];
        }
      }
    }
  }

  /** Listed chats are no newer than the newest row of the page. */
  lemma {:induction false} ItemsBounded(json: JsonCodec, goal: Option<string>, rows: seq<(string, ChatRow)>, bound: int)
    requires forall i :: 0 <= i < |rows| ==> rows[i].1.updatedAt <= bound
    ensures forall item :: item in Items(json, goal, rows) ==> item.updatedAt <= bound
  {
    if |rows| > 0 {
      ItemsBounded(json, goal, rows[1..], bound);
    }
  }

  predicate RowsNewestFirst(rows: seq<(string, ChatRow)>) {
    forall i, j :: 0 <= i < j < |rows| ==> rows[i].1.updatedAt >= rows[j].1.updatedAt
  }

  predicate ItemsNewestFirst(items: seq<ListItem>) {
    forall i, j :: 0 <= i < j < |items| ==> items[i].updatedAt >= items[j].updatedAt
  }

  /** The rest of a newest-first page is newest first, and no row of it is newer than the first. */
  lemma RestNewestFirst(rows: seq<(string, ChatRow)>)
    requires |rows| > 0 && RowsNewestFirst(rows)
    ensures RowsNewestFirst(rows[1..])
    ensures forall k :: 0 <= k < |rows[1..]| ==> rows[1..][k].1.updatedAt <= rows[0].1.updatedAt
  {
    var rest := rows[1..];
    forall i, j | 0 <= i < j < |rest| ensures rest[i].1.updatedAt >= rest[j].1.updatedAt {
      assert rest[i] == rows[i + 1] && rest[j] == rows[j + 1];
    }
    forall k | 0 <= k < |rest| ensures rest[k].1.updatedAt <= rows[0].1.updatedAt {
      assert rest[k] == rows[k + 1];
    }
  }

  /** Putting an item no older than every item of a newest-first list in front keeps it newest first. */
  lemma ConsNewestFirst(head: ListItem, tail: seq<ListItem>)
    requires ItemsNewestFirst(tail)
    requires forall item :: item in tail ==> item.updatedAt <= head.updatedAt
    ensures ItemsNewestFirst([head] + tail)
  {
    var items := [head] + tail;
    forall i, j | 0 <= i < j < |items| ensures items[i].updatedAt >= items[j].updatedAt {
      assert items[j] == tail[j - 1];
      assert tail[j - 1] in tail;
      if i > 0 {
        assert items[i] == tail[i - 1];
      }
    }
  }

  /** The filter keeps the page's order: listed chats stay newest first when the page is. */
  lemma {:induction false} ListedNewestFirst(json: JsonCodec, goal: Option<string>, rows: seq<(string, ChatRow)>)
    requires RowsNewestFirst(rows)
    ensures ItemsNewestFirst(Items(json, goal, rows))
  {
    if |rows| > 0 {
      RestNewestFirst(rows);
      ListedNewestFirst(json, goal, rows[1..]);
      if Keeps(json, goal, rows[0].1) {
        ItemsBounded(json, goal, rows[1..], rows[0].1.updatedAt);
        ConsNewestFirst(ItemOf(rows[0].0, rows[0].1), Items(json, goal, rows[1..]));
      }
    }
  }

  /** Every listed chat belongs to the caller, and the page is newest first. */
  lemma OnlyOwnChatsListed(chats: map<string, ChatRow>, address: string, json: JsonCodec, goal: Option<string>,
                           queried: seq<(string, ChatRow)>, n: nat, item: ListItem)
    requires IsNewestFirst(chats, address, queried)
    requires n <= |queried|
    requires item in Items(json, goal, queried[..n])
    ensures item.id in chats && chats[item.id].user == address
  {
    ListedIffKept(json, goal, queried[..n], item);
  }

  /** A goal address that does not normalise (such as "0xabc") narrows nothing. */
  lemma UnusableGoalNarrowsNothing(json: JsonCodec, rows: seq<(string, ChatRow)>)
    ensures Items(json, NormalizeAddress(Str("0xabc")), rows) == Items(json, None, rows)
  {
    ShortHexRejected();
  }
}
