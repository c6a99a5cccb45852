# Chat API: persistence, access control and prompt assembly

This project models the core of a chat backend. The backend stores chat transcripts in Postgres, guards each chat by its owner's wallet address, meters model usage in a Redis ledger, and assembles the system prompts the language model receives. The model covers:

- **Transcript persistence.** `storeChatMessages` upserts the chat row, resolves every entry of a transcript to a row id, bulk-upserts the rows and deletes orphans, then writes a title once. Beside it are marking a streamed reply as failed and clearing an unclaimed placeholder.
- **Access control.**
  - Address normalisation and comparison.
  - Chat grants: short-lived HS256 tokens binding a chat id to an address.
  - Caller validation from a shared secret or a Privy identity token.
  - The ownership checks and 404s of the create, get, list and post handlers.
- **The usage ledger.** A sorted set per address or Farcaster id. It is pruned and summed over a sliding window, and appended to with a one-day expiry.
- **Redis helpers.**
  - The cached connection.
  - The lease lock with heartbeat and compare-and-delete release.
  - The result cache with its JSON round trip and batched prefix delete.
  - The live-stats snapshot.
  - The cached profile lookup.
- **Prompt assembly.**
  - Agent prompts: the cached block, the goal, live stats, chat data, user data and the extra prompts.
  - The attachment listing and video stripping.
  - The order of the messages sent to the model.
  - The reasoning timer.
- **Configuration.** Environment validation, allowed origins and the error reply.

## How the model is built

The two database tables are the fields of the class `Schema.ChatDb`. `Valid()` holds the foreign key and the unique `(chatId, clientId)` index. The Redis keyspace is the field of `KvStore.Store`, a map from key to an entry with a millisecond deadline. Each Redis command is a function on that map, and the methods of `Store` are proved equal to those functions.

Handlers that change state are methods, and each method is proved equal to a specification function. For example, `MessageStore.StoreChatMessages` is proved equal to `StoreSpec`, and the properties the source promises are lemmas about those functions.

The following are parameters rather than computed by the model:

- The clock.
- Fresh UUIDs: a sequence `uuids` or `candidates`.
- The order a database query returns rows in: an input whose ordering is a predicate.
- The JSON codec: a pair of functions.
- The JWT library: a codec, with the soundness assumption written as the predicate `Grant.Sound`.
- Privy verification.
- The language model's reply.

Two behaviours of the source are easy to miss, and the model keeps both:

- `closeRedisClient` returns early when the client is not open.
- A chat's owner is overwritten on every upsert of the chat row.

## Model

| member | source | states |
|---|---|---|
| Schema.ChatDb.constructor | src/infra/db/schema.ts:6-36 | an empty database satisfies the foreign key and the unique (chatId, clientId) index |
| MessageStore.UpsertChat | src/chat/message-store.ts:30-50 | the chat id is added to the keys and no other chat changes; type, data, owner and updatedAt are overwritten; an existing row keeps title and createdAt, a new row has no title and createdAt = now |
| MessageStore.ById | src/chat/message-store.ts:73-79 | the index holds exactly the visited ids that are stored rows |
| MessageStore.ByClient | src/chat/message-store.ts:74-87 | every indexed client id is non-empty and maps to the visited row carrying it, and every visited row with a truthy client id is found under it |
| MessageStore.LastUserIndex | src/chat/message-store.ts:89-92 | the index of a user entry after which no user entry follows, or -1 when there is none |
| MessageStore.RequestedClientId | src/chat/message-store.ts:93 | the trimmed client message id when it is non-empty, otherwise nothing |
| MessageStore.IncomingClientId | src/chat/message-store.ts:98-99 | only the last user entry receives the requested client id |
| MessageStore.ResolveEntry | src/chat/message-store.ts:95-134 | the resolved row belongs to the chat, keeps the entry's role and parts, stores metadata or null, and has position = index |
| MessageStore.ResolveRows | src/chat/message-store.ts:95-134 | one resolved row per entry, in transcript order |
| MessageStore.IdSet | src/chat/message-store.ts:136-153 | the kept ids are exactly the ids of the resolved rows |
| MessageStore.UpsertRow | src/chat/message-store.ts:136-149 | the upsert adds exactly the row's id to the table's keys |
| MessageStore.DeleteOrphans | src/chat/message-store.ts:151-153 | a row survives exactly when it belongs to another chat or its id is kept; survivors are unchanged |
| MessageStore.DeleteChatRows | src/chat/message-store.ts:52-63 | every row of the chat is removed and every other row is kept unchanged |
| MessageStore.TitleUpdate | src/chat/message-store.ts:155-196 | no key changes and only the title of this chat can change; a chat that already has a title is left exactly as it was |
| MessageStore.StoreChatMessages | src/chat/message-store.ts:20-163 | the tables after the call and the thrown-or-not outcome equal the specification `StoreSpec`, and the database stays valid |
| MessageStore.WriteTranscript | src/chat/message-store.ts:65-153 | the load, resolve, upsert and delete steps leave `chat_message` as `TranscriptWrite` says, or unchanged with the statement's error, and keep the database valid |
| MessageStore.LoadExisting | src/chat/message-store.ts:65-87 | the loop builds exactly the by-id and by-client indexes of the chat's stored rows |
| MessageStore.UpsertKeepsForeignKeys | src/infra/db/schema.ts:20-22 | upserting rows of an existing chat keeps the foreign key |
| MessageStore.DeleteKeepsValid | src/chat/message-store.ts:151-153 | the orphan delete keeps the foreign key and the unique client-id index |
| MessageStore.UpsertRowsKeys | src/chat/message-store.ts:136-149 | after the bulk upsert the keys are the old keys plus the batch's ids |
| MessageStore.UpsertRowsOthers | src/chat/message-store.ts:136-149 | a row the batch does not name is unchanged by the upsert |
| MessageStore.UpsertRowsAt | src/chat/message-store.ts:136-149 | with distinct ids, each batch row ends up as its merge with the stored row, on conflict updating role, parts, metadata, position and clientId |
| MessageStore.UpsertRowsSpec | src/chat/message-store.ts:136-149 | the whole effect of the bulk upsert: keys, merged batch rows, untouched other rows |
| MessageStore.StoreSpecMessages | src/chat/message-store.ts:136-153 | a successful non-empty store resolves distinct ids and leaves the upsert followed by the orphan delete |
| MessageStore.UpsertKeepsIdentity | src/chat/message-store.ts:136-149 | an upsert never changes a stored row's chat or createdAt and never nulls a stored client id |
| MessageStore.StoredRowsMatchTranscript | src/chat/message-store.ts:95-153 | after a successful store the chat's rows are exactly the resolved ids, row i has position i and entry i's role, parts and metadata, and other chats' rows are untouched |
| MessageStore.UpsertThenDelete | src/chat/message-store.ts:136-153 | upsert then orphan delete leaves exactly the batch as the chat's rows and spares other chats |
| MessageStore.ForeignIdOverwritesOtherChat | src/chat/message-store.ts:117-149 | an entry id naming another chat's row overwrites that row's parts and position while it keeps its chat, so it is not among this chat's rows |
| MessageStore.EmptyTranscriptClearsChat | src/chat/message-store.ts:52-63 | an empty transcript deletes every row of the chat and keeps every other row |
| MessageStore.StoreUpsertsChat | src/chat/message-store.ts:30-50 | any store upserts the chat row with type, data, owner and updatedAt, keeps createdAt and an existing title, spares other chats, and a failure leaves the messages as they were |
| MessageStore.TitleWrittenOnlyWhen | src/chat/message-store.ts:165-196 | the title changes exactly when the chat has none, the first user text exists and the generator returns a title, and then it is that title |
| MessageStore.TitleNeverOverwritten | src/chat/message-store.ts:155-162 | once a chat has a title, no store changes it |
| MessageStore.ClientIdOnlyForLastUser | src/chat/message-store.ts:89-99 | an entry receives the requested client id exactly when it is the last user entry and the trimmed id is non-empty |
| MessageStore.ExactIdMatch | src/chat/message-store.ts:109-112 | an entry whose id names a row of this chat keeps that id and createdAt; a user entry keeps the stored client id or takes the incoming one |
| MessageStore.ClientIdMatch | src/chat/message-store.ts:113-116 | otherwise an entry whose lookup key matches a stored client id reuses that row's id, client id and createdAt |
| MessageStore.NoMatchNewRow | src/chat/message-store.ts:117-122 | an unmatched entry gets a new row at the fallback createdAt; a user entry gets a fresh id, any other entry its own id or a fresh one |
| MessageStore.ResubmittedEntryClashes | src/chat/message-store.ts:98-149 | a lone last user entry with a new id, submitted with the client id an existing row of the chat already holds, is looked up by its own id, becomes a new row with that client id, and the store fails on the unique index |
| MessageStore.NewRowClashes | src/chat/message-store.ts:137-149 | a new row whose client id an existing row of its chat holds makes the bulk upsert fail |
| MessageStore.IdlessUserEntryGetsFreshId | src/chat/message-store.ts:98-119 | a user entry with no usable id that is not offered the request's client id gets the fresh id whatever is stored, so storing the same transcript twice changes its row id |
| MessageStatus.MarkFailed | src/chat/message-status.ts:6-18 | only the named row of this chat is changed, to the error text part and error metadata; a row of another chat or a missing id changes nothing |
| MessageStatus.ClearPending | src/chat/message-status.ts:20-29 | a claimed placeholder deletes nothing; otherwise exactly the placeholder row of this chat is deleted |
| MessageStatus.MarkAssistantMessageFailed | src/chat/message-status.ts:6-18 | the messages table becomes `MarkFailed` of the old one, chats are unchanged and the database stays valid |
| MessageStatus.ClearPendingAssistantIfUnclaimed | src/chat/message-status.ts:20-29 | the messages table becomes `ClearPending` of the old one, chats are unchanged and the database stays valid |
| MessageStatus.ClearIdempotent | src/chat/message-status.ts:20-29 | clearing twice is clearing once |
| MessageStatus.ClearRemovesPlaceholder | src/chat/message-status.ts:25-28 | after an unclaimed clear no row of the chat carries the placeholder id |
| MessageStatus.ClearSparesOthers | src/chat/message-status.ts:25-28 | a claimed placeholder, or an id naming another chat's row, deletes nothing |
| MessageStatus.MarkKeepsIdentity | src/chat/message-status.ts:13-17 | marking keeps the row's role, position, client id, createdAt and chat |
| MessageStatus.MarkKeepsValid | src/chat/message-status.ts:11-17 | marking keeps the foreign key and the unique client-id index |
| MessageText.ExtractTextFromParts | src/chat/message-text.ts:5-8 | parts that are not an array extract to the empty string |
| MessageText.JoinTextsAppend | src/chat/message-text.ts:5-8 | extraction distributes over concatenation of part lists |
| MessageText.JoinTextsNoText | src/chat/message-text.ts:5-8 | parts with no text part extract to the empty string |
| MessageText.JoinTextsEmptyIff | src/chat/message-text.ts:5-8 | extraction is empty exactly when every part contributes empty text |
| MessageText.AppendTextPart | src/chat/message-text.ts:5-8 | appending a text part appends its text |
| MessageText.FirstUserText | src/chat/message-text.ts:10-17 | the text found is never empty |
| MessageText.FirstUserTextSpec | src/chat/message-text.ts:10-17 | nothing is found exactly when no user entry has text; otherwise the result is the text of the first user entry that has some |
| Address.NormalizeAddress | src/chat/address.ts:1-8 | a non-string gives nothing; a string whose trim has the `0x` + 40 hex shape gives that trim lower-cased; any other string gives nothing |
| Address.IsSameAddress | src/chat/address.ts:10-15 | two values match when both normalise to the same address |
| Address.LowerKeepsShape | src/chat/address.ts:1-8 | lower-casing keeps the address shape |
| Address.NormalizeIdempotent | src/chat/address.ts:3-8 | normalising a normalised address changes nothing |
| Address.NormalizedShape | src/chat/address.ts:1-8 | every normalised address has the address shape and no upper-case letter |
| Address.SameAddressSymmetric | src/chat/address.ts:10-15 | address comparison is symmetric |
| Address.SameAddressAsNormalized | src/chat/address.ts:10-15 | an address matches its own normal form |
| Address.SameAddressCaseInsensitive | src/chat/address.ts:10-15 | addresses that agree after trimming and case folding match |
| Address.NotAddressMatchesNothing | src/chat/address.ts:13 | a value that does not normalise matches nothing, not even itself |
| Address.ShortHexRejected | src/chat/address.ts:1 | a short hex string is not an address |
| Grant.GrantClaims | src/chat/grant.ts:4-29 | the claims are cid, perm "send", the lower-cased subject, issuer, audience, iat = floor(now/1000) and exp = iat + 900 |
| Grant.VerifyChatGrant | src/chat/grant.ts:31-51 | a payload is returned exactly when the token decodes with the secret, uses HS256, passes issuer, audience and time checks, has perm "send" and string cid and sub; and the payload carries those cid and sub |
| Grant.GrantRoundTrip | src/chat/grant.ts:18-51 | a minted grant verifies to its chat id and lower-cased address until its 900 seconds run out |
| Grant.GrantExpires | src/chat/grant.ts:6 | from second iat + 900 on, the grant no longer verifies |
| Grant.OtherPermissionRejected | src/chat/grant.ts:39 | a token with any permission other than "send" is refused |
| Grant.MissingSubjectRejected | src/chat/grant.ts:41 | a token without a subject is refused |
| Grant.OtherAlgorithmRejected | src/chat/grant.ts:31-38 | a token whose header names another algorithm is refused |
| Title.TitleRequest | src/chat/generate-title.ts:10-22 | no request exactly when the trimmed message is empty; otherwise a prefix of the trim of at most 800 characters, the whole trim when it fits |
| Title.StripQuotes | src/chat/generate-title.ts:26 | the result is the text with one leading quote removed if there is one and one trailing quote removed if one is left, so at most two characters go |
| Title.StripQuotesLeadingOnly | src/chat/generate-title.ts:26 | a leading quote with no trailing one is removed alone |
| Title.StripQuotesTrailingOnly | src/chat/generate-title.ts:26 | a trailing quote with no leading one is removed alone |
| Title.GenerateChatTitle | src/chat/generate-title.ts:9-41 | an empty message gives no title without asking the model; a model failure is returned as an error; a title is the non-empty cleaned reply, and "no title" comes back exactly when the cleaned reply is empty |
| Title.QuotesOnlyGiveNoTitle | src/chat/generate-title.ts:26-40 | a reply of only whitespace and quotes gives no title |
| Title.StripQuotesOfQuoted | src/chat/generate-title.ts:26 | a quoted reply loses exactly its outer quotes |
| Title.StripQuotesKeepsInner | src/chat/generate-title.ts:26 | inner quotes survive |
| Title.StripQuotesUnquoted | src/chat/generate-title.ts:26 | text without a quote at either end is kept as is |
| Title.SummarizeResponseBody | src/chat/generate-title.ts:43-52 | nothing for a falsy body, a placeholder when it does not serialise, the JSON when at most 2000 characters, else its first 2000 characters and the truncation note with the full length |
| KvStore.Find | src/infra/redis.ts:85-88 | an entry is seen exactly when the key exists and its deadline has not passed |
| KvStore.GetSpec | src/infra/redis.ts:57-71 | GET answers nothing exactly when no live entry exists, and a string exactly when the live entry holds one |
| KvStore.SetNxPxSpec | src/infra/redis.ts:85-88 | a non-positive ttl is refused; the key is set, with deadline now + ttl, exactly when no live entry holds it; otherwise nothing changes |
| KvStore.SetExSpec | src/infra/cache/cacheResult.ts:96-97 | a non-positive ttl is refused; otherwise the key is replaced with deadline now + seconds |
| KvStore.DelSpec | src/infra/cache/cacheResult.ts:66-86 | exactly the named keys go and every other entry is unchanged |
| KvStore.PExpireSpec | src/infra/redis.ts:65-71 | only a live key is touched: it gets deadline now + ms, or is deleted for a non-positive ms |
| KvStore.ScoresAt | src/infra/rate-limit.ts:9 | an absent key reads as an empty sorted set |
| KvStore.ZAddSpec | src/infra/rate-limit.ts:46 | ZADD succeeds exactly when the key holds a sorted set or nothing, and then sets the member's score |
| KvStore.Above | src/infra/rate-limit.ts:7-9 | exactly the members scored strictly above the bound, with their scores |
| KvStore.ZRemUpToSpec | src/infra/rate-limit.ts:7 | the prune succeeds exactly when the key holds a sorted set or nothing |
| KvStore.KeysWithPrefix | src/infra/cache/cacheResult.ts:72-86 | exactly the live keys starting with the prefix |
| KvStore.Store.constructor | src/infra/redis.ts:9-21 | a fresh keyspace is empty |
| KvStore.Store.Get | src/infra/cache/cacheResult.ts:28-48 | GET answers as `GetSpec` |
| KvStore.Store.SetNxPx | src/infra/redis.ts:85-88 | SET NX PX changes the keyspace and answers as `SetNxPxSpec`; an error changes nothing |
| KvStore.Store.SetEx | src/infra/cache/cacheResult.ts:97 | SET EX changes the keyspace as `SetExSpec`; an error changes nothing |
| KvStore.Store.Del | src/infra/cache/cacheResult.ts:66-70 | DEL changes the keyspace as `DelSpec` |
| KvStore.Store.PExpire | src/infra/redis.ts:65-71 | PEXPIRE changes the keyspace and answers as `PExpireSpec` |
| KvStore.Store.Expire | src/infra/rate-limit.ts:47 | EXPIRE changes the keyspace as `ExpireSpec` |
| KvStore.Store.ZAdd | src/infra/rate-limit.ts:46 | ZADD changes the keyspace as `ZAddSpec`; an error changes nothing |
| KvStore.Store.ZRemUpTo | src/infra/rate-limit.ts:7 | ZREMRANGEBYSCORE changes the keyspace as `ZRemUpToSpec`; an error changes nothing |
| KvStore.Store.Scores | src/infra/rate-limit.ts:9 | ZRANGEBYSCORE reads the members as `ScoresAt` |
| KvStore.ZRemUpToIdempotent | src/infra/rate-limit.ts:7 | a second prune at the same bound removes nothing |
| KvStore.SetNxExcludes | src/infra/redis.ts:85-88 | while one holder's lease is live, a second SET NX neither takes the key nor changes anything |
| RateLimit.GetUsage | src/infra/rate-limit.ts:3-36 | the read fails exactly when the key holds a string; otherwise it prunes everything scored at or before the window start and reports the window's usage; a failure changes nothing |
| RateLimit.PrunedLedger | src/infra/rate-limit.ts:7-9 | after the prune the ledger holds exactly the members above the window start |
| RateLimit.UsageReadIdempotent | src/infra/rate-limit.ts:3-15 | two reads at the same instant report the same usage |
| RateLimit.RecordSpec | src/infra/rate-limit.ts:44-48 | recording fails exactly when the key holds a string |
| RateLimit.RecordUsage | src/infra/rate-limit.ts:38-57 | the keyspace and outcome are those of `RecordSpec`, ZADD then EXPIRE in one MULTI |
| RateLimit.RecordKeepsLedgerLive | src/infra/rate-limit.ts:41-47 | a recorded ledger lives for one day and scores the amount at now |
| RateLimit.RecordAddsAmount | src/infra/rate-limit.ts:9-14 | a read inside the window after recording a new amount reports the old window total plus that amount |
| RateLimit.RecordEqualAmountCollides | src/infra/rate-limit.ts:46 | recording an amount already in the window only re-scores it: the usage does not grow |
| RateLimit.UsageBoundsEachRecord | src/infra/rate-limit.ts:9-14 | with non-negative amounts, each amount in the window is at most the usage read |
| RateLimit.StaleLedgerReadsZero | src/infra/rate-limit.ts:7-14 | a ledger with nothing inside the window reads as zero |
| AiRateLimit.AddressKey | src/ai/ai-rate.limit.ts:7-17 | the address ledger key is "ai:" followed by the address |
| AiRateLimit.FidKey | src/ai/ai-rate.limit.ts:20-34 | the Farcaster ledger key is "ai:fid:" followed by the id's digits |
| AiRateLimit.IsAiUsageAvailable | src/ai/ai-rate.limit.ts:3-12 | usage is available exactly when the six-hour usage is below the limit (225000 in production, 2000000 elsewhere), after pruning the ledger |
| AiRateLimit.RecordAiUsage | src/ai/ai-rate.limit.ts:14-17 | records the amount on the address ledger as `RecordSpec` |
| AiRateLimit.IsAiUsageAvailablePerFid | src/ai/ai-rate.limit.ts:20-29 | the same test on the Farcaster id's one-day ledger and limit |
| AiRateLimit.RecordAiUsagePerFid | src/ai/ai-rate.limit.ts:31-34 | records the amount on the Farcaster ledger as `RecordSpec` |
| AiRateLimit.AddressKeyInjective | src/ai/ai-rate.limit.ts:7-17 | distinct addresses have distinct ledgers |
| AiRateLimit.AddressAndFidLedgersApart | src/ai/ai-rate.limit.ts:7-34 | a wallet address never shares a ledger with a Farcaster id |
| AiRateLimit.FidShapedTextSharesLedger | src/ai/ai-rate.limit.ts:7-34 | a non-address text such as "fid:7" does share the ledger of Farcaster id 7 |
| AiRateLimit.LargeRecordExhaustsBudget | src/ai/ai-rate.limit.ts:3-12 | one recorded amount at or above the limit inside the window makes usage unavailable |
| Redis.Connection.constructor | src/infra/redis.ts:9-21 | no connection is cached or open, and none has been started |
| Redis.Connection.GetClient | src/infra/redis.ts:9-21 | a cached connection is reused without connecting; otherwise one connect is started, and it is cached only when it succeeds, so a failure is retried next time |
| Redis.Connection.Close | src/infra/redis.ts:23-37 | a closed client is left alone; an open one drops the cache and is closed unless both the quit and the fallback disconnect fail |
| Redis.MergeLockOpts | src/infra/redis.ts:46-51 | each option the caller gives overrides its default, each missing one takes it |
| Redis.HeartbeatPeriod | src/infra/redis.ts:104-114 | the period is max(1000, floor(ttl/3)) |
| Redis.HeartbeatWithinTtl | src/infra/redis.ts:104-114 | the heartbeat comes before the deadline exactly when the ttl is at least one second |
| Redis.ReleaseSpec | src/infra/redis.ts:57-63 | the key is deleted exactly when it holds the caller's token; otherwise nothing changes |
| Redis.HeartbeatSpec | src/infra/redis.ts:65-71 | the deadline is renewed exactly when the key holds the caller's token; otherwise nothing changes |
| Redis.ReleaseSparesOtherHolder | src/infra/redis.ts:57-63 | release never removes another holder's lease |
| Redis.ReleaseFreesOwnLease | src/infra/redis.ts:57-63 | release of one's own live lease frees the key and keeps every other key |
| Redis.HeartbeatSparesOtherHolder | src/infra/redis.ts:65-71 | a heartbeat never extends another holder's lease |
| Redis.HeartbeatRenewsOwnLease | src/infra/redis.ts:65-71 | a heartbeat on one's own live lease moves its deadline to now + ttl |
| Redis.HeartbeatAfterLapse | src/infra/redis.ts:65-71 | a heartbeat after the deadline renews nothing |
| Redis.ShortTtlLeaseLapses | src/infra/redis.ts:104-114 | with a 500 ms ttl the first heartbeat comes at 1000 ms, after the lease lapsed, and a second holder takes the key at 600 ms |
| Redis.Acquire | src/infra/redis.ts:85-102 | attempts are increasing from the start; every failed attempt found the key held and came before the wait ran out; success sets the key to the token with deadline + ttl; a timeout reports the key's message and changes nothing |
| Redis.Heartbeats | src/infra/redis.ts:104-114 | beats come at each period until the work ends, only the lease's deadline changes, and with a ttl of at least one second the lease outlives the work |
| Redis.WithRedisLock | src/infra/redis.ts:73-127 | the work runs exactly when the ttl is positive and the last attempt found the key free, so a key free at the start always runs it; every earlier attempt found it held, within the wait; a timeout returns the NonceLockTimeout error for the key and a non-positive ttl the SET error, changing nothing; a run returns the work's outcome; no other key is touched; with a ttl of at least one second the lease is released afterwards |
| Redis.HoldAndRelease | src/infra/redis.ts:104-126 | the heartbeats and the release change only the lock's key, and with a ttl of at least one second the key is gone at the end |
| Attachments.ToUrlString | src/ai/utils/attachments.ts:13-17 | a string or a URL gives text, anything else nothing |
| Attachments.FileUrlOrData | src/ai/utils/attachments.ts:23-26 | an explicit URL wins over inline data |
| Attachments.AttachmentInfo | src/ai/utils/attachments.ts:8-45 | an image part is an image; a file part is an image or a video by its media type prefix; nothing else is an attachment |
| Attachments.Label | src/ai/utils/attachments.ts:47-62 | images are listed as "[Image](...)", videos as "[Video](...)" |
| Attachments.ExtractAttachments | src/ai/utils/attachments.ts:47-62 | the nested loop collects exactly `AttachmentLines`, message by message and part by part |
| Attachments.PartLinesAppend | src/ai/utils/attachments.ts:52-60 | listing keeps the order of the parts |
| Attachments.AttachmentLinesAppend | src/ai/utils/attachments.ts:47-62 | listing keeps message order, then part order |
| Attachments.OneImage | src/ai/utils/attachments.ts:28-62 | one image part with a URL lists exactly that URL |
| Attachments.TextContentListsNothing | src/ai/utils/attachments.ts:50-51 | string content lists nothing |
| Attachments.EscapeChar | src/ai/utils/attachments.ts:64-72 | a character that is not a quote, backslash or control character is written as itself |
| Attachments.QuotePlain | src/ai/utils/attachments.ts:64-72 | plain text is written verbatim between quotes |
| Attachments.QuoteAll | src/ai/utils/attachments.ts:64-72 | an array of strings serialises between brackets |
| Attachments.AttachmentsPrompt | src/ai/utils/attachments.ts:64-72 | no prompt exactly when there are no attachments; otherwise one system message with the heading and the JSON list |
| Attachments.WithoutVideos | src/ai/utils/attachments.ts:76-86 | a part is kept exactly when it was among the parts and is not a video |
| Attachments.WithoutVideosAppend | src/ai/utils/attachments.ts:76-86 | filtering keeps the order of the parts |
| Attachments.WithoutVideosKeepsOthers | src/ai/utils/attachments.ts:76-86 | parts without videos are all kept |
| Attachments.MessagesWithoutVideos | src/ai/utils/attachments.ts:76-86 | the same number of messages with the same roles; only user messages with part arrays change, and their parts become exactly the non-video parts, in order |
| CacheResult.CacheEnabled | src/infra/cache/cacheResult.ts:3 | the cache is on exactly when NODE_ENV is not "development" |
| CacheResult.EffectiveTtl | src/infra/cache/cacheResult.ts:88-97 | a finite positive ttl is floored, anything else takes one hour |
| CacheResult.SubSecondTtlRefused | src/infra/cache/cacheResult.ts:96-97 | a ttl below one second floors to 0 and the store refuses the write |
| CacheResult.ValueToCache | src/infra/cache/cacheResult.ts:88-98 | a string is stored as itself, anything else as its JSON |
| CacheResult.DecodeCached | src/infra/cache/cacheResult.ts:28-48 | a miss reads as null; text not starting with a bracket comes back as a string; otherwise the parse, unless it fails, is falsy or an empty object |
| CacheResult.DecodedIsNullOrWorthReturning | src/infra/cache/cacheResult.ts:28-48 | a read never reports undefined, an empty object or a falsy value as a hit |
| CacheResult.PlainStringRoundTrip | src/infra/cache/cacheResult.ts:28-98 | a string that does not look like JSON comes back as stored |
| CacheResult.StructuredRoundTrip | src/infra/cache/cacheResult.ts:28-98 | an array or non-empty object comes back as stored when the codec round-trips |
| CacheResult.NumberComesBackAsText | src/infra/cache/cacheResult.ts:28-98 | a cached number comes back as a string |
| CacheResult.SetCachedResult | src/infra/cache/cacheResult.ts:88-98 | an unserialisable result fails without a write; otherwise SET EX under prefix + key with the effective ttl |
| CacheResult.GetCachedResult | src/infra/cache/cacheResult.ts:28-48 | disabled reads give null; otherwise the decoded GET, failing only when GET fails and then with GET's error |
| CacheResult.CacheResultOf | src/infra/cache/cacheResult.ts:10-22 | an error, a nullish result or a disabled cache writes nothing; a result that cannot be serialised is an error and writes nothing; otherwise the result is written; success always returns the fetched result |
| CacheResult.GetOrSetCachedResult | src/infra/cache/cacheResult.ts:50-64 | a hit is returned without fetching or writing; a GET error is thrown without fetching or writing; fetch happens exactly when caching is off or the read finds nothing; a miss then fetches and caches as cacheResult does (errors and nullish values write nothing, an unserialisable value is an error, anything else is SET EX with the effective ttl); a fetch's success returns the fetched value; disabled caching always fetches and never writes |
| CacheResult.DeleteCachedResult | src/infra/cache/cacheResult.ts:66-70 | deletes prefix + key when caching is on, else nothing |
| CacheResult.DeleteCachedResultsByPrefix | src/infra/cache/cacheResult.ts:72-86 | batches of at most 500 keys, all full but the last, together exactly the scanned keys, all deleted |
| CacheResult.DeleteByPrefixClears | src/infra/cache/cacheResult.ts:72-86 | when the scan reports every matching key, none survives |
| CobuildAiContext.Truncate | src/infra/cobuild-ai-context.ts:13-16 | short text is kept; long text is cut to the limit and ends in an ellipsis |
| CobuildAiContext.TruncateBound | src/infra/cobuild-ai-context.ts:9-24 | an error text is at most 120 characters |
| CobuildAiContext.FormatError | src/infra/cobuild-ai-context.ts:18-24 | an Error's message or a string is truncated; anything else is "Unknown error" |
| CobuildAiContext.FetchOutcome | src/infra/cobuild-ai-context.ts:26-47 | data comes back exactly when the response is OK and its body parses |
| CobuildAiContext.FetchError | src/infra/cobuild-ai-context.ts:39-41 | a non-OK status throws "HTTP status" |
| CobuildAiContext.GetSnapshot | src/infra/cobuild-ai-context.ts:55-69 | a cache read error is thrown without fetching; a truthy cached value is returned without fetching; the source is fetched exactly when the cache is off or holds nothing truthy; a failed fetch gives null data and the formatted error without writing; nullish data or a disabled cache returns the data without writing; otherwise the data is returned and written under cobuild:ai-context:snapshot with deadline now + 900000 ms, and data that cannot be serialised gives null data and an error without writing |
| GetProfile.Latest | src/infra/db/queries/profiles/get-profile.ts:27 | the row with the greatest update time, the earliest such on a tie |
| GetProfile.HasPositiveFid | src/infra/db/queries/profiles/get-profile.ts:12-17 | reading fid throws exactly on a nullish profile; otherwise true exactly for a positive number |
| GetProfile.GetFarcasterProfileByAddress | src/infra/db/queries/profiles/get-profile.ts:6-40 | the database is queried exactly on a cache miss or a stale cached profile; a cached profile with a positive fid is returned untouched; a read error or an unusable entry gives null; a stale entry is deleted first; no rows give null; a serialisable latest row is returned and cached for the ttl; an unserialisable one gives null without writing |
| GetProfile.ReadCache | src/infra/db/queries/profiles/get-profile.ts:12-17 | a miss is exactly a successful read of nothing or the empty text; a valid entry parses to a profile with a positive fid |
| GetProfile.MissingUpdateLoses | src/infra/db/queries/profiles/get-profile.ts:27 | a row without an update time loses to a later one |
| GetProfile.TieKeepsEarlier | src/infra/db/queries/profiles/get-profile.ts:27 | on equal update times the earlier row wins |
| GetUserFromToken.FirstWallet | src/api/auth/get-user-from-token.ts:24-29 | the index of the first wallet account, or none when no account is one |
| GetUserFromToken.LinkedAccounts | src/api/auth/get-user-from-token.ts:19-22 | accounts come only from linked_accounts text that parses to an array, and such text always gives its elements |
| GetUserFromToken.GetUserAddressFromToken | src/api/auth/get-user-from-token.ts:5-37 | a missing key throws in production and otherwise fails; with a key no error is thrown; an address is returned exactly from a verified payload with a subject and parsable linked accounts holding a wallet, lower-cased from the first wallet account |
| GetUserFromToken.MissingSubjectGivesNothing | src/api/auth/get-user-from-token.ts:17 | a payload without a subject gives no address |
| GetUserFromToken.FirstWalletWins | src/api/auth/get-user-from-token.ts:24-29 | the first wallet wins and other account types are skipped |
| ValidateChatUser.HeaderText | src/api/auth/validate-chat-user.ts:41-47 | a single header value is its text, a missing header nothing |
| ValidateChatUser.DecideSelfHosted | src/api/auth/validate-chat-user.ts:20-48 | with a secret configured, a missing or wrong x-chat-auth is refused; with no secret or the right one, a claimed or default address that normalises is accepted with that address and the request's headers, and one that does not is refused as a missing user |
| ValidateChatUser.Decide | src/api/auth/validate-chat-user.ts:18-73 | self-hosting decides by secret; otherwise a missing token is refused, a token error is rethrown, no address or one that does not normalise is refused, and a good one is accepted normalised |
| ValidateChatUser.AcceptedAddressNormalised | src/api/auth/validate-chat-user.ts:32-69 | every accepted caller has a normalised, lower-case address |
| ValidateChatUser.RequestContext.constructor | src/api/auth/validate-chat-user.ts:76-80 | no user is set before validation |
| ValidateChatUser.RequestContext.ValidateChatUser | src/api/auth/validate-chat-user.ts:18-73 | an acceptance stores the user; a refusal answers 401 with its text and stores nothing; an error is rethrown |
| ValidateChatUser.RequestContext.GetChatUserOrThrow | src/api/auth/validate-chat-user.ts:76-80 | the stored user, or the "User not found" error |
| Env.CommaList | src/config/env.ts:3-13 | every piece is non-empty and holds no comma |
| Env.CommaListTrimmed | src/config/env.ts:3-13 | every piece is trimmed |
| Env.CommaListRoundTrip | src/config/env.ts:3-13 | joining trimmed, non-empty, comma-free pieces and parsing again gives them back |
| Env.ReplicaUrls | src/config/env.ts:3-13 | a missing value, or one with no usable piece, gives no list; otherwise the pieces |
| Env.ValidateEnvVariables | src/config/env.ts:15-44 | validation succeeds exactly when the schema accepts and the production key is present; the settings echo the URLs, key and environment |
| Env.LoadDatabaseConfig | src/config/env.ts:51-57 | the primary URL and the replica list, empty when none |
| Env.GetPrivyVerificationKey | src/config/env.ts:67-73 | an empty key fails the schema; a missing one throws in production and is null elsewhere |
| Env.IsChatDebugEnabled | src/config/env.ts:75-78 | debugging is on exactly when DEBUG_CHAT is "true" or "1" in any case; an empty value fails the schema |
| Env.DebugFlagIgnoresCase | src/config/env.ts:76-77 | "TRUE" switches debugging on |
| Server.GetAllowedOrigins | src/api/server.ts:20-30 | a configured list is used alone; otherwise the fallback |
| Server.Fallback | src/api/server.ts:18-30 | production falls back to the default origins, elsewhere to the development origin |
| Server.EmptyListsNothing | src/api/server.ts:20-30 | an empty setting holds no origin |
| Server.ConfiguredOriginsAlone | src/api/server.ts:20-30 | a configured list is never merged with the defaults |
| ServerHelpers.HandleError | src/api/server-helpers.ts:1-27 | a nullish error throws while being logged; otherwise the status is statusCode or 500, and the body echoes name, message and status with their defaults |
| ServerHelpers.PlainErrorIs500 | src/api/server-helpers.ts:23-27 | an Error without a status code is a 500 named after the error |
| ServerHelpers.StatusCodeEchoed | src/api/server-helpers.ts:23-27 | a status code on the error is sent and echoed |
| ChatHelpers.StreamErrorMessage | src/api/chat/chat-helpers.ts:5-10 | an Error's own non-empty message, else the generic text; never empty |
| ChatHelpers.RecordUsageIfPresent | src/api/chat/chat-helpers.ts:12-19 | no or zero tokens record nothing; otherwise the amount is recorded on the address ledger |
| ChatHelpers.ResolveIsMobileRequest | src/api/chat/chat-helpers.ts:21-30 | an explicit "mobile" or "desktop" header in any case wins; otherwise the user agent decides |
| ChatHelpers.MobileAnywhere | src/api/chat/chat-helpers.ts:32-37 | any agent containing "Mobile" is mobile |
| ChatHelpers.MobileIgnoresCase | src/api/chat/chat-helpers.ts:32-37 | mobile detection ignores case |
| ChatHelpers.DesktopHeaderWins | src/api/chat/chat-helpers.ts:21-30 | "DESKTOP" makes any request non-mobile |
| ChatHelpers.ContextPrompt | src/api/chat/chat-helpers.ts:39-56 | the context message exists exactly when the trimmed context is non-empty, and carries it |
| ChatHelpers.BuildStreamMessages | src/api/chat/chat-helpers.ts:39-56 | system prompts, then the context, then the attachment listing, then the conversation without videos |
| ChatHelpers.PlainConversation | src/api/chat/chat-helpers.ts:39-56 | without context or attachments the model sees only the system prompts and the conversation |
| ChatHelpers.Elapsed | src/api/chat/chat-helpers.ts:58-71 | the time since start, never negative |
| ChatHelpers.ReasoningTracker.constructor | src/api/chat/chat-helpers.ts:58-60 | the timer starts now |
| ChatHelpers.ReasoningTracker.TrackPart | src/api/chat/chat-helpers.ts:61-71 | "start" restarts the timer, "finish" reports the elapsed time, other parts do nothing |
| Route.Authorize | src/api/chat/route.ts:46-71 | a matching grant admits without lookup or new grant; otherwise admission exactly when the chat exists and is the caller's, with a freshly minted grant |
| Route.GrantSkipsLookup | src/api/chat/route.ts:46-55 | with a matching grant the chat table is not consulted |
| Route.ForeignChatLooksMissing | src/api/chat/route.ts:56-69 | another owner's chat is refused exactly like a missing one |
| Route.MintedGrantMatches | src/api/chat/route.ts:46-71 | a minted grant admits the same caller to the same chat while it lasts |
| Route.NormalizedIsLower | src/api/chat/route.ts:46-55 | a normalised address is its own lower-case form, so the grant's subject matches it |
| Route.GrantHeader | src/api/chat/route.ts:199-202 | the grant header is set exactly for a non-empty minted grant |
| Route.BodyData | src/api/chat/route.ts:39-44 | a missing data field defaults to an empty object |
| Route.InitialArgs | src/api/chat/route.ts:97-114 | the first store writes the transcript and the placeholder, without a title |
| Route.FinishArgs | src/api/chat/route.ts:163-192 | the finishing store writes the finished transcript with a title |
| Route.StreamSession.constructor | src/api/chat/route.ts:89-95 | a session starts with its placeholder id unused |
| Route.StreamSession.GenerateMessageId | src/api/chat/route.ts:149-156 | the placeholder id on the first call, a fresh id later |
| Route.StreamSession.OnFinish | src/api/chat/route.ts:163-192 | the finished transcript is stored as `StoreSpec`; a failure answers the persistence error; a success also clears the unclaimed placeholder |
| Route.StreamSession.OnError | src/api/chat/route.ts:193-197 | the placeholder is marked failed with the stream error text, which is returned |
| Route.Admission | src/api/chat/route.ts:46-87 | refusal exactly when authorisation fails; a ledger failure exactly when admitted but the ledger read fails; throttled or admitted by comparing usage with the limit |
| Route.HandleChatPost | src/api/chat/route.ts:34-209 | no user fails; a refusal is a 404 with no change; throttling is a 429 with the grant; admission stores the transcript with the placeholder and streams the built messages, or fails with the persistence error |
| Create.NewChatRow | src/api/chat/create.ts:24-34 | a new chat has no title, both times now, and the given type, data and owner |
| Create.FirstFree | src/api/chat/create.ts:22-40 | the first candidate id not taken, or none when all are |
| Create.HandleChatCreate | src/api/chat/create.ts:19-42 | no user fails; unserialisable data fails; the first free id is inserted with a grant; no free id is a 500; messages never change |
| Create.FirstFreeIs | src/api/chat/create.ts:22-40 | the first free candidate is the one before which all are taken |
| Create.ExistingChatUntouched | src/api/chat/create.ts:22-40 | a create never modifies an existing chat |
| Get.ToUiMessage | src/api/chat/get.ts:54-79 | the id and role are kept; non-array parts become empty; metadata is kept exactly when it is a truthy object |
| Get.ToUiMessages | src/api/chat/get.ts:54-59 | one entry per row, in the query's order |
| Get.ChatData | src/api/chat/get.ts:60 | unparsable or null data becomes an empty object |
| Get.HandleChatGet | src/api/chat/get.ts:22-70 | no user fails; a chat that is missing or not the caller's is a 404; otherwise the type, data, transcript and a fresh grant |
| Get.ForeignChatLooksMissing | src/api/chat/get.ts:35-41 | another owner's chat is answered exactly as a missing one |
| Get.TranscriptInPositionOrder | src/api/chat/get.ts:43-59 | the served transcript holds exactly the chat's rows, once each, in position order |
| Get.MalformedRowServedEmpty | src/api/chat/get.ts:54-59 | a row with malformed parts and null metadata is served empty |
| List.ResolvedLimit | src/api/chat/list.ts:9-27 | the limit is between 1 and the maximum: default when missing or 0, clamped otherwise |
| List.EntryGoal | src/api/chat/list.ts:44-50 | a chat's goal is its normalised goalAddress, when the data parses and holds a string |
| List.ItemOf | src/api/chat/list.ts:52-60 | an item carries the chat's id, title, type and times |
| List.Items | src/api/chat/list.ts:44-60 | never more items than rows |
| List.HandleChatList | src/api/chat/list.ts:20-60 | no user fails; otherwise the filtered items of the first limit rows, at most limit of them |
| List.NoGoalListsAll | src/api/chat/list.ts:44-60 | without a usable goal every row is listed, in order |
| List.ListedIffKept | src/api/chat/list.ts:44-60 | a chat is listed exactly when a row carries it and passes the filter |
| List.ItemsBounded | src/api/chat/list.ts:39-60 | listed chats are no newer than the newest row |
| List.ListedNewestFirst | src/api/chat/list.ts:39-60 | the filter keeps the newest-first order |
| List.OnlyOwnChatsListed | src/api/chat/list.ts:39-60 | every listed chat is the caller's |
| List.UnusableGoalNarrowsNothing | src/api/chat/list.ts:28-50 | a goal that does not normalise narrows nothing |
| Tool.GetTools | src/ai/tools/tool.ts:9-11 | a name has a tool exactly when some definition carries it |
| Tool.LaterDuplicateWins | src/ai/tools/tool.ts:9-11 | a name maps to its last definition |
| Tool.GetToolPrompts | src/ai/tools/tool.ts:13-22 | one system message per tool, in order |
| Tool.CachedPrompts | src/ai/tools/tool.ts:24-32 | the same array comes back with the same contents |
| Goal.GoalSection | src/ai/prompts/goal.ts:106 | a goal renders under the "Goal context" heading |
| Goal.GetGoalPrompt | src/ai/prompts/goal.ts:100-107 | a falsy goal gives nothing, a non-string throws, an unknown one gives nothing, a known one renders |
| Goal.GoalIgnoresCase | src/ai/prompts/goal.ts:102-103 | keys that lower-case alike give the same prompt |
| Goal.KnownGoalRenders | src/ai/prompts/goal.ts:104-106 | a known goal renders a non-empty prompt |
| Goal.MixedCaseKeyFound | src/ai/prompts/goal.ts:102-106 | "Raise-1-Mil" finds the "raise-1-mil" goal |
| CobuildAiContextPrompt.UnavailableNotice | src/ai/prompts/cobuild-ai-context.ts:5-7 | the notice names the error, or "unknown error" |
| CobuildAiContextPrompt.PromptText | src/ai/prompts/cobuild-ai-context.ts:9-12 | a non-blank prompt string is used, else "Unavailable." |
| CobuildAiContextPrompt.PromptLines | src/ai/prompts/cobuild-ai-context.ts:14-27 | twelve lines with the heading, source, prompt text and indented JSON in place |
| CobuildAiContextPrompt.CobuildAiContextPrompt | src/ai/prompts/cobuild-ai-context.ts:5-27 | without data the notice; otherwise the lines joined by newlines, failing when the data does not serialise |
| CobuildAiContextPrompt.BlankPromptUnavailable | src/ai/prompts/cobuild-ai-context.ts:9-12 | a blank prompt is replaced by "Unavailable." |
| UserData.Interpolated | src/ai/prompts/user-data.ts:20-25 | a missing value interpolates as "null" |
| UserData.AddressLine | src/ai/prompts/user-data.ts:10 | the address sentence, or "not logged in" when the address is empty |
| UserData.GetLocationPrompt | src/ai/prompts/user-data.ts:20-25 | empty exactly when city, country and region are all blank; otherwise the location sentence |
| UserData.GetUserAgentPrompt | src/ai/prompts/user-data.ts:27-32 | empty exactly when the user agent is blank; otherwise the agent sentence |
| UserData.GetFarcasterProfilePrompt | src/ai/prompts/user-data.ts:34-42 | no profile gives the no-account notice; a profile gives its JSON; serialisation failures throw |
| UserData.GetUserDataPrompt | src/ai/prompts/user-data.ts:5-18 | the sections in order, failing exactly when the profile prompt does |
| UserData.CityAloneLocates | src/ai/prompts/user-data.ts:20-25 | a city alone still gives the location section, with "null" for the rest |
| AgentPrompts.Entries | src/ai/utils/agent-prompts.ts:47-59 | an object's entries are its fields; a primitive has none |
| AgentPrompts.SafeEntries | src/ai/utils/agent-prompts.ts:49-55 | exactly the entries whose key is not hidden |
| AgentPrompts.GetDataPrompt | src/ai/utils/agent-prompts.ts:47-59 | no data or only hidden keys give nothing; otherwise the heading and the JSON of the visible entries |
| AgentPrompts.DataPromptHidesKeys | src/ai/utils/agent-prompts.ts:49-55 | the data prompt holds no hidden key |
| AgentPrompts.HiddenOnlyGivesNothing | src/ai/utils/agent-prompts.ts:49-58 | data holding only grantId and draftId gives no prompt |
| AgentPrompts.WithContent | src/ai/utils/agent-prompts.ts:44 | exactly the prompts with content |
| AgentPrompts.CachedBlock | src/ai/utils/agent-prompts.ts:24-32 | four fixed prompts, the personality fourth, then the tool prompts |
| AgentPrompts.OptionalPrompt | src/ai/utils/agent-prompts.ts:35-38 | an empty text gives no prompt |
| AgentPrompts.UserPrompt | src/ai/utils/agent-prompts.ts:39 | no user gives nothing; a user gives the user-data prompt, failing with it |
| AgentPrompts.ExtraMessages | src/ai/utils/agent-prompts.ts:42 | one system message per extra prompt, in order |
| AgentPrompts.Assemble | src/ai/utils/agent-prompts.ts:22-44 | assembly succeeds exactly when every awaited prompt does; the goal's error comes first |
| AgentPrompts.GetAgentPrompts | src/ai/utils/agent-prompts.ts:22-45 | the pushed prompts, with the empty ones dropped |
| AgentPrompts.PushExtraPrompts | src/ai/utils/agent-prompts.ts:42 | the extra prompts are appended in order |
| AgentPrompts.KeepWithContent | src/ai/utils/agent-prompts.ts:44 | the loop keeps exactly the prompts with content, in order |
| AgentPrompts.NoUserNoUserDataPrompt | src/ai/utils/agent-prompts.ts:22-44 | without a user the pushed prompts are exactly the cached block, the goal prompt if any, live stats, data and the extras, in that order |

## Left out

- Text handling is approximated.
  - JavaScript string length is modelled as the number of characters.
  - `toLowerCase` is restricted to ASCII letters.
  - There is no Unicode normalisation.
- The database is simplified.
  - The unique `(chatId, clientId)` index is checked once, on the result of the bulk-upsert statement, not row by row as Postgres does; a batch that moves a client id from one row to another can fail in Postgres and pass in the model.
  - The database clock equals the request's `now`.
  - Timestamps are milliseconds, not ISO text.
  - Query results are inputs whose order is a predicate.
  - `chat.data` is a `json` column, so the driver hands back an already-parsed value that `parseJson` returns unchanged. The model stores the JSON text and parses it when reading (Schema.ChatRow, Get.ChatData, List.EntryGoal). For the values create and the store write, both give the same result.
- MessageStore.StoreChatMessages: a resubmitted last user entry is not guaranteed to reuse its row, and storing the same transcript twice is not guaranteed to keep row ids. The source looks a client id up under the entry's own id when it has one (src/chat/message-store.ts:101), so a new id with a known client id clashes on the unique index (MessageStore.ResubmittedEntryClashes). It also mints a fresh id for a user entry with neither id nor client id on every call (src/chat/message-store.ts:117-119, MessageStore.IdlessUserEntryGetsFreshId). The model keeps the source's behaviour.
- Create.HandleChatCreate: an insert failure other than the primary-key clash is not modelled. Only a serialisation failure of the data is.
- Streaming, the model call and `convertToModelMessages` are outside the model. The model's messages and the agent's system prompts are inputs.
- Several texts are inputs rather than constants: the tables of goal and personality texts, and the about, manifesto and bill-of-rights texts. The manifesto source is not part of this model.
- The self-hosting getters are inputs. `JSON.stringify(_, null, 2)` is an abstract indent function.
- Concurrency is left out.
  - `Promise.all` is modelled as sequential.
  - The fire-and-forget usage write at src/api/chat/route.ts:147 is not modelled.
  - Retry randomness, `sleep` and `setInterval` timers become an injected pause function and a fixed schedule.
  - Lock contenders are not modelled beyond the keyspace they leave.
  - The connection cache is modelled for sequential calls.
- Some inputs are simplified.
  - A lock option explicitly passed as `undefined` is not modelled.
  - Non-integer ttls are only modelled in the result cache.
  - The SCAN glob is treated as a literal prefix.
  - `fid > 0` is false for non-numbers.
  - A `linked_accounts` value that is not a string counts as no accounts.
  - Zod validation is reduced to presence and non-empty checks.
  - The list limit's `Number()` conversion is an input, and fractional limits are not modelled.
  - Prototype keys in the goal lookup are not modelled.
  - `Object.fromEntries` on data with duplicate keys is not collapsed.
- Logging and debug output are left out.
- Route.HandleChatPost: a ledger failure is stated only as an error, its message not pinned, and the store is not rewritten.
- Create.HandleChatCreate: the chat-grant secret (`CHAT_GRANT_SECRET`, src/config/env.ts:23 and 59-61) is a given string, so the throw of `signChatGrant` when it is missing or empty is not modelled. In the source that throw comes after the chat row is inserted (src/api/chat/create.ts:24-38).
- Get.HandleChatGet: the same throw when minting the grant (src/api/chat/get.ts:61) is not modelled.
- Route.Authorize: the same throw when minting a fresh grant (src/api/chat/route.ts:71) is not modelled. Verification catches that throw and answers null (src/chat/grant.ts:47-48).
