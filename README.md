# ai-saas: the chat cache layer, the auth state machines and the client slices

This Dafny project models the core of ai-saas. ai-saas is a Next.js application: investors send prompts or PDFs and get a generated answer. The answer is stored as a chat of messages. The model covers four parts:

- **The chat and history cache-consistency layer.** This is the server side over two keyed stores. The document store holds the collections Investor, Chat, Message, Prompt, GenAiResponse and History. The Redis cache holds the active-chat mirror `chat:{id}:active`, the history mirror `history:{id}` and the auth keys. The layer includes:
  - chat resolution and message attachment (`resolveChat`, `attachMessageToChat`) and the history ledger (`updateUserHistory`)
  - the get, update-title, new-chat and delete controllers
  - message hydration, and the prompt orchestrator that sequences all of these
- **The auth controllers.**
  - OTP verification and regeneration
  - the single-use password-reset token; the profile and password update
  - the fixed-window rate limiter and the four-rule cool-down cascade of the reset-code route
  - the `asynchandler` wrapper that maps results and errors to HTTP answers
- **The defensive cache parsers** `safeJsonParse` and `safeParseRedisChat`.
- **The client's Redux slices** for authentication, chats, history and prompts. This covers their thunks up to the network.

How the model represents the system:

- **Stores.** The document store is the class `Store.Db`: one map per collection, keyed by canonical (lower-case) object id. The cache is the class `Store.Cache`. It has three maps: JSON texts, raw strings (OTP codes, reset tokens) and counters. Each entry carries its TTL, with -1 for none. Controllers and services are methods whose `modifies` clauses name these objects. Their postconditions give the new maps as functions of the old ones.
- **Cached texts.** A cached JSON text is represented by what `JSON.parse` makes of it. It is either `Json(v)` or `Garbage(s)`, a text the parser rejects. JSON values are the datatype `Json.Js`.
- **Ids.** An id is valid when it is 24 hex digits. A query value that is not a valid id throws the driver's cast error.
- **Outside inputs.** Whatever the program gets from outside is a parameter: the ids the store gives new records, the clock, the generator's answer, the PDF parser's text and the chat save failure in attach.
- **Outcomes.** A controller's answer is an `ApiResponse` or a thrown error (`Api.Outcome`). `AsyncHandler.Handle` turns it into the HTTP answer.
- **Slices.** Each slice state is a class. Its reducers are methods, and a reducer that throws leaves the state unchanged. `None` stands for both `null` and `undefined`.

## Model

| member | source | states |
|---|---|---|
| Store.Db.FindInvestorByEmail | controllers/auth/verify-otp.controller.ts:27 | an investor found holds the email, and none is found exactly when no investor holds it (see also controllers/auth/regenerate-otp.controller.ts:16) |
| Store.Cache.SetJson | controllers/chat/newChat.controller.ts:52-63 | the key holds the value with no expiry, and nothing else in the cache changes |
| Store.Cache.SetStringEx | controllers/auth/regenerate-otp.controller.ts:27 | the key holds the code with the given lifetime, and nothing else in the cache changes |
| Store.Cache.Incr | middlewares/rate-limiter.ts:22 | the count is one more than before, counting a missing key from 0; an existing key keeps its expiry and a new one has none |
| Records.SetThenExpire | controllers/chat/newChat.controller.ts:52-64 | writing a value and then giving it a positive lifetime stores exactly that value with that lifetime |
| Records.ExpireIn | middlewares/rate-limiter.ts:26 | `EXPIRE` leaves a map without the key as it is; a non-positive time deletes the key; a positive one keeps the key's value with that lifetime; every other key keeps its entry |
| Store.Cache.GetJson | lib/services/chat.service.ts:52 | a value is returned exactly when the key is present, and it is the stored one |
| Store.Cache.TtlJson | controllers/chat/updateChat.controller..ts:92 | -2 for a missing key, otherwise the key's stored lifetime, -1 meaning none |
| Store.Cache.ExpireJson | lib/services/chat.service.ts:95 | the JSON entries become those `EXPIRE` leaves; strings and counters are unchanged |
| Store.Cache.DelJson | lib/services/chat.service.ts:69 | the key is removed from the JSON entries and nothing else in the cache changes |
| Store.Cache.GetString | controllers/auth/reset-password.controller.ts:19 | a string is returned exactly when the key is present, and it is the stored one |
| Store.Cache.DelString | controllers/auth/reset-password.controller.ts:41 | the key is removed from the strings and nothing else in the cache changes |
| Store.Cache.ExpireCounter | middlewares/rate-limiter.ts:26 | the counters become those `EXPIRE` leaves; the JSON entries and strings are unchanged |
| Store.Cache.TtlCounter | middlewares/rate-limiter.ts:34 | -2 for a missing counter, otherwise its stored lifetime, -1 meaning none |
| Json.Trim | controllers/auth/verify-otp.controller.ts:19 | the result is empty exactly when the text is all white space, and otherwise neither starts nor ends with white space |
| Json.JsString | controllers/auth/verify-otp.controller.ts:19 | `String(v)`: a string is its own text, a number's text starts with "-" exactly when the number is negative, and an empty array's text is empty |
| Json.TypeOf | controllers/auth/reset-password.controller.ts:31 | `typeof v` is "string" exactly for strings and "object" exactly for `null`, arrays and objects |
| Json.ToStringCall | controllers/auth/userUpdate.controller.ts:23 | `v?.toString()` is missing exactly for `null`, and a string converts to itself |
| Json.ToStrings | controllers/chat/newChat.controller.ts:61 | mapping `toString` fails exactly when some element is `null`; otherwise each element becomes its text, one for one and in order |
| Api.JsonBody | controllers/auth/verify-otp.controller.ts:14 | a body that is not JSON throws a `SyntaxError` and a `null` body the `TypeError` of destructuring it, neither a validation nor a duplicate error; any other body is read as it is |
| Api.IllegalArguments | models/inevstor.model.ts:46-48 | bcrypt's rejection of a non-string plain text is a plain `Error` without a code, whose message names the argument's type and "string" |
| Utils.SafeJsonParse | lib/utils.ts:10-27 | falsy input gives null; a string gives what it parses to, or null when the parse fails; an object is returned as it is; anything else gives null |
| Utils.SafeJsonParseRoundTrip | lib/utils.ts:13-19 | the text `JSON.stringify(v)` writes parses back to `v`; a text the parser rejects gives null |
| Utils.SafeParseRedisChat | lib/utils.ts:31-50 | returns the parsed object exactly when the text is not blank, parses, and is an object with a truthy `chatId` and an array `messages`; otherwise nothing |
| Utils.MirrorRoundTrip | lib/utils.ts:31-50 | every mirror shape the application writes is read back unchanged |
| Utils.SafeParseRedisChatRefines | lib/utils.ts:10-50 | whatever `safeParseRedisChat` accepts, `safeJsonParse` returns as well: the former only adds the shape check |
| Ids.StripNonHex | lib/services/chat.service.ts:21 | the result holds exactly the hex digits of the input |
| Ids.StripNonHexAppend | lib/services/chat.service.ts:21 | stripping distributes over concatenation, so the hex digits keep their order |
| Ids.StripNonHexKeepsHex | lib/services/chat.service.ts:21 | a string of hex digits is its own sanitised form |
| Ids.StripNonHexIdempotent | lib/services/chat.service.ts:21 | sanitising twice is sanitising once |
| Ids.StripNonHexDropsAll | lib/services/chat.service.ts:21 | a string with no hex digit sanitises to the empty string |
| Ids.Cast | lib/services/chat.service.ts:37-39 | a query value becomes an id exactly when it is a string of 24 hex digits, and then its lower-case spelling |
| Ids.Canon | lib/services/chat.service.ts:87 | the printed id is the lower-case spelling of a valid id, and is itself valid |
| ChatService.ActiveKeySanitised | lib/services/chat.service.ts:21-22 | the active key depends only on the hex digits of the investor id: sanitising first, or inserting non-hex junk, gives the same key |
| ChatService.NewMirror | lib/services/chat.service.ts:86-92 | the mirror of a new chat has the mirror shape, empty `messages`, and a `chatId` that casts back to the new chat's id |
| ChatService.DocMirror | lib/services/chat.service.ts:101-110 | the mirror built from a stored chat has the mirror shape, the chat's message ids as strings, and a `chatId` that casts back to the chat's id |
| ChatService.BareMirror | lib/services/chat.service.ts:161-167 | the reduced mirror attach builds has the mirror shape, the chat's message ids as strings, and the chat's id |
| ChatService.MirrorChatId | lib/services/chat.service.ts:57-61 | a chat id is taken from the cache only when the cached value is an object whose `chatId` is a valid id, and it is canonical |
| ChatService.FindActive | lib/services/chat.service.ts:37-76 | a valid caller id of a stored chat is returned with no cache read; otherwise the chat the mirror names is returned with the cached mirror; a mirror naming a missing chat is deleted; only the JSON cache changes |
| ChatService.CreateActive | lib/services/chat.service.ts:79-98 | a chat titled "New Chat" with no messages is stored under the fresh id and its mirror is written with a lifetime of 86400 seconds; an investor id that does not sanitise to a valid id throws and stores nothing |
| ChatService.ResolveChat | lib/services/chat.service.ts:20-138 | the four paths in order: caller's chat by id with no owner check and nothing written; the mirror's chat with the cached mirror; a stale mirror deleted and a chat created; no mirror and a chat created; the store changes only by the created chat |
| ChatService.ResolvedMirrorNamesChat | lib/services/chat.service.ts:86-110 | on every path the returned mirror's `chatId` casts to the id of the returned chat |
| ChatService.CreatedMirrorIsFound | lib/services/chat.service.ts:57-95 | the mirror written for a created chat is the one the next resolution finds, naming the same chat |
| ChatService.Window | lib/services/chat.service.ts:190-199 | the new window holds at most 50 ids, is the newest 50 of the old list with the id added once, and ends with the id when it was new |
| ChatService.NextMessages | lib/services/chat.service.ts:190-199 | a missing or falsy `messages` starts from an empty list, an array gets the window update, and the update throws for any other truthy value apart from a string |
| ChatService.UpdateMirror | lib/services/chat.service.ts:190-205 | the mirror with its window updated is written under the key with a lifetime of 86400 seconds and returned; a mirror whose update throws is returned unwritten |
| ChatService.AttachMessageToChat | lib/services/chat.service.ts:143-212 | the message id is pushed onto the stored chat at most once; a failed save returns the mirror with no cache write and no error; otherwise the window is updated and written; a chat that must be re-fetched but is gone changes nothing |
| ChatService.WindowKeepsId | lib/services/chat.service.ts:191-199 | when the id is new, or already among the newest fifty, it is in the window after attach |
| ChatService.WindowIdempotent | lib/services/chat.service.ts:191-199 | when the id is new, or already among the newest fifty, attaching it a second time leaves the window as the first attach left it |
| ChatService.AttachAllFrom | lib/services/chat.service.ts:191-199 | every entry of the window after a run of attaches came from the starting list or from an attached id |
| ChatService.WindowFresh | lib/services/chat.service.ts:191-199 | attaching an id the window does not hold appends it and keeps the newest 50 |
| ChatService.AttachAllNotIn | lib/services/chat.service.ts:191-199 | an id neither in the starting list nor attached is never in the window |
| ChatService.AttachAllFresh | lib/services/chat.service.ts:191-199 | attaching distinct new ids one after another gives the newest 50 of the old list followed by those ids, in insertion order |
| ChatService.SixtyAttaches | lib/services/chat.service.ts:196-199 | sixty distinct ids attached to an empty mirror leave the last fifty, in order |
| ChatService.NewestSixty | lib/services/chat.service.ts:196-199 | the newest fifty of sixty ids are the last fifty |
| HistoryService.CachedHistory | lib/services/history.service.ts:22-28 | a cached ledger is used exactly when it parses to a value with a truthy `_id`; its `chats` are kept when they are an array and taken as empty otherwise |
| HistoryService.HistoryKey | lib/services/history.service.ts:14 | the ledger key is "history:" followed by the investor id |
| HistoryService.HistoryKeyInjective | lib/services/history.service.ts:14 | distinct investors have distinct ledger keys |
| HistoryService.CachedHistoryRoundTrip | lib/services/history.service.ts:97-98 | a ledger the service writes is read back as it was written (see also lines 22-28) |
| HistoryService.AddCapped | lib/services/history.service.ts:71-92 | afterwards the id is in the list; a present id changes nothing; a new id is appended last and the list is cut to its newest hundred; a duplicate-free list stays duplicate-free and a list within the cap stays within it |
| HistoryService.AddAllFrom | lib/services/history.service.ts:71-92 | an id neither in the starting ledger nor added is never in the ledger |
| HistoryService.AddAllFresh | lib/services/history.service.ts:84-92 | adding distinct new ids one after another keeps the newest hundred of the whole list in insertion order, so the oldest are evicted first |
| HistoryService.HundredFiftyChats | lib/services/history.service.ts:84-92 | a hundred and fifty distinct chats added to an empty ledger leave the newest hundred |
| HistoryService.NewestHundred | lib/services/history.service.ts:84-86 | the newest hundred of a hundred and fifty ids are the last hundred |
| HistoryService.AddToSetWhere | lib/services/history.service.ts:75-78 | the `$addToSet` update keeps the same Histories with the same ids |
| HistoryService.SetChatsWhere | lib/services/history.service.ts:87-90 | the `$set` update keeps the same Histories with the same ids |
| HistoryService.CanonAll | lib/services/history.service.ts:89 | each surviving entry becomes the id it spells, one for one |
| HistoryService.LoadHistory | lib/services/history.service.ts:22-68 | with no stored History a cached copy is deleted and a History is created holding the chat id when it is valid, else nothing; otherwise the cached ledger (or the stored one) is used; only that entry of the cache changes |
| HistoryService.AddError | lib/services/history.service.ts:71-90 | the only errors adding can throw are a failed id cast of the ledger id or of a surviving entry |
| HistoryService.LedgerAfterAdd | lib/services/history.service.ts:71-92 | the ledger keeps its id; it is unchanged unless a valid new chat id is added, and then it is the capped list with the id |
| HistoryService.AddToLedger | lib/services/history.service.ts:70-95 | the store gets the `$addToSet` and, after a cut, the `$set`; a failed cast throws; otherwise the capped ledger is returned |
| HistoryService.UpdateUserHistory | lib/services/history.service.ts:13-107 | a malformed investor id throws before anything changes; otherwise the History is loaded or created, the chat added once and capped, and the ledger written to the cache with a lifetime of 86400 seconds even when nothing was added; store errors are rethrown |
| Hydrate.Matched | lib/services/hydrateMessages.ts:13-15 | the selection holds each stored message the id list names exactly once, and nothing else |
| Hydrate.WithTimes | lib/services/hydrateMessages.ts:13-19 | each selected id is paired with its own stored creation time, one for one |
| Hydrate.SortedCons | lib/services/hydrateMessages.ts:19 | a list is sorted exactly when its head is no later than the rest and the rest is sorted |
| Hydrate.InsertPermutes | lib/services/hydrateMessages.ts:19 | insertion adds exactly the new entry to the multiset |
| Hydrate.InsertAtLeast | lib/services/hydrateMessages.ts:19 | inserting an entry no earlier than a bound keeps every entry at or above it |
| Hydrate.InsertSorted | lib/services/hydrateMessages.ts:19 | insertion keeps a sorted list sorted |
| Hydrate.SortByTimeCorrect | lib/services/hydrateMessages.ts:19 | the sort by `createdAt` ascending returns a sorted permutation of its input |
| Hydrate.JoinSound | lib/services/hydrateMessages.ts:21-41 | each joined entry is a stored message with its own prompt and AI response, and comes from the input |
| Hydrate.JoinAtLeast | lib/services/hydrateMessages.ts:21-41 | entries at or above a time bound are joined at or above it |
| Hydrate.JoinSorted | lib/services/hydrateMessages.ts:19-41 | joining a sorted list gives messages sorted by creation time |
| Hydrate.JoinComplete | lib/services/hydrateMessages.ts:30-41 | every input entry whose message has both records survives the inner unwinds |
| Hydrate.CanonIds | lib/services/hydrateMessages.ts:7-9 | every mirror entry is cast to the id it spells, one for one |
| Hydrate.SortedMatches | lib/services/hydrateMessages.ts:11-19 | the selection before the joins holds only stored messages |
| Hydrate.HydrateChat | lib/services/hydrateMessages.ts:5-48 | the call succeeds exactly when `messages` is an array of ids; every other mirror field passes through unchanged |
| Hydrate.SortedMatchesCorrect | lib/services/hydrateMessages.ts:11-19 | the sorted selection holds exactly the stored messages the mirror names, each with its own creation time, sorted by it |
| Hydrate.HydrateChatCorrect | lib/services/hydrateMessages.ts:5-48 | only messages the mirror names are returned, each with its own prompt and AI response, sorted by creation time whatever the order of the ids; every named message that has both records is there |
| DeleteChat.DeleteAllFlag | controllers/chat/deleteChat.controller.ts:25 | the flag holds exactly for the body value `true` or the string "true" |
| DeleteChat.CachedLedger | controllers/chat/deleteChat.controller.ts:31-45 | a cached ledger is used exactly when its text is not empty, parses, and has a truthy `_id` and an array `chats`, and it is then those two values |
| DeleteChat.CachedLedgerAgrees | controllers/chat/deleteChat.controller.ts:31-57 | a ledger this controller accepts from the cache is accepted unchanged by the history service too, and the ledger mirror it writes is accepted back |
| DeleteChat.LoadLedger | controllers/chat/deleteChat.controller.ts:31-59 | the cached ledger, else the stored one, which is then written to the cache for 86400 seconds; no History at all gives none; a header that is not an id makes the lookup throw |
| DeleteChat.AllTargets | controllers/chat/deleteChat.controller.ts:66 | delete-all succeeds in making targets exactly when every ledger entry is an id, one target per entry |
| DeleteChat.ActiveChatId | controllers/chat/deleteChat.controller.ts:86-97 | a fallback chat id is read only from a non-empty cached text that parses |
| DeleteChat.Last | controllers/chat/deleteChat.controller.ts:115 | the last remaining entry, and none exactly when none remain |
| DeleteChat.PlanFor | controllers/chat/deleteChat.controller.ts:61-117 | delete-all targets every ledger entry and names no new active chat; a single deletion needs a chat id the ledger holds and targets only it; no chat id from the body or the mirror stops with "No chatId provided and no active chat found" |
| DeleteChat.ChooseTargets | controllers/chat/deleteChat.controller.ts:61-117 | the plan of `PlanFor`, and the active key deleted by delete-all when it holds a non-empty text, or by a single deletion when it supplied the chat id |
| DeleteChat.MessageIdsOf | controllers/chat/deleteChat.controller.ts:120-133 | the collected ids are exactly the non-empty message entries of the targets the investor owns |
| DeleteChat.CollectMessageIds | controllers/chat/deleteChat.controller.ts:120-133 | the `forEach` loop collects exactly the ids `MessageIdsOf` names, in visiting order |
| DeleteChat.PromptRefs | controllers/chat/deleteChat.controller.ts:140-143 | exactly the non-empty prompt ids of the found messages |
| DeleteChat.AiRefs | controllers/chat/deleteChat.controller.ts:140-144 | exactly the non-empty AI response ids of the found messages |
| DeleteChat.OwnedTargets | controllers/chat/deleteChat.controller.ts:120-168 | exactly the targets the investor owns, which is what the chat deletion matches |
| DeleteChat.Cascade | controllers/chat/deleteChat.controller.ts:137-170 | the named prompts and AI responses, then the collected messages, then the owned target chats are deleted; Histories and investors are untouched |
| DeleteChat.RepairLedger | controllers/chat/deleteChat.controller.ts:172-189 | the stored ledger loses every target and is written to the cache for 86400 seconds; nothing else changes |
| DeleteChat.DeleteChat | controllers/chat/deleteChat.controller.ts:15-205 | the reply and the final store and cache are those of the whole controller as a function of the old state, header and body; investors and Histories other than the ledger are untouched |
| DeleteChat.DeleteChatSpec | controllers/chat/deleteChat.controller.ts:18-24 | a missing or blank header is answered 400 and a `null` body throws the destructuring `TypeError`, both before anything changes |
| DeleteChat.RunDelete | controllers/chat/deleteChat.controller.ts:21-205 | for a non-empty header, the reply and the new state follow steps 1 to 8 |
| DeleteChat.DeleteWithLedger | controllers/chat/deleteChat.controller.ts:61-205 | once the ledger is loaded, the reply and the new state follow steps 3 to 8 |
| DeleteChat.RemoveTargets | controllers/chat/deleteChat.controller.ts:119-205 | for a plan that removes targets, the reply and the new state follow the cascade, the ledger repair and the re-pointing |
| DeleteChat.KeysDiffer | controllers/chat/deleteChat.controller.ts:27-69 | the active key and the ledger key of one investor differ |
| DeleteChat.RemovalCleansLedger | controllers/chat/deleteChat.controller.ts:172-189 | after a removal the stored ledger holds none of the targets and keeps the rest in order, and the cache holds the same ledger for a day |
| DeleteChat.RemovalCascades | controllers/chat/deleteChat.controller.ts:119-170 | after a removal none of the investor's target chats is stored, nor their messages, nor the prompts and AI responses those messages name; every other chat is kept |
| DeleteChat.RemovalRepoints | controllers/chat/deleteChat.controller.ts:192-196 | a deletion that leaves a truthy last ledger entry makes it the active chat with no lifetime, whether or not the deleted chat was active (see also lines 114-115) |
| DeleteChat.DeleteAllClearsActive | controllers/chat/deleteChat.controller.ts:64-84 | a successful delete-all leaves no active mirror behind (see also line 192) |
| DeleteChat.StopKeepsStore | controllers/chat/deleteChat.controller.ts:108-109 | a deletion that stops before the cascade answers 200 and leaves the store as it was |
| DeleteChat.SingleNeedsLedgerEntry | controllers/chat/deleteChat.controller.ts:109 | a chat id not in the ledger (an object or array never is, as `includes` compares those by identity) stops with "ChatId not found in history" |
| DeleteChat.NoHistoryNoChange | controllers/chat/deleteChat.controller.ts:48-50 | with no History, cached or stored, the reply is 200 "No history found" and nothing changes |
| Requests.InvestorHeader | controllers/chat/getChat.controller.ts:11-12 | the header read is empty exactly when it is missing or blank, and is otherwise the trimmed header |
| Requests.TrimmedOrNone | controllers/chat/getChat.controller.ts:15 | a parameter is kept exactly when it is present and not blank, and then trimmed and non-empty |
| ChatQueries.ChatExists | controllers/chat/getChat.controller.ts:46-83 | the query throws a cast error exactly when the chat id or the investor id is not an id, and otherwise answers whether the investor owns that chat |
| ChatQueries.FindOwned | controllers/chat/getChat.controller.ts:88-89 | the query throws a cast error exactly when either id is malformed; a found chat is owned by the investor, and none is found only when the investor does not own it |
| ChatQueries.LatestChat | controllers/chat/getChat.controller.ts:55-56 | the loop over the stored chats returns a newest chat of the owner, and none exactly when the owner has no chat |
| ChatQueries.LatestUnique | controllers/chat/getChat.controller.ts:55 | two newest chats of one owner share a creation time, and a chat created later than every other becomes the only newest one |
| ChatQueries.RestoredMirror | controllers/chat/getChat.controller.ts:58-97 | the restored mirror has the mirror shape, the chat's id, title and message ids as strings, and the header's investor id as given |
| ChatQueries.LedgerMirror | controllers/chat/deleteChat.controller.ts:181-185 | the ledger mirror holds the History id and the chat ids as strings (see also lines 51-55) |
| GetChat.Served | controllers/chat/getChat.controller.ts:48-103 | a hydration that succeeds is answered 200 with the success flag set, and an error of the hydration is passed on |
| GetChat.Restore | controllers/chat/getChat.controller.ts:58-103 | the chat's mirror is written under the active key for 86400 seconds and the hydrated mirror is answered |
| GetChat.RestoreLatest | controllers/chat/getChat.controller.ts:54-70 | a header that is not an id throws; an investor with no chat gets 404 "No chat found"; otherwise a newest chat is restored as active |
| GetChat.RestoreRequested | controllers/chat/getChat.controller.ts:88-103 | the asked chat, if the investor owns it, is restored as active; otherwise 404 "Chat not found" and no write |
| GetChat.ServeActiveOrLatest | controllers/chat/getChat.controller.ts:44-71 | with no chat id, a mirror whose chat the investor owns is served and nothing is written; a stale mirror is deleted and the newest chat restored |
| GetChat.ServeRequested | controllers/chat/getChat.controller.ts:76-103 | a mirror naming exactly the asked string is served with no store check; otherwise a mirror whose chat is gone or not the investor's is deleted and the asked chat is looked up |
| GetChat.GetChat | controllers/chat/getChat.controller.ts:10-104 | a missing or blank header gives 400 "Missing investor id"; the mirror is accepted only as a non-blank text parsing to an object with `chatId` and an array `messages`; then the no-id and asked-id paths above; only the JSON cache changes |
| GetChat.RestoredThenServed | controllers/chat/getChat.controller.ts:76-103 | a restored chat is the mirror the next call finds: asking for it again is served from the mirror with no write |
| GetChat.RestoredHydrates | controllers/chat/getChat.controller.ts:63-69 | a restored stored chat hydrates without error and keeps every other mirror field |
| UpdateChat.MirrorTarget | controllers/chat/updateChat.controller..ts:15-36 | with no usable mirror the mirror's target is empty; an accepted mirror gives its chat id as a string |
| UpdateChat.BodyTarget | controllers/chat/updateChat.controller..ts:49 | a missing or `null` body id gives no target, and a string id is trimmed |
| UpdateChat.Target | controllers/chat/updateChat.controller..ts:49 | the body's non-blank chat id wins, and otherwise the mirror's chat id is used |
| UpdateChat.RefreshMirror | controllers/chat/updateChat.controller..ts:81-96 | only the active key can change, and only when its mirror's chat id reads as the target; the new mirror then has the new title and the target as id, keeps every other field, and keeps a positive lifetime |
| UpdateChat.RefreshRenamesOnly | controllers/chat/updateChat.controller..ts:81-96 | refreshing a mirror restored for the target chat gives exactly the mirror of the renamed chat, with the same messages and lifetime |
| UpdateChat.ResolveTarget | controllers/chat/updateChat.controller..ts:51-71 | a chosen target is kept with no write; with none, a header that is not an id throws, an investor with no chat gets 404 "No chat found to update", and otherwise a newest chat is the target and is restored as the active mirror for 86400 seconds |
| UpdateChat.RefreshActive | controllers/chat/updateChat.controller..ts:81-99 | the JSON cache becomes the refreshed cache, and nothing else in the cache changes |
| UpdateChat.ApplyTitle | controllers/chat/updateChat.controller..ts:51-101 | after the target is resolved, a target the investor does not own gives 404 "Chat not found" and no rename; an owned one is renamed, answered 200 and its mirror refreshed |
| UpdateChat.UpdateChat | controllers/chat/updateChat.controller..ts:8-102 | a missing header gives 400 "Missing investor id", a body that is not JSON 400 "Invalid JSON body", a `null` body a thrown TypeError, a missing or non-string title 400 "Title is required", each with nothing changed; otherwise the target is resolved and renamed as above, and only the chats and the JSON cache change |
| NewChat.PushUpsert | controllers/chat/newChat.controller.ts:36-40 | an existing ledger of the owner gets the chat id appended and keeps its id; a missing one is created holding only the chat; no other ledger changes |
| NewChat.PushUpsertUnchecked | controllers/chat/newChat.controller.ts:38 | the push always grows the ledger by one, so a chat id already in the ledger ends up in it twice |
| NewChat.WriteMirrors | controllers/chat/newChat.controller.ts:22-64 | the JSON cache is the old one with the active mirror and then the ledger mirror written for one day each, and nothing else in the cache changes |
| NewChat.StartChat | controllers/chat/newChat.controller.ts:16-66 | the chat is created with the default title and no messages, pushed onto the owner's ledger, both mirrors of the result are written, and the answer is 200 with the chat and the ledger |
| NewChat.CreateNewChat | controllers/chat/newChat.controller.ts:10-67 | a missing header gives 400 "Missing investor id" and a header that is not an id 400 "Invalid investor id", both with nothing changed; otherwise the effects of StartChat |
| NewChat.LedgerMirrorTrusted | controllers/chat/newChat.controller.ts:58-64 | the ledger mirror the controller writes is read back by the history service as the stored ledger |
| NewChat.NewMirrorFound | controllers/chat/newChat.controller.ts:45-53 | the active mirror the controller writes is found by the next resolution of the active chat, with the new chat's id |
| HandlePrompt.Extracted | lib/services/pdf.service.ts:1-17 | the extracted text is the parser's text trimmed, and empty when the parser finds nothing or fails |
| HandlePrompt.PromptText | controllers/prompt/handlePrompt.controller.ts:26-34 | a non-blank prompt string gives its trimmed text, whatever the PDF holds; otherwise a non-blank PDF string gives its extracted text, or 400 "Cannot extract text from PDF" when that is empty; with neither, 400 "Either prompt or pdfBase64 is required" |
| HandlePrompt.Inputs | controllers/prompt/handlePrompt.controller.ts:18-34 | a missing or blank header gives 400 "Missing investor id", a falsy body 400 "Request body is required"; accepted inputs are the trimmed header and the prompt text of that body |
| HandlePrompt.AiResult | lib/services/ai.service.ts:14-27 | a value that is not a string is used as it is, a text that parses gives its value, and one that does not parse gives the fallback object, whose text is truthy |
| HandlePrompt.AiRecord | lib/services/ai.service.ts:29-36 | an answer is stored exactly when its `text` is truthy, and otherwise 500 "AI response empty" is thrown; a stored answer keeps every field of the result and belongs to the investor |
| HandlePrompt.ChatIdToUse | controllers/prompt/handlePrompt.controller.ts:49 | a body chat id that is present and not `null` is used as it is, even when it is not the resolved chat; otherwise the resolved chat's id |
| HandlePrompt.MessageRecord | lib/services/message.service.ts:4-14 | a falsy chat id makes the message fail validation, one that is not an id throws a cast error, and any other one is stored cast with the investor, prompt and answer |
| HandlePrompt.ErrorReply | controllers/prompt/handlePrompt.controller.ts:85-91 | every failure is answered without data, with the status of an `ApiError` or 500 otherwise, and with the error's message or a non-empty default |
| HandlePrompt.SaveInputs | controllers/prompt/handlePrompt.controller.ts:36-40 | an investor id that is not an id throws before anything is stored; otherwise the prompt is stored, and the answer is stored exactly when it has a text |
| HandlePrompt.CreateForChat | controllers/prompt/handlePrompt.controller.ts:42-57 | after the chat is resolved, the message created is the record of the chat id to use, and a failure adds no message |
| HandlePrompt.AttachStep | controllers/prompt/handlePrompt.controller.ts:59-60 | attaching the message changes only the chats and the JSON cache |
| HandlePrompt.HistoryStep | controllers/prompt/handlePrompt.controller.ts:62-68 | the ledger returned holds the resolved chat, only cast errors escape, and only the ledgers and the JSON cache change |
| HandlePrompt.AttachAndRecord | controllers/prompt/handlePrompt.controller.ts:59-68 | after attaching and recording, the ledger returned holds the resolved chat and no message, prompt or answer changes |
| HandlePrompt.Converse | controllers/prompt/handlePrompt.controller.ts:42-84 | a 200 answer carries the given prompt and answer, the created message for the chat id to use, and a ledger holding the chat; any other answer has no data |
| HandlePrompt.ProcessPrompt | controllers/prompt/handlePrompt.controller.ts:36-84 | an id that is not an id is answered with the cast error and changes nothing; otherwise the prompt is stored whatever follows, an empty answer stops with nothing else changed, and a 200 answer carries the created records |
| HandlePrompt.HandleUserPrompt | controllers/prompt/handlePrompt.controller.ts:15-93 | it always answers and nothing it throws escapes; a rejected request is answered with its error and changes nothing; an accepted one is processed as above, and investors are never changed |
| HandlePrompt.LedgerAfterAddHas | lib/services/history.service.ts:75-78 | the ledger after an add holds the given chat, whether it was added or already there |
| HandlePrompt.MessageChatMayDiffer | controllers/prompt/handlePrompt.controller.ts:43-57 | a body chat id naming a chat other than the resolved one still becomes the message's chat |
| HandlePrompt.PromptTextTrimmed | controllers/prompt/handlePrompt.controller.ts:26-34 | an accepted prompt text is non-empty, with no white space at either end |
| HandlePrompt.PromptBeatsPdf | controllers/prompt/handlePrompt.controller.ts:27-28 | when the prompt string is not blank, the trimmed prompt is used whatever the PDF holds |
| RateLimiter.CounterKey | middlewares/rate-limiter.ts:17-19 | the counter key ends with the caller's key and, with no prefix given, starts with "rl:" |
| RateLimiter.CounterKeyInjective | middlewares/rate-limiter.ts:19 | under one prefix, different keys count in different counters |
| RateLimiter.Bump | middlewares/rate-limiter.ts:22-27 | the call raises its own counter by one and leaves every other counter alone; a counter just created gets the window's lifetime, and an existing one keeps its lifetime |
| RateLimiter.Decide | middlewares/rate-limiter.ts:29-35 | the call is allowed exactly when the count is within the limit; the remaining count is never negative and is the limit minus the count otherwise |
| RateLimiter.Check | middlewares/rate-limiter.ts:16-36 | only the counters change, by one call on the prefixed key, and the verdict is the decision for the new count with the counter's lifetime after the call |
| RateLimiter.CallsCount | middlewares/rate-limiter.ts:22-27 | from no counter, `n` calls leave the count at `n`, with the lifetime the first call gave it |
| RateLimiter.WindowAdmitsLimit | middlewares/rate-limiter.ts:22-35 | within one window, the `n`-th call is allowed exactly when `n` is at most the limit, and the remaining count falls by one per call down to 0 |
| ResetOtpRoute.FirstField | app/api/auth/reset-otp/route.ts:15 | the first field is the longest prefix with no comma, ending at the first comma or at the end |
| ResetOtpRoute.ClientIp | app/api/auth/reset-otp/route.ts:14-15 | a missing or empty forwarding header gives "anonymous", and otherwise its first field |
| ResetOtpRoute.RuleKeysDiffer | app/api/auth/reset-otp/route.ts:26 | rules with different prefixes count in different counters for one address |
| ResetOtpRoute.Shift | app/api/auth/reset-otp/route.ts:25-41 | shifting keeps a pass a pass, and moves a refusal's rule index up with the same wait |
| ResetOtpRoute.TailFacts | app/api/auth/reset-otp/route.ts:18-23 | the rules after the first are well formed and count under keys other than the first rule's |
| ResetOtpRoute.CascadeKeepsOthers | app/api/auth/reset-otp/route.ts:25-41 | a counter that no rule uses is left alone by the loop |
| ResetOtpRoute.CascadeRefusesListed | app/api/auth/reset-otp/route.ts:25-41 | a refusal by the loop names one of the rules of the list |
| ResetOtpRoute.CascadeDecides | app/api/auth/reset-otp/route.ts:25-41 | judged on the counters the loop starts from, every rule before the refusing one admits the call and the refusing one does not; a pass means every rule admits it |
| ResetOtpRoute.CascadeWait | app/api/auth/reset-otp/route.ts:26-35 | the wait reported is the remaining lifetime of the refusing rule's counter |
| ResetOtpRoute.CascadeCounts | app/api/auth/reset-otp/route.ts:25-41 | the counters of the rules consulted go up by one, and those of the rules after a refusal are untouched |
| ResetOtpRoute.CascadeInOrder | app/api/auth/reset-otp/route.ts:25-41 | the loop's whole effect: the rules consulted admit the call up to the refusing one, whose counter's lifetime is the wait; consulted counters go up by one; every other counter is untouched |
| ResetOtpRoute.RouteRulesWellFormed | app/api/auth/reset-otp/route.ts:18-23 | the route's four rules have distinct prefixes and positive lifetimes |
| ResetOtpRoute.CoolDown | app/api/auth/reset-otp/route.ts:25-41 | the loop over the cache gives the cascade's decision and leaves the cascade's counters, and nothing else in the cache changes |
| ResetOtpRoute.CoolDownReply | app/api/auth/reset-otp/route.ts:31-39 | a refusal is answered 429 without success, carrying the wait |
| ResetOtpRoute.Handler | app/api/auth/reset-otp/route.ts:9-43 | a 200 answer comes from a JSON body with a truthy email and stores the code under that email's reset key; any other answer is a failure that stores nothing; a body that is not JSON, or is `null`, is answered 500 and a missing email 400 (see also controllers/auth/regenerate-otp.controller.ts:12-15) |
| ResetOtpRoute.Post | app/api/auth/reset-otp/route.ts:11-51 | the counters become the cascade's; a refusal answers 429 with the wait and stores no code; a pass runs the wrapped controller as above, so an unreadable body is answered 500 and a missing email 400 |
| ResetOtpRoute.RetryWaits | app/api/auth/reset-otp/route.ts:18-41 | a first request from a new address passes every rule, and a second one right after it is refused by the one-second rule with a wait of one second |
| RegenerateOtp.ResetOtp | controllers/auth/regenerate-otp.controller.ts:9-45 | a body that is not JSON throws the `SyntaxError` and a `null` body the `TypeError` of destructuring it; a missing email gives 400, an unknown one 404, one whose investors are all verified 403, each storing nothing; success stores the code under `reset_otp:{email}` for 300 seconds and answers 200 with the email; with unique emails an unverified holder always succeeds |
| RegenerateOtp.RegenerateThenVerify | controllers/auth/regenerate-otp.controller.ts:27 | right after a code is stored for a registered email, verifying that code succeeds whatever sign-up code is still stored (see also controllers/auth/verify-otp.controller.ts:35-40) |
| VerifyOtp.OtpKeysDiffer | controllers/auth/verify-otp.controller.ts:22-23 | the sign-up and reset keys of one email are different keys |
| VerifyOtp.SignupKey | controllers/auth/verify-otp.controller.ts:22 | the key is "signup_otp:" followed by the email's text |
| VerifyOtp.ResetKey | controllers/auth/verify-otp.controller.ts:23 | the key is "reset_otp:" followed by the email's text |
| VerifyOtp.OtpKeysInjective | controllers/auth/verify-otp.controller.ts:22-23 | two emails share a sign-up key, and share a reset key, exactly when their texts are equal |
| VerifyOtp.StoredOtp | controllers/auth/verify-otp.controller.ts:35 | a non-empty reset code is preferred, then a non-empty sign-up code, and there is none exactly when neither is non-empty |
| VerifyOtp.OtpError | controllers/auth/verify-otp.controller.ts:15-40 | a missing email or code gives 400, an unknown investor 404, no stored code 400 "OTP expired or invalid"; there is no error exactly when the trimmed codes agree |
| VerifyOtp.Confirm | controllers/auth/verify-otp.controller.ts:43-47 | both codes of the email are deleted and the investor is marked verified, with nothing else changed |
| VerifyOtp.VerifyOtp | controllers/auth/verify-otp.controller.ts:9-54 | a body that is not JSON, or is `null`, throws the parse or destructuring error and changes nothing; every other failure is the error of the checks and changes nothing; a match answers 200, deletes both codes and marks an investor holding the email verified |
| VerifyOtp.OtpSingleUse | controllers/auth/verify-otp.controller.ts:43-45 | once both codes are deleted, the next attempt with that email finds no code and fails with "OTP expired or invalid" |
| VerifyOtp.ResetCodePreferred | controllers/auth/verify-otp.controller.ts:35 | a fresh non-empty reset code is the stored code, whatever sign-up code remains |
| ResetPassword.ResetTarget | controllers/auth/reset-password.controller.ts:14-34 | a missing token or password gives 400, a token with no stored id 400 "Invalid or expired token", a stored id that is not an id a cast error, an unknown investor 404, a new password that is not a string bcrypt's "Illegal arguments" rejection, an unchanged password 400; the target is the stored investor, and the new password is a string different from its own (see also models/inevstor.model.ts:46-48) |
| ResetPassword.TokenKey | controllers/auth/reset-password.controller.ts:19 | the key is "pwd-reset:" followed by the token's text (see also line 41) |
| ResetPassword.TokenKeyInjective | controllers/auth/reset-password.controller.ts:19 | two tokens name the same cache entry exactly when their texts are equal |
| ResetPassword.ResetPassword | controllers/auth/reset-password.controller.ts:9-44 | a body that is not JSON, or is `null`, throws the parse or destructuring error and changes nothing; every other failure, including a non-string new password, is the error of the checks and changes nothing; success sets the target's password, deletes the token and answers 200 |
| ResetPassword.TokenSingleUse | controllers/auth/reset-password.controller.ts:19-41 | after a successful reset the same token is refused as invalid, whatever new password comes with it |
| ResetPassword.NonStringPasswordAnswered500 | controllers/auth/reset-password.controller.ts:31 | a truthy new password that is not a string passes the token and user checks, is rejected by bcrypt's compare, and is answered 500 (see also models/inevstor.model.ts:46-48) |
| ResetPassword.ResetChangesOnlyTarget | controllers/auth/reset-password.controller.ts:31-38 | a successful reset changes the target's password to the new one, and no other investor |
| AsyncHandler.FirstKey | lib/api/asyncHandler.ts:58 | the first key of the duplicate's key object, or "undefined" when it has none |
| AsyncHandler.MessagesOf | lib/api/asyncHandler.ts:67-69 | one message per validation entry, in order, and `null` for an entry without one |
| AsyncHandler.Catch | lib/api/asyncHandler.ts:45-84 | an `ApiError` keeps its status, message and errors; a duplicate key gives 409 naming the first key; a validation error 400 with its messages, and it escapes exactly when it has no errors object; anything else 500; every reply is marked as a failure |
| AsyncHandler.Handle | lib/api/asyncHandler.ts:21-85 | an `ApiResponse` is answered under its own status with its success flag, message and data; any other reply passes through as it is; a thrown error goes to the catch block |
| AsyncHandler.HandleAgreesWithStatusOf | lib/api/asyncHandler.ts:29-84 | apart from duplicate-key and validation errors, the wrapper always answers, with the status the model assigns to the outcome, and marks success exactly below 400 |
| AsyncHandler.ErrorOrder | lib/api/asyncHandler.ts:56-83 | the checks run in order, so a duplicate named "ValidationError" is answered 409, and an error other than an `ApiError` is only ever answered 409, 400 or 500 |
| Accounts.HolderUnique | models/inevstor.model.ts:12 | under the unique email index, two investors holding one email are the same investor |
| UserUpdate.Overwrite | controllers/auth/userUpdate.controller.ts:37-40 | a supplied non-empty name, email or phone replaces the stored one; the password, company name and verification are kept |
| UserUpdate.OverwriteIdempotent | controllers/auth/userUpdate.controller.ts:37-40 | overwriting twice with one form is overwriting once, and a form with no usable field changes nothing |
| UserUpdate.PasswordChange | controllers/auth/userUpdate.controller.ts:43-51 | no password fields keep the stored password; only one of them gives 400, equal ones 400, a wrong old password 400; a changed password is the new one, saved only when the old one matched |
| UserUpdate.Rethrow | controllers/auth/userUpdate.controller.ts:87-89 | every rethrown error is an `ApiError` with a non-zero status and a non-empty message; an `ApiError` with both keeps them, and any other error becomes a 500 |
| UserUpdate.RethrowIdempotent | controllers/auth/userUpdate.controller.ts:87-89 | rethrowing a rethrown error changes nothing |
| UserUpdate.DuplicateEmailAnswered500 | controllers/auth/userUpdate.controller.ts:79-89 | a duplicate email would be answered 409 by the wrapper, but once rethrown it is answered 500 |
| UserUpdate.Updated | controllers/auth/userUpdate.controller.ts:17-89 | a missing header gives 401; a body that is not form data is rethrown as a 500; a header that is not an id gives the rethrown cast error, an unknown investor 404; a saved record is the form's overwrite with the checked password, under the header's investor, and with an email no other investor holds |
| UserUpdate.Sanitized | controllers/auth/userUpdate.controller.ts:83-85 | the profile never holds the password, and holds the investor's id and verification |
| UserUpdate.UserKey | controllers/auth/userUpdate.controller.ts:82 | the profile key is "user:" followed by the header's id |
| UserUpdate.UserKeyInjective | controllers/auth/userUpdate.controller.ts:82 | distinct ids have distinct profile keys |
| UserUpdate.UpdateUser | controllers/auth/userUpdate.controller.ts:15-90 | a failure, including a body that is not form data (answered 500), changes nothing and is rethrown; success saves the record, caches the profile under `user:` and the header with no lifetime, and answers 200 with the profile |
| UserUpdate.WrongOldPasswordSavesNothing | controllers/auth/userUpdate.controller.ts:47-48 | a wrong old password rejects the whole update with 400 "Old password is incorrect", so no field is saved |
| AuthSlice.RequestUrl | store/slices/authSlice.ts:60 | the base URL is put in front of the endpoint exactly when the endpoint starts with "/api"; the endpoint always ends the URL |
| AuthSlice.RequestBody | store/slices/authSlice.ts:65 | a body is sent exactly when the data is truthy and the method is not GET, and it is that data |
| AuthSlice.BuildRequest | store/slices/authSlice.ts:54-67 | the request has the URL and body above with the caller's method and credentials flag |
| AuthSlice.GetHasNoBody | store/slices/authSlice.ts:65 | a GET request never carries a body, whatever data is passed |
| AuthSlice.AbsoluteUrlKept | store/slices/authSlice.ts:60 | an endpoint that does not start with "/" is requested as it is |
| AuthSlice.ApiUrlsApart | store/slices/authSlice.ts:60 | two different "/api" endpoints are sent to two different URLs, whatever the base |
| AuthSlice.UnsetBaseMeetsRelative | store/slices/authSlice.ts:60 | with the base URL unset, every "/api" endpoint `e` is sent to the same URL as the endpoint "undefined" followed by `e` |
| AuthSlice.PostSendsData | store/slices/authSlice.ts:65 | the truthy argument of a POST thunk is sent as the body unchanged |
| AuthSlice.ApiRequest | store/slices/authSlice.ts:69-79 | an ok reply resolves with the whole result; a failed reply whose result is `null` throws the fault of reading `message`; any other failed one throws the result's message, or, when that is falsy, a message naming the endpoint and the status; a network failure throws its own message |
| AuthSlice.Unwrap | store/slices/authSlice.ts:102-133 | a resolved result fulfils with its `data`; a thrown message rejects with it, and an empty one with the thunk's fallback |
| AuthSlice.FailedReplyNamesEndpoint | store/slices/authSlice.ts:75-106 | a failed reply whose result is not `null` and has no message rejects with the endpoint and status text, never with the thunk's fallback |
| AuthSlice.FailedNullReply | store/slices/authSlice.ts:75 | a failed reply whose result is `null` rejects with the fault of reading `message`, whatever the endpoint, status and fallback |
| AuthSlice.AuthState.constructor | store/slices/authSlice.ts:33-38 | no user, not loading, no error, not verified |
| AuthSlice.AuthState.Pending | store/slices/authSlice.ts:227-230 | loading, with the error cleared, and the user and flag kept |
| AuthSlice.AuthState.Rejected | store/slices/authSlice.ts:232-238 | no longer loading, the error is the rejection's payload, and the user and flag are kept |
| AuthSlice.AuthState.Logout | store/slices/authSlice.ts:245-250 | the user, the flag and the error are cleared, and loading is kept |
| AuthSlice.AuthState.SessionFulfilled | store/slices/authSlice.ts:264-282 | a missing or `null` user leaves the whole state unchanged; otherwise it becomes the user, loading ends and the flag is the user's `verified` flag |
| AuthSlice.AuthState.ProfileFulfilled | store/slices/authSlice.ts:259-288 | the payload becomes the user and loading ends; the flag and the error are kept |
| AuthSlice.AuthState.VerifyOtpFulfilled | store/slices/authSlice.ts:298-303 | the payload becomes the user, which counts as verified from then on |
| AuthSlice.AuthState.MessageFulfilled | store/slices/authSlice.ts:305-318 | only loading changes, and it ends |
| ChatSlice.ChatIdOf | store/slices/chatSlice.ts:96-101 | a truthy `chatId` is the chat's id, and otherwise its `_id` |
| ChatSlice.Normalise | store/slices/chatSlice.ts:94-102 | normalising fails exactly on `null`; the result's `chatId` is the chat id above and every other field is the chat's own |
| ChatSlice.NormaliseIdempotent | store/slices/chatSlice.ts:94-102 | normalising a normalised chat changes nothing |
| ChatSlice.NormaliseAll | store/slices/chatSlice.ts:93-97 | the list fails exactly when one item is `null`; otherwise it has one normalised chat per item, in order |
| ChatSlice.Fetched | store/slices/chatSlice.ts:93-103 | an array has each chat normalised, a missing or `null` data fails, and any other value becomes a one-chat list |
| ChatSlice.FetchedAreNormal | store/slices/chatSlice.ts:93-103 | every fetched chat is in normal form |
| ChatSlice.FetchChat | store/slices/chatSlice.ts:86-108 | a resolved result whose data normalises fulfils with the chats; a thrown message rejects with it, or with "Failed to fetch chats" when empty; a rejection always has a non-empty message |
| ChatSlice.FetchChatUrl | store/slices/chatSlice.ts:87-89 | a missing or empty chat id requests "/api/chat", and any other one is passed as the `chatId` query parameter |
| ChatSlice.FetchChatRequest | store/slices/chatSlice.ts:87-90 | the chats are fetched by a GET under the base URL, with no body and no cookies |
| ChatSlice.WithField | store/slices/chatSlice.ts:118-132 | the field is present exactly when its value is defined; every other field is kept |
| ChatSlice.DeleteChatRequest | store/slices/chatSlice.ts:118 | the delete is a DELETE under "/api/chat/delete", without cookies, of the defined fields among `chatId` and `deleteAll` |
| ChatSlice.UpdateTitleRequest | store/slices/chatSlice.ts:132 | the rename is a PATCH under "/api/chat/update", without cookies, of the title and the chat id as given |
| ChatSlice.CreateChatRequest | store/slices/chatSlice.ts:149-152 | the create is a POST with no body and no cookies, to the imported base followed by "/chat/create", with no second base in front |
| ChatSlice.CreateChatPathRelative | store/slices/chatSlice.ts:152 | with the base binding undefined, the chat is created at "undefined/chat/create", a path outside "/api" (see also line 4; store/slices/authSlice.ts:5) |
| ChatSlice.SavedChat | store/slices/chatSlice.ts:117-137 | a truthy returned chat is saved normalised, with its normalised id; a missing or `null` one fails with a read fault; a thrown message rejects with it, or with the thunk's fallback when empty |
| ChatSlice.CreatedChat | store/slices/chatSlice.ts:148-162 | a truthy returned `data.chat` is saved normalised; a thrown message rejects with it, or with "Failed to create chat" when empty; a rejection always has a message |
| ChatSlice.SavedChatIsNormal | store/slices/chatSlice.ts:120-134 | a saved chat is in normal form |
| ChatSlice.LastOf | store/slices/chatSlice.ts:205-206 | a non-empty array gives its last element; reading fails exactly for a boolean, number or object, which have no `at` |
| ChatSlice.PreviewOf | store/slices/chatSlice.ts:205-207 | no chats give no preview; a shown preview is truthy; reading fails exactly when the last chat's messages cannot be read at their end |
| ChatSlice.PreviewShowsLastComponent | store/slices/chatSlice.ts:205-207 | a truthy component of the last message of the last chat is the preview |
| ChatSlice.RemoveChat | store/slices/chatSlice.ts:212 | the kept chats are exactly the chats whose id differs from the deleted one, and the list never grows |
| ChatSlice.RemoveChatAppend | store/slices/chatSlice.ts:212 | deleting distributes over concatenation, so the kept chats keep their order |
| ChatSlice.RemoveChatIdempotent | store/slices/chatSlice.ts:212 | deleting twice is deleting once |
| ChatSlice.CreateThenDelete | store/slices/chatSlice.ts:212-224 | deleting a chat just created gives the list without that chat's id, as if it had never been created |
| ChatSlice.ReplaceChat | store/slices/chatSlice.ts:217-219 | the list keeps its length and ids; each chat with the payload's id becomes the payload and every other one is kept |
| ChatSlice.ReplaceChatIdempotent | store/slices/chatSlice.ts:217-219 | applying an update twice is applying it once |
| ChatSlice.ReplaceThenRemove | store/slices/chatSlice.ts:212-219 | for another id, updating then deleting is deleting then updating |
| ChatSlice.ChatState.constructor | store/slices/chatSlice.ts:73-78 | no chats, no preview, not loading, no error |
| ChatSlice.ChatState.Pending | store/slices/chatSlice.ts:168-171 | loading with the error cleared; the chats and preview are kept |
| ChatSlice.ChatState.Rejected | store/slices/chatSlice.ts:173-177 | no longer loading, and the error is the rejection's payload |
| ChatSlice.ChatState.ClearChats | store/slices/chatSlice.ts:184-187 | no chats and no preview |
| ChatSlice.ChatState.ClearPreview | store/slices/chatSlice.ts:188-190 | no preview, with the chats kept |
| ChatSlice.ChatState.FetchFulfilled | store/slices/chatSlice.ts:200-208 | when the preview cannot be read the state is unchanged; otherwise the fetched chats replace the list and the preview is recomputed |
| ChatSlice.ChatState.DeleteFulfilled | store/slices/chatSlice.ts:210-213 | the list becomes the kept chats after deleting the payload's id |
| ChatSlice.ChatState.UpdateFulfilled | store/slices/chatSlice.ts:215-220 | the list becomes the list with the payload's chat replaced |
| ChatSlice.ChatState.CreateFulfilled | store/slices/chatSlice.ts:222-225 | the new chat is appended to the end of the list |
| HistorySlice.FetchHistory | store/slices/historySlice.ts:37-51 | a history already fetched and present is returned without a request; otherwise the thunk settles on the reply to "/api/history", with "Failed to fetch history" as the fallback |
| HistorySlice.HistoryRequest | store/slices/historySlice.ts:46 | the history is fetched by a GET under the base URL, with no body and no cookies |
| HistorySlice.CachedIgnoresNetwork | store/slices/historySlice.ts:42-44 | a cached history gives the same action whatever the server would reply |
| HistorySlice.HistoryState.constructor | store/slices/historySlice.ts:22-27 | no history, not loading, no error, not fetched |
| HistorySlice.HistoryState.Pending | store/slices/historySlice.ts:56-59 | loading with the error cleared; the history and the fetched mark are kept |
| HistorySlice.HistoryState.Rejected | store/slices/historySlice.ts:61-65 | no longer loading, and the error is the rejection's payload |
| HistorySlice.HistoryState.ClearHistory | store/slices/historySlice.ts:71-74 | no history and not fetched, so the next fetch asks the server again |
| HistorySlice.HistoryState.Fulfilled | store/slices/historySlice.ts:80-87 | the payload is stored and marked fetched; it is then served from the state exactly when it is present |
| HistorySlice.FetchAfterFulfilled | store/slices/historySlice.ts:42-85 | after a present history is stored, the next fetch returns it whatever the server says; an absent one is fetched again |
| HistorySlice.ServedTwice | store/slices/historySlice.ts:42-85 | a present history that a fetch returned is returned unchanged by the fetch after it |
| PromptSlice.PromptRequest | store/slices/promptSlice.ts:129-134 | the prompt is sent as a POST of `{ prompt }` under the base URL, with cookies |
| PromptSlice.SendPrompt | store/slices/promptSlice.ts:124-141 | a blank prompt is refused with "Prompt cannot be empty." before any request; an ok reply fulfils with the whole response; a failure rejects with its message or "Failed to get AI response."; a rejection always has a non-empty message |
| PromptSlice.BlankPromptIgnoresNetwork | store/slices/promptSlice.ts:125-127 | a blank prompt gives the same action whatever the server would reply |
| PromptSlice.Nullish | store/slices/promptSlice.ts:182-183 | the value is absent exactly when it is missing or `null`, and is otherwise kept |
| PromptSlice.EmptyComponentKept | store/slices/promptSlice.ts:186 | an empty-string component is kept as the prompt preview but dropped by the chat preview (see also store/slices/chatSlice.ts:207) |
| PromptSlice.PromptState.constructor | store/slices/promptSlice.ts:104-114 | every field starts at its initial value |
| PromptSlice.PromptState.ClearPromptState | store/slices/promptSlice.ts:150-160 | every field is back at its initial value |
| PromptSlice.PromptState.Pending | store/slices/promptSlice.ts:164-168 | loading, with the error and the old preview cleared; the other fields are kept |
| PromptSlice.PromptState.Rejected | store/slices/promptSlice.ts:169-173 | no longer loading, and the error is the payload or "Unknown error occurred"; everything else is kept |
| PromptSlice.PromptState.Fulfilled | store/slices/promptSlice.ts:174-187 | with a missing or `null` data the state is unchanged; otherwise each field is the matching field of the data and the preview is the answer's component |
| Seqs.Without | controllers/chat/deleteChat.controller.ts:175-177 | an element is kept exactly when it is in the list and not being removed, and the list never grows (see also line 114) |
| Seqs.WithoutAppend | controllers/chat/deleteChat.controller.ts:175-177 | removal distributes over concatenation, so the kept elements keep their order |
| Seqs.WithoutNone | controllers/chat/deleteChat.controller.ts:175-177 | nothing is removed when no element is a target |
| Seqs.WithoutNoDup | controllers/chat/deleteChat.controller.ts:175-177 | removal keeps a duplicate-free list duplicate-free |
| Seqs.Newest | lib/services/chat.service.ts:198 | the last `n` elements, or the whole list when it is not longer than `n` (see also lib/services/history.service.ts:84-86) |
| Seqs.AddOnce | lib/services/chat.service.ts:191-192 | the value is present afterwards, the old list is a prefix of the new one, at most one element is added and nothing but the value, and a duplicate-free list stays duplicate-free |
| Seqs.AddOnceIdempotent | lib/services/chat.service.ts:191-192 | adding a present value again changes nothing |
| Seqs.NewestAppend | lib/services/chat.service.ts:192-198 | trimming to the newest `n` before or after appending one element gives the same newest `n` |
| Seqs.NewestNoDup | lib/services/history.service.ts:84-86 | the newest entries of a duplicate-free list are duplicate-free |

## Left out

- Upstash's automatic JSON deserialisation is not modelled. The cache is a store of strings, and a JSON key holds the text the code wrote.
- 12-byte ids, numeric ids and `null` are treated as invalid, although the driver accepts the first two and `new Types.ObjectId(null)` makes a fresh id. Only 24-hex-digit strings count as ids. A `null` entry in a cached ledger or mirror (DeleteChat.AllTargets, Hydrate.HydrateChat) throws instead, but every writer in the application stores strings there.
- Cache and store faults are not modelled beyond those named in the contracts: a cast error on a malformed id, the chat save failure in attach, and a duplicate email on save.
- Console logging is not modelled, because it has no effect on the state.
- Mail is out of scope: `sendMail`, and how a failure to send is handled.
- Password hashing is out of scope. A stored password stands for its hash, and `comparePassword` is equality.
- The OTP and reset-token generators are out of scope. A generated code is a parameter.
- The avatar upload in the profile update is out of scope: Cloudinary and the file system.
- Time is out of scope. TTLs are stored numbers, and the clock and expiry are not modelled; `now` is a parameter.
- Concurrency is out of scope: cross-request races on the shared stores, and the order of `Promise.all`.
- Attach writes `lastMessage`, and the profile update writes `company`. Neither is a path of its schema, so the save drops them, and the model gives both assignments no effect.
- `undefined` and `null` are both `None`. This covers the prompt slice's fulfilled reducer, which stores `undefined` fields directly.
- JSON numbers are integers. Floating point is out of scope.
- `lib/api/ApiResponse.ts` and `lib/api/ApiError.ts` are not part of this model. `success` is taken to be `statusCode < 400`.
- Hydration orders messages with equal `createdAt` as the mirror lists them. The aggregation gives no order for ties.
- `updateOne({ _id })` on History is modelled as a match on the record id.
- `includes` on lists of ids compares the ids as strings. Object identity is not modelled. The chat slice's `===` and `!==` on chat ids (ChatSlice.RemoveChat, ChatSlice.ReplaceChat) compare values, so an object or array id is matched by its contents rather than by identity; the server sends string ids.
- The GenAiResponse schema's validation of the generated fields is not modelled. The generator's answer is a parameter, `Generated`.
- The exact texts of the `TypeError` and `SyntaxError` messages are not modelled. `ReadFault` approximates the text of a property read on `null`.
- The PDF parser (`lib/services/pdf.service.ts`) and the generative-AI client (`lib/genai/genai.ts`) are parameters: the parser as the extracted text, the client as its answer.
- Query operators in a JSON email (an object instead of a string) are not modelled. Emails are strings.
- The chat slice's normalisation spreads objects only. Spreading a string or an array into a chat is not modelled.
- A failure of `res.json()` is not modelled: a `Reply` carries the parsed result. A rejected `fetch` is `NetworkFailure`.
- The reset-code route's own catch block (its 500 answer) is not modelled. Only a failing cache reaches it, because the wrapped controller's errors are answered by `asynchandler`.
- The `await db()` connection step at the start of each route is not modelled.
- Store.Db.FindInvestorByEmail returns some investor holding the email. No unique index on `email` is assumed unless a member states it.
- Toast notifications in the slices are side effects on the page and are left out.
- The other auth thunks (signup, login, refresh, getUser, update, forgot-password, reset-code, reset-password) are modelled only through `AuthSlice.BuildRequest` and `AuthSlice.Unwrap`. Their fallback messages are parameters.
- ChatSlice.CreatedChat: the `history` field of the create-chat response is not kept, because the reducer only appends the chat.
- The routes import `@/lib/helpers/rate-limiter`, which is not part of this model. `middlewares/rate-limiter.ts` is modelled in its place.
- Fresh ids: ChatService.CreateActive, ChatService.ResolveChat, NewChat.CreateNewChat, HandlePrompt.CreateForChat, HandlePrompt.Converse, HandlePrompt.ProcessPrompt and HandlePrompt.HandleUserPrompt require that the id given for a new chat is canonical and not yet in the store. This is a guarantee of the store, not a check the code makes.
- HandlePrompt.HandleUserPrompt: on success its contract states the created records, the message's chat, the answer and that the ledger holds the resolved chat. The chat, mirror and history writes of the steps it calls are stated by `ChatService` and `HistoryService`, not repeated here.
- ResetOtpRoute.Handler: the success case states the effects of a 200 answer (the stored code), not which emails get one. RegenerateOtp.ResetOtp states that.
- ResetOtpRoute.Post: when all rules pass, it states the effects of the wrapped controller's answer, not which emails get a 200.
- VerifyOtp.VerifyOtp: on a match it marks some investor holding the email as verified, not necessarily the one `findOne` returned.
- AuthSlice.AuthState.SessionFulfilled: `payload.verified || false` is stored as a bool, so a truthy non-boolean `verified` is stored as `true`.
- RegenerateOtp.ResetOtp: success for an unverified holder is stated only when emails are unique.
