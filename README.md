# teleeye-api core, modelled in Dafny

teleeye-api is a web service in front of the Telegram Bot API. Bots send their Bot API calls
through its proxy, and the service records everything those calls carry: users, chats,
messages and files, each linked to the bot that saw it. Account holders then read those chats
through their own API, under a membership model (every bot has OWNER and VIEWER members) and
an account system (sessions, one-time codes, password and e-mail flows).

The model covers these parts:

- **Payload and walkers** (`payload.dfy`, `utils.dfy`). A payload is a graph of nodes with
  stable handles, so a shared object and a cycle are represented faithfully. The recursive walks
  of `find_instances` and `find_objects_with_attributes` keep a visited set. First-wins
  deduplication, recursive field removal and the numeric code builder are here too.
- **Rows and their dictionary form** (`message_model.dfy`, `file_model.dfy`, `db.dfy`). The
  stored message and file, their `to_dict`, and the database as one map per table inside a
  `Database` class.
- **Entity sync** (`entity_logger.dfy`). It classifies files and messages, projects them to rows
  with an overflow record, and reconciles a payload with the tables (`log_object`): insert what is
  missing, link what this bot has not seen, and report six flags. It also covers the avatar
  insert and the edit path of `update_message`.
- **Proxy logging** (`tg_logger.dfy`, `proxy.dfy`). The profile upserts, the full chat info and
  the dispatch on the Bot API method name. It includes the synthesis of copied and forwarded
  messages, the token check and the request-merge rule.
- **Chats** (`chats_service.dfy`, `chats_routes.dfy`). The `bots` filter parameter, the bot
  access check, message serialisation, page and cursor arithmetic, and read marks.
- **Bots** (`bots_service.dfy`, `bots_routes.dfy`). The access decisions, the rebuilt token,
  link trimming, registration and takeover, and membership changes under the one-owner
  invariant. It also covers the owner-only webhook routes and the webhook receiver.
- **Accounts** (`auth_service.dfy`, `auth_routes.dfy`, `users_routes.dfy`). Claim checks,
  sessions and revocation, one-time codes, and the registration, login, e-mail and password
  flows. Also the administrator's user routes.
- **Input validation** (`constants.dfy`, `pydantic.dfy`, `auth_schemas.dfy`, `bot_schemas.dfy`).
  The regexes are written as character-class and length predicates, next to the request-body
  validators.

Imperative code becomes methods on the `Database` object. Each method is proved against a
specification function, and the properties of that function are lemmas. Calls into code outside
the model are parameters of the operations: Telegram's answers, `de_json`, `EmailStr` and `HttpUrl`
(each a check that gives the value's normal form, which the request bodies keep), the random code
and the clock. Encryption is an exact sealed box (`Decrypt(Encrypt(x)) == x`),
bcrypt an exact password check, and the revocation Bloom filter an exact set.
The model follows the code as written, with the exceptions listed under "## Findings". For each
of them the model has the operation as written and, next to it, a corrected one. The rest of the
model is built on the corrected one:

- the entity probe `CheckEntities` in `LogObject` and `LogCollected`, and through them in
  `LogDecodedObject`, `LogGetUpdates`, `LogCopies`, the proxy routes, `SyncUpdate` and
  `HandleUpdate`;
- the patched dict `CopiedDict` in `LogCopyMessage`;
- the per-thread read-mark key in `MarkChatRead`;
- the owner demotion `AddBotUserSpec` in `AddBotUser`;
- the whole-string matches in `ValidateBotToken` and in `ValidateWebhookCreate` (`SecretCheck`);
- the distinct-id listing in the cursor lemmas `CursorPageBounded` and `CursorPagesSplit`.

The account deletion keeps both side by side. `DeleteUser` follows the code and fails on any
account that has a session. `DeleteUserCascading` is the corrected deletion.

## Model

| member | source | states |
|---|---|---|
| Constants.UsernameLength | app/core/constants.py:1 | USERNAME_REGEX only admits names of 4 to 16 characters |
| Constants.BotTokenLength | app/core/constants.py:3 | `re.match` with BOT_TOKEN_REGEX accepts 44 to 46 characters, or 47 when the last one is a newline |
| Constants.BotTokenTrailingNewline | app/core/constants.py:3 | a token of the regex shape with a newline appended still passes `re.match`, although it no longer has the shape |
| Constants.BotTokenParts | app/core/constants.py:3 | splitting a well-shaped token at the first colon gives the digit prefix (the bot id) and the 35-character suffix |
| Constants.MethodSetsDisjoint | app/core/constants.py:6-37 | no Bot API method is both message-returning and edited-message-returning |
| Db.Encrypt | app/core/crypto.py:26-46 | decrypting an encrypted string gives the string back |
| Db.HashPassword | app/services/auth.py:28-33 | a password verifies against its own hash |
| Db.VerifyPassword | app/services/auth.py:32-33 | `verify_password` as an exact check against the hash (`HashPassword`) |
| Enums.ParseUserRole | app/core/enums.py:9-12 | the role whose value is the string, or none when no role has that value |
| Enums.ParseChatType | app/core/enums.py:32-36 | the chat type whose value is the string, or none (ValueError) when no type has it |
| Json.Update | app/db/models/telegram/message.py:140-141 | `dict.update`: the key set is the union, the update's values win, the other values stay |
| FileModel.PromotedFileDict | app/db/models/telegram/file.py:37-42 | exactly the four promoted keys |
| FileModel.ToDict | app/db/models/telegram/file.py:36-47 | the four promoted keys plus the keys of a truthy `other_data`, whose values override the promoted ones |
| FileModel.ToDictKeepsPromoted | app/db/models/telegram/file.py:37-45 | when the overflow shares no key with the promoted part, the promoted values come through unchanged |
| MessageModel.StubOrNull | app/db/models/telegram/message.py:111-126 | a sender stub exactly when the stored id is present and non-zero, None otherwise |
| MessageModel.PromotedDict | app/db/models/telegram/message.py:104-138 | exactly the promoted keys, each with its column's value |
| MessageModel.Overflow | app/db/models/telegram/message.py:140-141 | a NULL overflow record adds nothing; a present one adds its own entries |
| MessageModel.ToDict | app/db/models/telegram/message.py:103-143 | the promoted keys plus the overflow keys; overflow values override, the promoted values fill the rest |
| MessageModel.ToDictIdentity | app/db/models/telegram/message.py:105-108 | the dictionary carries `message_id`, `chat.id` and the type's string unless the overflow shadows them |
| MessageModel.ToDictSenders | app/db/models/telegram/message.py:111-126 | only the business-bot stub is marked as a bot, and a falsy id gives None |
| Payload.PublicRefs | app/core/utils.py:122-131 | the objects reached through public attributes that do not raise, exactly |
| Payload.Children | app/core/utils.py:112-131 | a dict's values, a list's items, or an object's public non-raising attributes: the nodes the walk descends into |
| Pydantic.LengthCheck | app/schemas/telegram/bot.py:19 | `min_length`/`max_length`: accepted exactly when the length is within the bounds, with the library's 422 messages |
| Pydantic.RangeCheck | app/schemas/telegram/bot.py:92 | `ge`/`le`: accepted exactly when the value is within the bounds |
| Utils.Traverse | app/core/utils.py:94-133 | the walk keeps exactly the newly seen nodes that match, none twice, the root first when it matches; `seen` only grows and is closed under children |
| Utils.TraverseAll | app/core/utils.py:112-131 | the walk over a list of children: every child is seen, the kept nodes are exactly the newly seen matches, none twice |
| Utils.TraverseReachesAll | app/core/utils.py:94-133 | every node reachable from the root is visited by a walk that starts with nothing seen |
| Utils.FindsEveryReachableMatch | app/core/utils.py:94-133 | every reachable matching node is returned |
| Utils.Walk | app/core/utils.py:94-133 | the recursive walk with its loops returns what the walk specification describes |
| Utils.FindInstances | app/core/utils.py:94-133 | `find_instances` returns the specified walk with the `isinstance` test |
| Utils.FindObjectsWithAttributes | app/core/utils.py:136-173 | `find_objects_with_attributes` returns the specified walk with the `hasattr` test |
| Utils.FindInstancesExact | app/core/utils.py:107-109 | a node is found exactly when it is reachable and an instance; the root comes first when it is one |
| Utils.FindObjectsWithAttributesExact | app/core/utils.py:149-150 | a node is found exactly when it is reachable and has every required attribute |
| Utils.FirstIndex | app/core/utils.py:183-191 | the position of the first object that has the key, or none when no object has it |
| Utils.Dedup | app/core/utils.py:179-193 | a key is present exactly when some object has it, the kept object is the first with that key, and keys are in first-occurrence order |
| Utils.DedupKeys | app/core/utils.py:183-191 | a key is present exactly when some object has it |
| Utils.DedupFirstWins | app/core/utils.py:190-191 | the object kept under a key is one that has the key and comes before every other object with it |
| Utils.Deduplicate | app/core/utils.py:179-193 | the loop filling the dict computes the deduplication |
| Utils.CompoundKey | app/core/utils.py:202-205 | a key exists exactly when every field is present, and it lists the field values in order |
| Utils.DeduplicateCompound | app/core/utils.py:196-210 | the compound-key loop computes the deduplication under the tuple key |
| Utils.Scrub | app/core/utils.py:226-236 | the value with the nested keys deleted at every depth and nothing else changed; no such key is left |
| Utils.ScrubFields | app/core/utils.py:227-232 | the object's other keys, each value scrubbed |
| Utils.PrunedUnique | app/core/utils.py:226-236 | the pruned form of a value is unique |
| Utils.ScrubKeyFree | app/core/utils.py:226-236 | a value holding none of the keys is left as it is |
| Utils.RemovedFields | app/core/utils.py:213-240 | the top-level keys of `exclude` and of the nested set are gone, and the nested keys are gone at every depth |
| Utils.RemovedFieldsIdempotent | app/core/utils.py:213-240 | removing the same fields twice equals removing them once |
| Utils.RemoveFields | app/core/utils.py:213-240 | the deleting loops compute the removal |
| Utils.PadDigits | app/core/utils.py:59 | `f"{code:0{n}d}"` has exactly n decimal digits |
| Utils.PadDigitsValue | app/core/utils.py:59 | the zero-padded string spells the code it was made from |
| Utils.GenerateNumericOtp | app/core/utils.py:52-59 | ValueError exactly when n is not positive; otherwise n digits whose value is the drawn number |
| Utils.WithField | app/core/utils.py:85 | the named flag takes the value and every other column stays |
| Utils.BoolFieldUpdate | app/core/utils.py:62-88 | 404 exactly for an unknown account, 403 exactly for an administrator target and a non-GOD caller, 409 with the caller's message exactly when the flag already holds the value; otherwise the account with the flag set |
| Utils.BoolFieldUpdatePermission | app/core/utils.py:76-79 | when the flag would change, the update succeeds exactly when the caller is GOD or the target is a plain user |
| Utils.BoolFieldUpdateUndo | app/core/utils.py:62-88 | setting the flag back restores the account |
| Utils.UpdateUserBoolField | app/core/utils.py:62-88 | the stored account is replaced by the specified update, or nothing changes on an error |
| Utils.OneOrNone | app/core/utils.py:70-71 | `scalar_one_or_none`: none for no row, the row for one, MultipleResultsFound for several |
| Utils.ScalarOneOrNone | app/core/utils.py:70-71 | the method returns `OneOrNone` of the matched rows |
| Proxy.RouteOf | app/services/telegram/logger.py:224-381 | a boolean answer is ignored; a list goes only to the list routes, and copyMessages/forwardMessages only for those names; a message-returning method takes the new-message route |
| Proxy.RouteUnambiguous | app/services/telegram/logger.py:350-381 | an edit method always takes the edit route, and the new-message and edit routes are taken exactly for the two method sets |
| Proxy.ChatByUsername | app/services/telegram/logger.py:270-284 | the chat of the outer join on the username without its leading "@" |
| Proxy.ObjectOf | app/services/telegram/logger.py:351 | `de_json` succeeds exactly on an object, with its fields, and raises TypeError otherwise |
| Proxy.RouteSpec | app/services/telegram/logger.py:216-466 | the tables after `log_telegram_request`, route by route: unchanged when ignored; the getUpdates, sendMediaGroup and copyMessages/forwardMessages loggers on a list; getChatFullInfo, getMe, the message-returning and edit loggers, and the corrected copyMessage on an object, each failing with TypeError on a non-object |
| Proxy.Committed | app/services/telegram/logger.py:523-535 | the tables a call leaves once its transaction ends: the specified tables when it succeeded, the tables before it when it failed |
| Proxy.CommittedOfLogged | app/services/telegram/logger.py:523-535 | a call that logged as its route specifies, rolled back on failure, leaves exactly the committed tables of that route |
| Proxy.SomeNamed | app/services/telegram/logger.py:270-284 | every destination has a lookup result consistent with the chat table |
| Proxy.IgnoredCommitsNothing | app/services/telegram/logger.py:224-225 | for an ignored answer, the committed tables are exactly the tables before |
| Proxy.RouteIgnoresNamed | app/services/telegram/logger.py:216-466 | outside the two copy routes, the username lookup has no effect on the specified tables |
| Proxy.CommittedUnique | app/services/telegram/logger.py:216-466 | outside the two copy routes, the committed tables of a request and answer are unique |
| Proxy.LogUpdatesRoute | app/services/telegram/logger.py:228-244 | on a list, the getUpdates route logs as `GetUpdatesSpec` specifies |
| Proxy.LogDecodedRoute | app/services/telegram/logger.py:246-252 | sendMediaGroup and the message-returning methods log the decoded answer as `LogDecoded` specifies (with lines 371-374) |
| Proxy.LogCopiesRoute | app/services/telegram/logger.py:254-348 | copyMessages/forwardMessages log as `CopyManySpec` specifies |
| Proxy.LogChatFullInfoRoute | app/services/telegram/logger.py:350-364 | getChatFullInfo: TypeError on a non-object, otherwise the chat logged as `GetChatFullInfoSpec` specifies; only chats, files and bot-file links change |
| Proxy.LogMeRoute | app/services/telegram/logger.py:366-369 | getMe: TypeError on a non-object, an error without an integer id, otherwise the bot's own user row updated; only Telegram users change |
| Proxy.LogEditedRoute | app/services/telegram/logger.py:376-379 | the edit methods: TypeError on a non-object, otherwise the decoded message updated as `UpdateMessageSpec` specifies |
| Proxy.LogCopyRoute | app/services/telegram/logger.py:381-466 | copyMessage: TypeError on a non-object, otherwise logged as the corrected `CopyOneSpec` specifies |
| Proxy.RunRoute | app/services/telegram/logger.py:216-466 | the tables and result are those `RouteSpec` gives the route, for a username lookup consistent with the chat table |
| Proxy.RunCopyRoute | app/services/telegram/logger.py:254-348 | the two copy routes look up the destination by username, then log as `RouteSpec` gives (with lines 381-466) |
| Proxy.RunPlainRoute | app/services/telegram/logger.py:224-379 | every other route logs as `RouteSpec` gives, in the branch order of the source |
| Proxy.LogTelegramRequest | app/services/telegram/logger.py:216-466 | the call logs exactly as `RouteSpec` specifies for the route `RouteOf` picks; an ignored answer changes nothing |
| Proxy.MatchedTokenParts | app/services/telegram/logger.py:470-480 | a token that passes the regex has an integer prefix and a part after its first colon |
| Proxy.ShapedTokenParts | app/services/telegram/logger.py:473-480 | a token that starts with a well-shaped one has that token's integer prefix |
| Proxy.ParseDigits | app/services/telegram/logger.py:473 | `int` of a run of digits is its decimal value |
| Proxy.VerifyToken | app/services/telegram/logger.py:469-486 | 400 unless the token is non-empty and passes the regex; accepted exactly when a stored bot has the integer prefix and its decrypted token is the part after the first colon; 404 otherwise |
| Proxy.VerifyTokenAccepts | app/services/telegram/logger.py:469-486 | the token "{id}:{secret}" of a stored bot is accepted whenever it has the regex shape |
| Proxy.VerifyTokenRejectsOtherSecret | app/services/telegram/logger.py:480-484 | a token whose secret differs from the stored one is refused as an unknown bot |
| Proxy.QueryDict | app/services/telegram/logger.py:498 | the query parameters as strings, key for key |
| Proxy.MergedRequest | app/services/telegram/logger.py:500-510 | an empty body counts as `{}`; text that is not JSON gives 404; a non-object cannot be merged; otherwise the union with the body's values winning |
| Proxy.ResultOf | app/services/telegram/logger.py:527-529 | the `result` of the answer, or `{}` when it has none |
| Proxy.LogReply | app/services/telegram/logger.py:523-535 | a reply that is not loggable changes nothing; a loggable one leaves exactly the committed tables of its route, with the `result` of the answer as the data |
| Proxy.ProxyRequest | app/services/telegram/logger.py:489-551 | the token is checked first and its error returned; an unloggable reply or an error leaves the tables unchanged; a successful loggable reply leaves exactly the committed tables of its route, for the merged request, the method name without trailing "/" and the bot the token names |
| TgLogger.ProfileId | app/services/telegram/logger.py:36-39 | the profile decodes exactly when its `id` is an integer, and raises TypeError otherwise |
| TgLogger.Renamed | app/services/telegram/logger.py:40-45 | the four name columns take the profile's values; `is_premium` and `is_bot` are kept |
| TgLogger.MeUpdated | app/services/telegram/logger.py:36-46 | an UPDATE by id: no user is added, others are untouched, the stored user is renamed |
| TgLogger.LogMe | app/services/telegram/logger.py:36-46 | the method leaves the users table as `MeUpdated` specifies |
| TgLogger.MeUpdatedIdempotent | app/services/telegram/logger.py:36-46 | logging the same `getMe` answer twice equals logging it once |
| TgLogger.MeAfterUser | app/services/telegram/logger.py:36-74 | `log_me` after `log_user` of the same profile changes nothing |
| TgLogger.LogUser | app/services/telegram/logger.py:49-74 | insert and overwrite both leave the user with the columns of its profile, and no other user changes |
| TgLogger.LogUsers | app/services/telegram/logger.py:77-104 | the listed users are added or overwritten with their profiles' columns, and every other user is unchanged |
| TgLogger.Retyped | app/services/telegram/logger.py:129-137 | a stored chat takes the profile columns a fresh insert would write and keeps its full-info columns |
| TgLogger.ChatUpserted | app/services/telegram/logger.py:113-137 | ValueError exactly for an unknown chat type; otherwise the chat is inserted or its profile columns overwritten, and no other chat changes |
| TgLogger.ChatsUpsertedFails | app/services/telegram/logger.py:113-114 | `log_chats` fails exactly when some chat of the batch has an unknown type, and then with ValueError |
| TgLogger.ChatsUpsertedLogs | app/services/telegram/logger.py:107-137 | on success every listed chat has its profile columns, stored chats keep their full-info columns, new ones have them NULL, and unlisted chats are untouched |
| TgLogger.LogChats | app/services/telegram/logger.py:107-137 | the loop over the entries computes `log_chats`, and a failure leaves the table as it was |
| TgLogger.ChatsErrStays | app/services/telegram/logger.py:113-114 | a failure on a prefix of the batch is the failure of the whole batch |
| TgLogger.NestedChat | app/services/telegram/logger.py:159-160 | a nested chat is absent, or an object with an integer id; anything else raises TypeError |
| TgLogger.PinnedId | app/services/telegram/logger.py:161 | the pinned message's id is its `message_id`; absent gives NULL |
| TgLogger.PhotoOf | app/services/telegram/logger.py:162-163 | the avatar is absent, or an object with the four file ids as strings |
| TgLogger.FullInfoOf | app/services/telegram/logger.py:143 | `ChatFullInfo.de_json` needs an integer id and well-formed related objects, and keeps the dictionary |
| TgLogger.FullInfoRow | app/services/telegram/logger.py:143-166 | ValueError exactly for an unknown chat type; otherwise the profile columns, the related ids, the avatar ids and the rest of the dict without the excluded fields |
| TgLogger.PhotoStep | app/services/telegram/logger.py:146-147 | only the files and file links can change, and nothing does without an avatar |
| TgLogger.FullInfoUpserts | app/services/telegram/logger.py:169-203 | stored or not, the chat ends with the full-info row and nothing but the avatar's files and links changes beside it |
| TgLogger.FullInfoPhotoStored | app/services/telegram/logger.py:179-202 | once the full info of a stored chat is logged, its avatar ids point at stored files |
| TgLogger.NewFullInfoClash | app/services/telegram/logger.py:149-166 | adding a new chat whose id is already stored raises IntegrityError |
| TgLogger.LogNewChatFullInfo | app/services/telegram/logger.py:140-166 | the method does what `log_new_chat_full_info` specifies |
| TgLogger.LogChatFullInfo | app/services/telegram/logger.py:169-203 | the method does what `log_chat_full_info` specifies |
| TgLogger.FetchNewChatInfo | app/services/telegram/logger.py:206-213 | the fetched chat is logged as a new chat and its id returned |
| TgLogger.ChatsToLog | app/services/telegram/logger.py:353-358 | the personal chat, then the parent chat, each when present |
| TgLogger.LogGetChatFullInfo | app/services/telegram/logger.py:350-364 | the personal and parent chats through `log_chats`, then the full info |
| TgLogger.LogDecodedObject | app/services/telegram/logger.py:371-374 | with the corrected entity probe `CheckEntities`: a decoded answer goes through `log_object` |
| TgLogger.EditOf | app/services/telegram/logger.py:235-240 | `edited_message`, else `edited_channel_post`, else `edited_business_message` |
| TgLogger.Edits | app/services/telegram/logger.py:229-240 | at most one edit per update, in update order |
| TgLogger.EditAllKeeps | app/services/telegram/logger.py:243-244 | the edits add or remove no row and touch only the messages table |
| TgLogger.EditAllOthers | app/services/telegram/logger.py:243-244 | a message no edit names keeps the row `log_object` left |
| TgLogger.EditAllLast | app/services/telegram/logger.py:243-244 | the last edit of a stored message wins |
| TgLogger.GetUpdatesOrder | app/services/telegram/logger.py:242-244 | the batch is logged before any edit, so a failing `log_object` applies no edit |
| TgLogger.CollectEdits | app/services/telegram/logger.py:231-240 | the loop gathers exactly the edits |
| TgLogger.ApplyEdits | app/services/telegram/logger.py:243-244 | the loop applies the edits in order |
| TgLogger.LogGetUpdates | app/services/telegram/logger.py:228-244 | with the corrected entity probe `CheckEntities`: the method does what the getUpdates route specifies |
| TgLogger.CopiedIds | app/services/telegram/logger.py:258 | the `message_id` of every item, in order; a non-object raises TypeError and a missing key KeyError |
| TgLogger.CollectCopiedIds | app/services/telegram/logger.py:258 | the loop computes the comprehension |
| TgLogger.ErrorStays | app/services/telegram/logger.py:258 | once a prefix fails, the whole comprehension fails the same way |
| TgLogger.Len | app/services/telegram/logger.py:265 | `len` of a list, string or object; TypeError for anything else |
| TgLogger.IntParam | app/services/telegram/logger.py:281-282 | only an integer can be bound into the query |
| TgLogger.IntList | app/services/telegram/logger.py:282 | only a list of integers can be bound into `IN (...)` |
| TgLogger.KnownDest | app/services/telegram/logger.py:269-310 | a string destination is looked up by username (a zero id counts as unknown), an integer one by id; any other value fails |
| TgLogger.Resolve | app/services/telegram/logger.py:312-313 | a known destination is used as it is; an unknown one is fetched once and stored |
| TgLogger.ResolveStores | app/services/telegram/logger.py:312-313 | afterwards the destination is a stored chat, and only chats, files and file links changed |
| TgLogger.Pairs | app/services/telegram/logger.py:315-321 | the zipped pairs whose original is stored |
| TgLogger.PairsPositional | app/services/telegram/logger.py:318-321 | every stored original goes with the copied id at its own position, and only those |
| TgLogger.PairsNonEmpty | app/services/telegram/logger.py:323-324 | with equally long lists, a stored original always yields a pair, so the empty-pairs return is never taken |
| TgLogger.PairCopies | app/services/telegram/logger.py:315-321 | the loop computes the pairs |
| TgLogger.SetIf | app/services/telegram/logger.py:334-341 | the key takes the value exactly when the condition holds |
| TgLogger.ClonedBase | app/services/telegram/logger.py:328-332 | `edit_date` is deleted (KeyError when missing), the id becomes the copy's and `chat.id` the destination |
| TgLogger.PatchClone | app/services/telegram/logger.py:328-341 | the base patch, then the thread, the caption (copyMessages only) and the protection flag the request gives |
| TgLogger.PatchCloneInPlace | app/services/telegram/logger.py:328-341 | the in-place edits of the loop body compute `PatchClone` |
| TgLogger.Sources | app/services/telegram/logger.py:327-328 | the originals' `to_dict`, each with its copy's id |
| TgLogger.ClonesShape | app/services/telegram/logger.py:326-344 | the clones succeed exactly when every patch does, and then hold one patched dict per source, in order |
| TgLogger.ClonesErrStays | app/services/telegram/logger.py:326-344 | a failing prefix fails the whole list |
| TgLogger.BuildClones | app/services/telegram/logger.py:326-344 | the loop computes the clones |
| TgLogger.CopyManyPlan | app/services/telegram/logger.py:254-310 | the copied ids, the early return, the query binds, and the lookup of the originals and the destination |
| TgLogger.CopyManySkips | app/services/telegram/logger.py:260-267 | nothing is logged when a parameter is missing or empty or the two id lists differ in length |
| TgLogger.CopyManyNeedsOriginals | app/services/telegram/logger.py:289-308 | nothing is logged or fetched when no original is stored in the source chat |
| TgLogger.CopyManyPairsNonEmpty | app/services/telegram/logger.py:323-324 | a plan that goes ahead always has a pair to clone |
| TgLogger.CopyManyStepsResolve | app/services/telegram/logger.py:312-313 | either nothing is logged, or the tables are those of the destination's resolution |
| TgLogger.CopyManyClones | app/services/telegram/logger.py:326-346 | `log_object` receives one clone per pair, in order, each the patched `to_dict` of its original |
| TgLogger.PlanCopyMany | app/services/telegram/logger.py:254-310 | the lookup computes the plan and changes nothing |
| TgLogger.ResolveDest | app/services/telegram/logger.py:312-313 | the method resolves the destination as `Resolve` specifies |
| TgLogger.RunCopySteps | app/services/telegram/logger.py:254-344 | the method computes the copy steps |
| TgLogger.LogCopies | app/services/telegram/logger.py:254-348 | with the corrected entity probe `CheckEntities`: the copyMessages/forwardMessages route as specified |
| TgLogger.FinishCopy | app/services/telegram/logger.py:346 | the clones, if any, go through `log_object` |
| TgLogger.CopyOnePlanOf | app/services/telegram/logger.py:381-431 | the early return, the query binds and the lookup of copyMessage |
| TgLogger.PlacementOverrides | app/services/telegram/logger.py:442-446 | the thread and protection overrides, each exactly when the request gives it |
| TgLogger.CaptionOverrides | app/services/telegram/logger.py:448-452 | the caption and caption-entity overrides, each exactly when the request gives it |
| TgLogger.CopyOverrides | app/services/telegram/logger.py:442-452 | all overrides, in the source's order |
| TgLogger.CopyOneBaseCases | app/services/telegram/logger.py:381-452 | the common part of copyMessage by the outcome of its plan |
| TgLogger.MessageOf | app/services/telegram/logger.py:460 | `Message.de_json` needs an object naming its chat and id |
| TgLogger.StoreCopy | app/services/telegram/logger.py:461-465 | the message row under its own key and the bot's link are inserted; a stored key aborts with IntegrityError |
| TgLogger.CopiedDict | app/services/telegram/logger.py:454-458 | the display options are set as keys of the patched dict, and nothing else changes |
| TgLogger.CopyOneSkips | app/services/telegram/logger.py:387-428 | nothing is logged or fetched when a parameter is falsy or the original is not stored |
| TgLogger.CopyOneBaseShape | app/services/telegram/logger.py:433-440 | the dict names the destination and the copied id, and only chats and files change when the destination is fetched |
| TgLogger.OverriddenKey | app/services/telegram/logger.py:439-452 | the overrides keep the id and chat of the base patch |
| TgLogger.CopiedDictKey | app/services/telegram/logger.py:454-458 | with the display options set as keys, the dict still names the destination and the copied id |
| TgLogger.CopyOneStoresCopy | app/services/telegram/logger.py:381-466 | the corrected copyMessage stores the patched dict under (destination, copied id) whenever those ids are free, keeping a truthy `reply_markup`, and links the bot |
| TgLogger.CopyOneAsWrittenDropsMarkup | app/services/telegram/logger.py:457-460 | as written, a truthy `reply_markup` replaces the whole dict, so the copy is lost and the request fails |
| TgLogger.CopyOneAsWritten | app/services/telegram/logger.py:381-466 | copyMessage as written, where a truthy display option replaces the cloned dict (`CopyOneAsWrittenDropsMarkup`) |
| TgLogger.CopyOneSpec | app/services/telegram/logger.py:381-466 | copyMessage as intended, storing the patched dict `CopiedDict` (`CopyOneStoresCopy`, `CopyOneSpecCases`) |
| TgLogger.PlanCopyOne | app/services/telegram/logger.py:381-431 | the lookup computes the plan and changes nothing |
| TgLogger.RunCopyOneBase | app/services/telegram/logger.py:381-452 | the method computes the common part of copyMessage |
| TgLogger.RunCopyFromPlan | app/services/telegram/logger.py:433-452 | the destination and the patched dict of a found original |
| TgLogger.InsertCopy | app/services/telegram/logger.py:463-465 | the two INSERTs as `StoreCopy` specifies |
| TgLogger.CopyOneSpecCases | app/services/telegram/logger.py:381-466 | the corrected copyMessage by the outcome of its common part |
| TgLogger.LogCopyMessage | app/services/telegram/logger.py:381-466 | with the corrected patch `CopiedDict`: the corrected copyMessage route as specified |
| EntityLogger.FileTypeIndex | app/services/telegram/entity_logger.py:111-116 | the index found is the first mapping entry from `i` on whose class the object is an instance of; none means no later entry matches |
| EntityLogger.GetFileType | app/services/telegram/entity_logger.py:51-61 | None exactly when the object is an instance of no mapped class; otherwise the type of some class it is an instance of, the first in mapping order (with lines 111-116) |
| EntityLogger.DocumentBeforeVideo | app/services/telegram/entity_logger.py:51-61 | an object that is both a Document and a Video is classified DOCUMENT (with lines 111-116) |
| EntityLogger.MessageTypeIndex | app/services/telegram/entity_logger.py:435-438 | the index found is the first attribute from `i` on that is truthy on the message |
| EntityLogger.GetMessageType | app/services/telegram/entity_logger.py:86-108 | SERVICE exactly when no mapped attribute is truthy; otherwise the tag of a truthy attribute (with lines 435-440) |
| EntityLogger.TextWins | app/services/telegram/entity_logger.py:86-88 | a message with truthy `text` is a TEXT message whatever else it carries (with lines 435-440) |
| EntityLogger.MessageExcludedFields | app/services/telegram/entity_logger.py:443-483 | every promoted field is excluded, and each service flag is excluded exactly when the message does not set it |
| EntityLogger.MessageOverflow | app/services/telegram/entity_logger.py:486-490 | NULL exactly when every key is excluded or is `file_id`; otherwise a non-empty record keeping every other key with `file_id` scrubbed (with lines 547-550) |
| EntityLogger.PrepareMessage | app/services/telegram/entity_logger.py:521-553 | the row carries the message type, the ids of the related objects, the truth values of the flags and the overflow record |
| EntityLogger.PreparedOverflowDisjoint | app/services/telegram/entity_logger.py:443-469 | the overflow of a prepared message holds no key that the model's `to_dict` promotes (with lines 547-550) |
| EntityLogger.PreparedMessageIdentity | app/services/telegram/entity_logger.py:521-553 | reading a prepared row back with `to_dict` gives the message's own chat id, message id and type |
| EntityLogger.PreparedMessageContent | app/services/telegram/entity_logger.py:521-553 | reading a prepared row back gives the payload's text, caption and dates |
| EntityLogger.PromotedContent | app/services/telegram/entity_logger.py:521-553 | when the overflow avoids the promoted keys, `to_dict` shows the stored text, caption and dates |
| EntityLogger.PromotedSurvive | app/services/telegram/entity_logger.py:521-553 | when the overflow avoids the promoted keys, `to_dict` shows every promoted value |
| EntityLogger.PreparedMessageKeepsOverflow | app/services/telegram/entity_logger.py:547-550 | every key the overflow kept comes back from `to_dict` with `file_id` scrubbed |
| EntityLogger.PrepareFile | app/services/telegram/entity_logger.py:63-69 | the row keeps the type, size and MIME type (NULL when absent); the overflow is NULL exactly when every key is excluded (with lines 562-576) |
| EntityLogger.PreparedFileRoundTrip | app/services/telegram/entity_logger.py:562-576 | a stored file read back shows its key, type, size and MIME type; every other key comes back unchanged and `file_id` never does |
| EntityLogger.DataOf | app/services/telegram/entity_logger.py:306-316 | the dictionaries of the collected objects, under the same keys in the same order |
| EntityLogger.FileEntryOf | app/services/telegram/entity_logger.py:319-327 | a file object is kept exactly when it has a file type and is a Telegram object, tagged with that type |
| EntityLogger.TypedFiles | app/services/telegram/entity_logger.py:318-327 | the kept files are exactly the typed ones among the keys, each once, holding the first object's entry |
| EntityLogger.CollectEntities | app/services/telegram/entity_logger.py:298-329 | the method returns the collection `CollectSpec` describes: four walks, each deduplicated, with the files typed |
| EntityLogger.TypeFiles | app/services/telegram/entity_logger.py:318-327 | the loop keeps exactly the typed files, in key order |
| EntityLogger.CollectSpecWF | app/services/telegram/entity_logger.py:298-329 | every collection lists its keys once, every listed key has a value, and message keys are (chat id, message id) pairs |
| EntityLogger.CollectedUsersFirstWins | app/services/telegram/entity_logger.py:306-307 | a user id is collected exactly when some user object in the payload has it, and the first such object in walk order is kept |
| EntityLogger.CollectedFilesTyped | app/services/telegram/entity_logger.py:315-327 | every collected file carries its type, and its dictionary is tagged with it |
| EntityLogger.NonEmptyCteData | app/services/telegram/entity_logger.py:119-120 | an empty list becomes one NULL row; a non-empty one is kept row for row |
| EntityLogger.ChatChecks | app/services/telegram/entity_logger.py:251-259 | one probe row per VALUES row of the chat part |
| EntityLogger.UserChecks | app/services/telegram/entity_logger.py:261-269 | one probe row per VALUES row of the user part |
| EntityLogger.MessageChecks | app/services/telegram/entity_logger.py:271-279 | one probe row per VALUES row of the message part |
| EntityLogger.FileChecks | app/services/telegram/entity_logger.py:281-289 | one probe row per VALUES row of the file part |
| EntityLogger.Cross | app/services/telegram/entity_logger.py:251-289 | the rows of a cross join hold only rows of the crossed list |
| EntityLogger.CrossedChatRows | app/services/telegram/entity_logger.py:251-259 | as written, every chat row reports the chat stored |
| EntityLogger.CrossedUserRows | app/services/telegram/entity_logger.py:261-269 | as written, every user row reports the user stored |
| EntityLogger.CrossedMessageRows | app/services/telegram/entity_logger.py:271-279 | as written, every message row reports the message stored and linked |
| EntityLogger.CrossedFileRows | app/services/telegram/entity_logger.py:281-289 | as written, every file row reports the file stored and linked |
| EntityLogger.AsWrittenReportsAllStored | app/services/telegram/entity_logger.py:251-295 | every row of the query as written asks for nothing, whatever the tables hold |
| EntityLogger.QuietOfFour | app/services/telegram/entity_logger.py:291 | the union of four parts whose rows ask for nothing asks for nothing |
| EntityLogger.BulkInsert | app/services/telegram/entity_logger.py:365-380 | the insert succeeds exactly when no key is stored or repeated, and then keeps every stored row and adds every new one; otherwise it raises IntegrityError (with lines 556-559 and 579-582) |
| EntityLogger.UserRowOf | app/services/telegram/entity_logger.py:365-377 | a user's `is_premium` column is the truth value of the field |
| EntityLogger.ChatTypeOf | app/services/telegram/entity_logger.py:419 | the chat's `type` string names the enum value found; None when it names none |
| EntityLogger.ChatRowOf | app/services/telegram/entity_logger.py:415-428 | the conversion fails with ValueError exactly when the type is unknown, and otherwise writes the chat's columns |
| EntityLogger.ChatRowsOf | app/services/telegram/entity_logger.py:415-432 | the batch fails exactly when some chat has an unknown type; otherwise every chat is converted in order |
| EntityLogger.Converted | app/services/telegram/entity_logger.py:365-377 | each entity of the batch, under its key, through its column mapping (with lines 556-559) |
| EntityLogger.BotMessageRows | app/services/telegram/entity_logger.py:585-599 | one link row per message key, carrying the bot's id |
| EntityLogger.BotFileRows | app/services/telegram/entity_logger.py:602-616 | one link row per file, carrying the bot's id and the bot's own file id |
| EntityLogger.PhotoProbe | app/services/telegram/entity_logger.py:136-148 | the probe reports the file stored and linked exactly as the tables say |
| EntityLogger.ChatsFromChatChecks | app/services/telegram/entity_logger.py:641-664 | only the chat part of the union yields chats to insert |
| EntityLogger.UsersFromUserChecks | app/services/telegram/entity_logger.py:641-656 | only the user part of the union yields users to insert |
| EntityLogger.CheckKinds | app/services/telegram/entity_logger.py:251-291 | each part of the union holds rows of its own kind only |
| EntityLogger.MessagesFromMessageChecks | app/services/telegram/entity_logger.py:666-676 | only the message part yields messages to insert |
| EntityLogger.BotMessagesFromMessageChecks | app/services/telegram/entity_logger.py:666-676 | only the message part yields message links |
| EntityLogger.FilesFromFileChecks | app/services/telegram/entity_logger.py:678-686 | only the file part yields files to insert |
| EntityLogger.BotFilesFromFileChecks | app/services/telegram/entity_logger.py:678-686 | only the file part yields file links |
| EntityLogger.UserBatch | app/services/telegram/entity_logger.py:650-656 | the picked users are exactly the new ones, each once, with their collected data |
| EntityLogger.ChatBatch | app/services/telegram/entity_logger.py:658-664 | the picked chats are exactly the new ones, each once |
| EntityLogger.MessageProbeKey | app/services/telegram/entity_logger.py:666-669 | a probe of a collected message key names that key |
| EntityLogger.MessageBatchMembers | app/services/telegram/entity_logger.py:666-671 | the picked messages are exactly the new named ones |
| EntityLogger.MessagePickedIsNew | app/services/telegram/entity_logger.py:666-671 | what a message row picks is a new message with its collected dictionary |
| EntityLogger.MessageBatchDistinct | app/services/telegram/entity_logger.py:666-671 | no message is picked twice |
| EntityLogger.BotMessageBatchMembers | app/services/telegram/entity_logger.py:673-674 | the picked links are exactly the named messages the bot lacks |
| EntityLogger.BotMessagePickedIsNew | app/services/telegram/entity_logger.py:673-674 | what a message row asks to link is a named message the bot lacks |
| EntityLogger.BotMessageBatchDistinct | app/services/telegram/entity_logger.py:673-674 | no message link is picked twice |
| EntityLogger.FileBatch | app/services/telegram/entity_logger.py:678-682 | the picked files are exactly the new named ones, each once |
| EntityLogger.BotFileBatch | app/services/telegram/entity_logger.py:684-686 | the picked file links are exactly the files the bot lacks, with the bot's file id |
| EntityLogger.PlanIsPlanned | app/services/telegram/entity_logger.py:630-686 | reading the rows of the intended query plans exactly the missing entities and links, each once |
| EntityLogger.BulkInsertBatch | app/services/telegram/entity_logger.py:688-704 | a batch with distinct, unstored keys is inserted whole |
| EntityLogger.InsertUsers | app/services/telegram/entity_logger.py:688-689 | the planned users are inserted and the stored ones kept |
| EntityLogger.InsertChats | app/services/telegram/entity_logger.py:691-692 | the chat insert fails exactly on a new chat of unknown type, and otherwise stores the new chats |
| EntityLogger.ChatRowsFail | app/services/telegram/entity_logger.py:415-428 | the chat batch fails to convert exactly when a new chat has an unknown type |
| EntityLogger.ChatRowsStored | app/services/telegram/entity_logger.py:691-692 | a converted chat batch is inserted whole |
| EntityLogger.InsertMessagesWith | app/services/telegram/entity_logger.py:694-695 | the planned messages are inserted, for any column mapping |
| EntityLogger.InsertMessages | app/services/telegram/entity_logger.py:694-695 | the planned messages are inserted as prepared rows |
| EntityLogger.InsertBotMessages | app/services/telegram/entity_logger.py:697-698 | the planned message links are inserted |
| EntityLogger.InsertFiles | app/services/telegram/entity_logger.py:700-701 | the planned files are inserted as prepared rows |
| EntityLogger.InsertBotFiles | app/services/telegram/entity_logger.py:703-704 | the planned file links are inserted |
| EntityLogger.ApplyPlanned | app/services/telegram/entity_logger.py:688-704 | the six inserts of a planned batch fail exactly on a bad new chat, and otherwise store the batch |
| EntityLogger.LogObjectFails | app/services/telegram/entity_logger.py:619-713 | with the corrected entity probe `CheckEntities`: the call fails exactly when it would insert a chat of unknown type |
| EntityLogger.LogObjectStores | app/services/telegram/entity_logger.py:619-713 | with the corrected entity probe `CheckEntities`: insert-only: every stored row is kept, exactly the missing entities are added, and every named message and file ends up linked to the bot |
| EntityLogger.PlannedFlags | app/services/telegram/entity_logger.py:706-713 | each list is non-empty exactly when something of its kind is missing |
| EntityLogger.PlannedUsersFlag | app/services/telegram/entity_logger.py:707 | the users flag is set exactly when a user is missing |
| EntityLogger.PlannedChatsFlag | app/services/telegram/entity_logger.py:708 | the chats flag is set exactly when a chat is missing |
| EntityLogger.PlannedMessagesFlag | app/services/telegram/entity_logger.py:709 | the messages flag is set exactly when a message is missing |
| EntityLogger.PlannedBotMessagesFlag | app/services/telegram/entity_logger.py:710 | the message-link flag is set exactly when a link is missing |
| EntityLogger.PlannedFilesFlag | app/services/telegram/entity_logger.py:711 | the files flag is set exactly when a file is missing |
| EntityLogger.PlannedBotFilesFlag | app/services/telegram/entity_logger.py:712 | the file-link flag is set exactly when a link is missing |
| EntityLogger.LogObjectFlags | app/services/telegram/entity_logger.py:706-713 | with the corrected entity probe `CheckEntities`: the six flags report exactly which kinds of row were missing |
| EntityLogger.ReconcileReportsPlan | app/services/telegram/entity_logger.py:706-713 | the flags returned are those of the planned lists |
| EntityLogger.ApplyNothing | app/services/telegram/entity_logger.py:688-704 | with every list empty no insert runs and the tables are unchanged |
| EntityLogger.PlanNothing | app/services/telegram/entity_logger.py:641-686 | when nothing is missing, every list stays empty |
| EntityLogger.StoredLeavesNothingNew | app/services/telegram/entity_logger.py:619-713 | after a successful call nothing of the payload is missing |
| EntityLogger.LogObjectIdempotent | app/services/telegram/entity_logger.py:619-713 | with the corrected entity probe `CheckEntities`: logging the same payload again for the same bot inserts nothing and reports nothing |
| EntityLogger.QuietPlan | app/services/telegram/entity_logger.py:641-686 | rows that report everything stored plan nothing |
| EntityLogger.AsWrittenLogsNothing | app/services/telegram/entity_logger.py:251-295 | with the query as written, the call inserts nothing and reports nothing, whatever is missing (with lines 619-713) |
| EntityLogger.QuietReconcile | app/services/telegram/entity_logger.py:641-713 | rows that ask for nothing leave the tables unchanged |
| EntityLogger.AsWrittenMissesNewUser | app/services/telegram/entity_logger.py:251-295 | with a user the tables lack, the query as written and the intended query give different results (with lines 650-654) |
| EntityLogger.CheckEntitiesAsWritten | app/services/telegram/entity_logger.py:251-295 | the probe as written: every VALUES list crossed with the whole table, so every row reports its entity stored (`AsWrittenReportsAllStored`) |
| EntityLogger.CheckEntities | app/services/telegram/entity_logger.py:251-295 | the corrected probe, each VALUES list left-joined on its key: a row reports whether its entity, and the link of the bot, is stored (`CheckRowsName`, `CheckKinds`) |
| EntityLogger.Reconcile | app/services/telegram/entity_logger.py:619-713 | `log_object` on a collection with the corrected probe: plan the missing rows and insert them; `LogObjectStores` states the result |
| EntityLogger.ReconcileAsWritten | app/services/telegram/entity_logger.py:619-713 | `log_object` on a collection with the probe as written; `AsWrittenLogsNothing` shows it inserts nothing |
| EntityLogger.CheckRowsName | app/services/telegram/entity_logger.py:220-242 | every row names a collected key or is the NULL padding, so the dictionary lookups of the loop succeed (with lines 652-680) |
| EntityLogger.ChatChecksName | app/services/telegram/entity_logger.py:220-224 | chat rows name collected chats (with lines 659-660) |
| EntityLogger.UserChecksName | app/services/telegram/entity_logger.py:226-230 | user rows name collected users (with lines 651-652) |
| EntityLogger.MessageChecksName | app/services/telegram/entity_logger.py:232-236 | message rows name collected messages (with lines 667-669) |
| EntityLogger.FileChecksName | app/services/telegram/entity_logger.py:238-242 | file rows name collected files (with lines 679-680) |
| EntityLogger.PlanSnoc | app/services/telegram/entity_logger.py:641-686 | reading one more row extends each list by what that row asks for |
| EntityLogger.ReadRows | app/services/telegram/entity_logger.py:641-686 | the loop over the check rows fills the six lists as the plan says |
| EntityLogger.ReadRow | app/services/telegram/entity_logger.py:650-686 | one pass of the loop adds to each list what the row's kind asks for |
| EntityLogger.LogObject | app/services/telegram/entity_logger.py:619-713 | with the corrected entity probe `CheckEntities`: the tables and flags after the call are those of collecting, probing and inserting |
| EntityLogger.LogCollected | app/services/telegram/entity_logger.py:625-713 | with the corrected entity probe `CheckEntities`: given a collection, the tables become those of the reconciliation, or stay as they were when an insert raises |
| EntityLogger.CheckAndRead | app/services/telegram/entity_logger.py:630-686 | the probe and the loop give the planned lists |
| EntityLogger.ReconcileApplies | app/services/telegram/entity_logger.py:630-713 | the reconciliation is the inserts of the planned lists |
| EntityLogger.InsertBatches | app/services/telegram/entity_logger.py:688-704 | the six inserts run in order and the first failure aborts the rest |
| EntityLogger.InsertIfAny | app/services/telegram/entity_logger.py:688-704 | an empty list issues no statement; a non-empty one is one bulk insert |
| EntityLogger.InsertChatsIfAny | app/services/telegram/entity_logger.py:691-692 | the enum conversion runs first, then the insert |
| EntityLogger.EditKey | app/services/telegram/entity_logger.py:727-735 | the WHERE key is the message's (chat id, id), present exactly when both fields are |
| EntityLogger.EditMessage | app/services/telegram/entity_logger.py:724-738 | the UPDATE touches only the messages table, never adds or removes a row, and rewrites only the row under the edit key |
| EntityLogger.UpdateMessage | app/services/telegram/entity_logger.py:716-738 | the tables after the call are those `UpdateMessageSpec` gives for the logged result |
| EntityLogger.EditStored | app/services/telegram/entity_logger.py:730-738 | the UPDATE statement on the database gives the edited tables |
| EntityLogger.UpdateMessageKeepsKeys | app/services/telegram/entity_logger.py:716-738 | with `skip_log` the call never adds or removes a message and touches no other table |
| EntityLogger.UpdateMessageSkipsNewLink | app/services/telegram/entity_logger.py:719-722 | an edit of a message the bot was not linked to is dropped, even when the message was stored |
| EntityLogger.UpdateMessageEdits | app/services/telegram/entity_logger.py:719-738 | without a new link, the edit is applied on top of what logging stored, only to the edited message |
| EntityLogger.PhotoChecks | app/services/telegram/entity_logger.py:123-153 | two probe rows, small then big, each reporting the file stored and linked as the tables say |
| EntityLogger.PhotoFileIds | app/services/telegram/entity_logger.py:189-192 | the dictionary covers both unique ids; when they coincide the big size's file id wins |
| EntityLogger.ChatPhotoRow | app/services/telegram/entity_logger.py:167-172 | a new avatar file is stored CHAT_PHOTO with NULL size, MIME type and overflow (with lines 562-576) |
| EntityLogger.PhotoPair | app/services/telegram/entity_logger.py:165-177 | the two lists are read off the two rows in order |
| EntityLogger.Put | app/services/telegram/entity_logger.py:179-183 | the entry, if any, written into the map |
| EntityLogger.BulkInsertTwo | app/services/telegram/entity_logger.py:179-183 | at most two rows with fresh, distinct keys are inserted |
| EntityLogger.FileRowOpt | app/services/telegram/entity_logger.py:179-180 | the prepared row of an optional file entry |
| EntityLogger.LinkRowOpt | app/services/telegram/entity_logger.py:182-183 | the link row of an optional link |
| EntityLogger.ConvertedKept | app/services/telegram/entity_logger.py:179-180 | preparing at most two files row by row |
| EntityLogger.BotFileRowsKept | app/services/telegram/entity_logger.py:182-183 | linking at most two files row by row |
| EntityLogger.PhotoFilesPutStored | app/services/telegram/entity_logger.py:165-180 | the files written keep every stored file and add each missing avatar file |
| EntityLogger.PhotoLinksPutStored | app/services/telegram/entity_logger.py:174-183 | the links written keep every stored link and add each missing one under its file id |
| EntityLogger.PhotoFilesInserted | app/services/telegram/entity_logger.py:179-180 | with distinct unique ids the file insert succeeds |
| EntityLogger.PhotoLinksInserted | app/services/telegram/entity_logger.py:182-183 | with distinct unique ids the link insert succeeds |
| EntityLogger.InsertChatPhotoIfNotExist | app/services/telegram/entity_logger.py:186-194 | the files and links after the call are those `ChatPhotoSpec` gives |
| EntityLogger.ChatPhotoStores | app/services/telegram/entity_logger.py:156-194 | with two distinct unique ids the call succeeds, changes only files and links, keeps every stored row and adds exactly the missing avatar files and links |
| EntityLogger.ChatPhotoSameIds | app/services/telegram/entity_logger.py:165-180 | when both sizes share a missing unique id, the file is listed twice and the insert raises IntegrityError (with lines 189-192) |
| EntityLogger.ChatPhotoIdempotent | app/services/telegram/entity_logger.py:156-194 | a second call with the same avatar for the same bot changes nothing |
| ChatsService.ParseIds | app/services/telegram/chats.py:14-20 | the pieces parse exactly when every non-blank piece is an integer after stripping, giving the set of those integers; otherwise 400 |
| ChatsService.ParseBotParam | app/services/telegram/chats.py:11-20 | no filter for a missing or empty parameter; otherwise the set of the comma-separated ids, or 400 |
| ChatsService.SplitWhole | app/services/telegram/chats.py:15 | a string without the separator splits into itself |
| ChatsService.SplitFirst | app/services/telegram/chats.py:15 | splitting at the first separator peels off the piece before it |
| ChatsService.SplitOfJoin | app/services/telegram/chats.py:15 | joining separator-free pieces and splitting again gives the pieces back |
| ChatsService.Spelled | app/services/telegram/chats.py:15 | the decimal spellings of the ids, in order |
| ChatsService.SpelledPieces | app/services/telegram/chats.py:15 | a decimal spelling holds no comma, is not blank and parses back to its id |
| ChatsService.ParseBotParamRoundTrip | app/services/telegram/chats.py:11-20 | ids written comma-separated are read back as the set of those ids |
| Text.ParseNumeral | app/services/telegram/chats.py:15 | `int()` after stripping: a plain run of digits reads as its decimal value; an accepted string holds only digits and underscores after an optional sign, and only a leading minus gives a negative value |
| Text.ParseIntToString | app/services/telegram/chats.py:15 | `int(str(n)) == n` for every integer |
| Text.ParseIntIgnoresUnderscore | app/services/telegram/chats.py:15 | an underscore between digits is ignored: two runs of digits glued by `_` read as the two runs glued |
| Text.ParseIntRejectsDoubleUnderscore | app/services/telegram/chats.py:15 | two underscores in a row are a ValueError |
| Text.ParseIntRejectsNonNumeric | app/services/telegram/chats.py:15 | a non-empty string of no digit, sign or whitespace is a ValueError |
| ChatsService.ReadBack | app/services/telegram/chats.py:15 | pieces that each read as an id give exactly the set of the ids |
| ChatsService.ReadBackOnly | app/services/telegram/chats.py:15 | every parsed id is one of the ids |
| ChatsService.ReadBackAll | app/services/telegram/chats.py:15 | every id is parsed |
| ChatsService.LinkedAmong | app/services/telegram/chats.py:29-35 | the requested bots the account is linked to |
| ChatsService.SameSizeSubset | app/services/telegram/chats.py:36 | a subset as large as its superset is that superset |
| ChatsService.CheckBotAccessMeans | app/services/telegram/chats.py:23-40 | the check passes exactly when nothing is requested, the caller is an admin, or every requested bot is linked to the caller; otherwise 403 |
| ChatsService.CheckBotAccess | app/services/telegram/chats.py:23-40 | only a non-admin caller who names some bots can be refused, and then with 403; `CheckBotAccessMeans` says exactly when |
| ChatsService.SerializeMessage | app/services/telegram/chats.py:43-54 | "chat" is dropped, each loaded related object replaces its key, and every other key is kept as it was |
| ChatsRoutes.PageOffset | app/routes/telegram/chats.py:107 | the rows skipped before a page are never negative |
| ChatsRoutes.PageCountCeil | app/routes/telegram/chats.py:142 | the page count is the ceiling of total over size: zero pages for no rows, otherwise the last page is non-empty and holds the last row |
| ChatsRoutes.PageCount | app/routes/telegram/chats.py:142 | no pages exactly when there are no rows; `PageCountCeil` proves it is the ceiling of total over size |
| ChatsRoutes.PageStartsInside | app/routes/telegram/chats.py:107 | a page within the count starts at a row that exists (with line 142) |
| ChatsRoutes.MarksOf | app/routes/telegram/chats.py:129-134 | a chat's marks come from its rows, in row order, at most one per row |
| ChatsRoutes.MarksOfEmpty | app/routes/telegram/chats.py:130-131 | a chat has no mark exactly when none of its rows has a thread |
| ChatsRoutes.GroupReadMarks | app/routes/telegram/chats.py:129-139 | every chat maps to its marks in row order, and only chats with a mark get an entry |
| ChatsRoutes.ListingFilter | app/routes/telegram/chats.py:93-98 | requested bots if any, otherwise every bot for an admin and the caller's bots for anyone else (with lines 183-188 and 319-324) |
| ChatsRoutes.ChatMessageIds | app/routes/telegram/chats.py:307-327 | only stored messages of the chat are selected |
| ChatsRoutes.CursorCandidates | app/routes/telegram/chats.py:307-330 | a truthy cursor selects only ids below it |
| ChatsRoutes.PageOfFetched | app/routes/telegram/chats.py:339-351 | 404 exactly when nothing came back; there are more exactly when more than `limit` came back, the items are then cut to `limit`, and the next cursor is the last item's id |
| ChatsRoutes.CursorPageBounded | app/routes/telegram/chats.py:332-346 | corrected listing (distinct message ids fetched): over the `limit + 1` largest candidates, a page is answered exactly when some message is accessible, with more exactly when more than `limit` are |
| ChatsRoutes.CursorPagesSplit | app/routes/telegram/chats.py:329-349 | corrected listing (distinct message ids fetched): following the cursor neither repeats nor skips a message: items are at least the cursor, and every other candidate lies below it |
| ChatsRoutes.CursorRows | app/routes/telegram/chats.py:307-330 | as written, the query returns one joined row per passing recording bot, each a stored recording of the chat whose id is a candidate |
| ChatsRoutes.CandidatesOfRows | app/routes/telegram/chats.py:307-330 | the candidate ids are exactly the message ids of the joined rows |
| ChatsRoutes.RowIds | app/routes/telegram/chats.py:335-336 | the fetched rows turned into their message ids, one per row and in order |
| ChatsRoutes.RepeatedRowsAsWritten | app/routes/telegram/chats.py:332-349 | as written, a single message recorded by two passing bots gives, at `limit = 1`, a page with `has_more` and a cursor at that message, and no row lies below the cursor |
| ChatsRoutes.CursorNarrows | app/routes/telegram/chats.py:329-330 | following a truthy cursor selects exactly the candidates below it |
| ChatsRoutes.ThreadOrDefault | app/routes/telegram/chats.py:375 | a missing or zero thread is the general thread 1, any other is kept |
| ChatsRoutes.SetMax | app/routes/telegram/chats.py:379 | the maximum is an element and bounds every element |
| ChatsRoutes.MaxId | app/routes/telegram/chats.py:378-391 | none for no accessible message, otherwise the largest id |
| ChatsRoutes.MarkSpec | app/routes/telegram/chats.py:375-435 | 404 with no last message; 400 when the target exceeds the last id; otherwise only the mark of (user, chat, thread) is set, to the given message or the last one |
| ChatsRoutes.MarkKeepsOtherThreads | app/routes/telegram/chats.py:408-435 | marking one thread leaves every other thread's mark as it was |
| ChatsRoutes.MarkIdempotent | app/routes/telegram/chats.py:408-435 | marking the same message twice equals marking it once |
| ChatsRoutes.MarkChatRead | app/routes/telegram/chats.py:360-439 | with the corrected per-thread key: the read marks after the call are those `MarkSpec` gives over the caller's accessible messages of the thread |
| ChatsRoutes.MarksAfterDelete | app/routes/telegram/chats.py:481-483 | exactly the caller's marks of the chat, or of its one thread, are removed; the others are kept |
| ChatsRoutes.DeleteChatReadMarks | app/routes/telegram/chats.py:448-488 | 404 with no accessible message in the chat, otherwise the marks become `MarksAfterDelete` |
| ChatsRoutes.DeleteAllCoversThreads | app/routes/telegram/chats.py:481-483 | deleting a chat's marks after one of its threads equals deleting them at once; other chats keep theirs |
| ChatsRoutes.MarkAsDeclaredSecondThread | app/db/models/telegram/read_messages.py:15-27 | against the declared primary key (user, chat), marking a second thread of a chat clashes with the first mark |
| ChatsRoutes.MarkAsDeclared | app/routes/telegram/chats.py:408-435 | as written against the declared (user, chat) key: the upsert fails with an IntegrityError exactly when the account marked another thread of the chat; otherwise the one row of (user, chat) holds the thread and message and every other row is kept |
| ChatsRoutes.MarkSecondThread | app/routes/telegram/chats.py:408-435 | with the thread in the key, marking a second thread succeeds and keeps the first mark |
| BotsService.BotToken | app/services/telegram/bots.py:28-33 | the rebuilt token is the bot id as `str` writes it, a ':', then the decrypted secret |
| BotsService.StoredTokenRebuilds | app/services/telegram/bots.py:28-31 | storing the part of a token after its first ':' and rebuilding it from the bot id gives the token back, when the part before the ':' is the bot id |
| BotsService.UserLinks | app/services/telegram/bots.py:95-97 | exactly the links of the account |
| BotsService.BotLinks | app/services/telegram/bots.py:100-102 | exactly the links of the bot |
| BotsService.GetUserBot | app/services/telegram/bots.py:36-70 | the caller's role on an existing bot, or none for an admin without a link; a missing bot is 404 for admins and 403 for anyone else, and a missing link is 403 for non-admins |
| BotsService.RequireOwnerMeans | app/routes/telegram/bots.py:373-377 | the owner check passes exactly for an admin on an existing bot and for the bot's owner |
| BotsService.GetBotById | app/services/telegram/bots.py:119-149 | on success the bot exists and the client is built with its rebuilt token |
| BotsService.GetBotByIdAgrees | app/services/telegram/bots.py:119-144 | `get_bot_by_id` takes the same access decision as `get_user_bot`, with the same errors |
| BotsService.GetBotByIdToken | app/services/telegram/bots.py:146-147 | the rebuilt token starts with the bot id and carries the stored secret after the ':' |
| BotsService.Latest | app/services/telegram/bots.py:160-161 | the row found has the largest stamp (`ORDER BY ... DESC LIMIT 1`) (with lines 198-199) |
| BotsService.Earliest | app/services/telegram/bots.py:108-113 | the row found has the smallest update time among the bot's links |
| BotsService.ChatSenders | app/services/telegram/bots.py:155-171 | only stored bot-message rows of stored bots are considered |
| BotsService.GetBotByChat | app/services/telegram/bots.py:152-183 | 404 exactly when no usable bot recorded a message of the chat; otherwise the bot of the newest such record, with its rebuilt token |
| BotsService.FileHolders | app/services/telegram/bots.py:193-215 | only records of this file by stored bots, and of the given bot when a truthy id is given |
| BotsService.FileStamps | app/services/telegram/bots.py:198 | the stamps of the file records (with line 210) |
| BotsService.GetFileAndBotToken | app/services/telegram/bots.py:186-230 | 404 exactly when no usable bot holds the file; otherwise the newest such record and that bot's sealed token |
| BotsService.LinkStamps | app/services/telegram/bots.py:111 | the update times of the links |
| BotsService.RemoveExtraBotLinks | app/services/telegram/bots.py:105-116 | only the bot's links past the `limit` most recently updated are deleted; other bots' links are kept |
| BotsService.TrimmedBound | app/services/telegram/bots.py:105-116 | after trimming the bot has at most `limit` links and no account gains a link |
| BotsRoutes.Owners | app/routes/telegram/bots.py:211 | exactly the OWNER links of the bot (with lines 515-518) |
| BotsRoutes.Touch | app/routes/telegram/bots.py:205-212 | the link gets the role; a link already in that role is left as it was, any other is stamped with the update time (with lines 547 and 575) |
| BotsRoutes.Transferred | app/routes/telegram/bots.py:200-212 | the takeover loop touches only links of the bot, and never adds or removes one |
| BotsRoutes.TransferredOwners | app/routes/telegram/bots.py:205-212 | after the takeover the caller's link, if any, is the bot's only owner, and every other owner is a VIEWER |
| BotsRoutes.JoinedOwners | app/routes/telegram/bots.py:176-183 | joining a trimmed, owner-less bot as its owner leaves the joiner its only owner |
| BotsRoutes.JoinedLinks | app/routes/telegram/bots.py:178-183 | joining a trimmed bot adds at most one link to it and leaves other bots' links alone (with lines 223-231) |
| BotsRoutes.BotRowOf | app/routes/telegram/bots.py:138-139 | the stored token decrypts to the part of the token after its first ':' (with lines 167-175) |
| BotsRoutes.RenamedBot | app/routes/telegram/bots.py:254-256 | only the three name fields of a known Telegram user change |
| BotsRoutes.TakeOverLinks | app/routes/telegram/bots.py:200-212 | the loop reports whether the caller was already linked, and leaves the links `Transferred` describes |
| BotsRoutes.JoinAsNewOwner | app/routes/telegram/bots.py:178-183 | the bot's links are trimmed to leave room for one more, then the caller is linked as OWNER (with lines 223-231) |
| BotsRoutes.CreateOrTransferBot | app/routes/telegram/bots.py:123-258 | 400 when `get_me` fails; 403 exactly when the caller would need a new link past the bot cap, and then nothing changes; otherwise the bot row is written, its user stored or renamed, other bots' links kept, and the caller is the bot's only owner |
| BotsRoutes.DeleteBot | app/routes/telegram/bots.py:364-382 | the owner check decides; on success the bot goes with its links, webhook and records, and on failure nothing changes |
| BotsRoutes.AddedLink | app/routes/telegram/bots.py:494-563 | on success the bot exists, the caller owns it or is an admin, the target exists and is not banned, is not the caller unless admin, and the link gets the new role |
| BotsRoutes.DemoteOthers | app/routes/telegram/bots.py:565-575 | every owner of the bot other than the given account becomes a VIEWER; every other link is kept |
| BotsRoutes.DemoteOthersOwners | app/routes/telegram/bots.py:565-575 | after demoting the others of an owner, that owner is the bot's only owner |
| BotsRoutes.AddBotUserKeepsOneOwner | app/routes/telegram/bots.py:494-584 | adding or promoting a member, with every other owner demoted, keeps at most one owner, and a new OWNER is the only one |
| BotsRoutes.AddBotUserAgreesOnMembers | app/routes/telegram/bots.py:565-575 | when the target is already a member, the code as written and the corrected version agree |
| BotsRoutes.AtMostOneSize | app/routes/telegram/bots.py:565-575 | a set whose elements are all equal has at most one element |
| BotsRoutes.AddBotUserAsWrittenTwoOwners | app/routes/telegram/bots.py:541-575 | as written, adding a new member as OWNER of a bot that already has an owner leaves two owners |
| BotsRoutes.AddBotUserAsWritten | app/routes/telegram/bots.py:541-575 | `add_bot_user` as written: only the promotion of an existing member to OWNER demotes the other owner (`AddBotUserAsWrittenTwoOwners`) |
| BotsRoutes.AddBotUserSpec | app/routes/telegram/bots.py:494-584 | `add_bot_user` as intended: whoever becomes OWNER, every other owner is demoted (`AddBotUserKeepsOneOwner`) |
| BotsRoutes.AddBotUser | app/routes/telegram/bots.py:494-584 | with the corrected owner demotion `AddBotUserSpec`: the target lookup, then the links `AddBotUserSpec` gives |
| BotsRoutes.DeleteBotUserSpec | app/routes/telegram/bots.py:593-634 | on success exactly the target's link is removed |
| BotsRoutes.DeleteBotUserMeans | app/routes/telegram/bots.py:593-634 | a link is removed exactly when it exists, is not an OWNER link, and is the caller's own or the caller owns the bot or is an admin; owners are never removed |
| BotsRoutes.DeleteBotUser | app/routes/telegram/bots.py:593-634 | the links after the call are those `DeleteBotUserSpec` gives, unchanged on failure |
| BotsRoutes.SealIf | app/routes/telegram/bots.py:686-692 | a value is sealed exactly when it is truthy, and the seal decrypts to it |
| BotsRoutes.SetWebhook | app/routes/telegram/bots.py:648-714 | success exactly when the owner check passes and Telegram accepts; the webhook row is then written with the fresh secret and the sealed redirect, and otherwise nothing changes |
| BotsRoutes.WebhookInfoDict | app/routes/telegram/bots.py:746-761 | Telegram's answer without `ip_address`, with `url` replaced by the decrypted redirect url or null, and every other key kept |
| BotsRoutes.GetWebhookInfo | app/routes/telegram/bots.py:728-761 | the owner check's error, 404 without a webhook, otherwise the rewritten dictionary |
| BotsRoutes.DeleteWebhook | app/routes/telegram/bots.py:775-808 | the owner check, 404 without a webhook, 400 on refusal, and only on success the webhook row is removed |
| BotsRoutes.RedirectOf | app/routes/telegram/bots.py:857-866 | a redirect exactly when the webhook has a redirect url, with the decrypted url and token |
| BotsRoutes.SyncSpecCases | app/routes/telegram/bots.py:838-856 | a failed sync leaves the tables as they were; a successful one applies the edit on top of what `log_object` stored |
| BotsRoutes.SyncUpdate | app/routes/telegram/bots.py:838-856 | with the corrected entity probe `CheckEntities`: the tables after the sync are those `SyncSpec` gives |
| BotsRoutes.UpdateAnswer | app/routes/telegram/bots.py:825-836 | 200 exactly with a webhook, the right secret header and a JSON body; 401 without a webhook or with a wrong secret; otherwise the JSON error raises (with lines 857-880) |
| BotsRoutes.HandleUpdate | app/routes/telegram/bots.py:818-880 | with the corrected entity probe `CheckEntities`: the answer is `UpdateAnswer`; a refused request changes nothing, an accepted one syncs the update |
| AuthService.DecodeJwtToken | app/services/auth.py:70-92 | accepted exactly when the library accepts the token and its `jti` is present and not revoked; 401 "Token expired" for an expired one, 401 "Invalid token" otherwise |
| AuthService.SubjectId | app/services/auth.py:103-106 | `int(sub)`: integers, booleans and integer strings convert; null, lists and objects fail |
| AuthService.RoleClaim | app/services/auth.py:108-110 | a role exactly when the claim is the value of one |
| AuthService.RoleMet | app/services/auth.py:116-117 | the role check of `require_role`: met with no required role, by the required role itself, or by GOD (used by `AuthorizeUser`, `AuthorizeUserDb` and the role-guarded routes) |
| AuthService.IsRevoked | app/services/auth.py:84-86 | `jti in bloom_filter`, with the filter an exact set of string ids (`DecodeJwtToken`) |
| AuthService.AccessTokenClaims | app/services/auth.py:36-60 | the access token's claims: subject, access type, id, e-mail flag and role (`IssuedAccessAuthorizes`) |
| AuthService.RefreshTokenClaims | app/services/auth.py:36-60 | the refresh token's claims: subject, refresh type and id (`TokenTypesDiffer`) |
| AuthService.AuthorizeUser | app/services/auth.py:95-126 | success only for a decodable access token whose subject, role and flag are well-typed; the result carries those claims and meets the required role (or the caller is GOD) |
| AuthService.ValidateRefreshToken | app/services/auth.py:129-138 | accepted exactly when decoding succeeds, the type is refresh and a subject is present; the payload is returned |
| AuthService.AuthorizeUserDb | app/services/auth.py:141-156 | the token checks, then the account exists (401 otherwise) and its stored role also meets the requirement (403 otherwise) |
| AuthService.RoleValueRoundTrip | app/services/auth.py:204 | parsing a role's value gives the role back |
| AuthService.IssuedAccessAuthorizes | app/services/auth.py:197-206 | an access token issued for an account authorizes as that account, its role, flag and token id when its id is not revoked and the role suffices; 401 when revoked, 403 otherwise |
| AuthService.TokenTypesDiffer | app/services/auth.py:100-101 | a refresh token never authorizes a request and an access token is never accepted as a refresh token |
| AuthService.SessionsOf | app/services/auth.py:177-179 | exactly the ids of the account's sessions |
| AuthService.IssueSpec | app/services/auth.py:159-220 | a banned account gets 403; an existing session is rewritten with the new ids and time, keeping its creation time; otherwise a new session is added, created and updated now, unless the account has `MAX_USER_SESSIONS`; a refresh id held by another session raises IntegrityError; the pair carries the lifetimes |
| AuthService.IssueKeepsSessionCap | app/services/auth.py:177-193 | issuing keeps every account within `MAX_USER_SESSIONS` |
| AuthService.IssueKeepsRefreshJtisUnique | app/services/auth.py:159-220 | issuing keeps the refresh ids of the session table unique |
| AuthService.IssueTokenPair | app/services/auth.py:159-220 | the method returns the specified pair and session table, or the error with the table unchanged |
| AuthService.RotationCandidates | app/services/auth.py:226-232 | exactly the sessions holding the refresh id whose subject names an existing account |
| AuthService.RotateRefreshToken | app/services/auth.py:223-238 | 401 when no session matches; otherwise the old access id is revoked and the pair is reissued on the same row, and the revocation stays when the reissue is refused |
| AuthService.SessionsWithout | app/services/auth.py:246 | exactly the other accounts' sessions, unchanged |
| AuthService.RevokeAccessJtis | app/services/auth.py:242-244 | the revocation set grows by exactly the account's access ids |
| AuthService.RevokeAllSessions | app/services/auth.py:241-247 | the account's access ids are revoked and its sessions are deleted, nothing else changes |
| AuthService.RevokedSessionsRefused | app/services/auth.py:241-247 | after revocation the account has no session and none of its former access tokens authorizes |
| AuthService.RevokeSessionByJti | app/services/auth.py:250-258 | the session holding the refresh id, if any, has its access id revoked and is deleted |
| AuthService.RefreshJtiFindsSession | app/services/auth.py:250-253 | with unique refresh ids, the lookup by a session's refresh id finds that session |
| AuthService.LogoutCurrentSession | app/services/auth.py:294-311 | the caller's access id is revoked in every case, then 401 when no session holds it, else that session is deleted |
| AuthService.OtpsWithout | app/services/auth.py:268-270 | exactly the codes not of that account and kind, unchanged |
| AuthService.IssueOtp | app/services/auth.py:261-280 | a fresh `OTP_LENGTH`-digit code spelling the drawn value replaces the account's code of that kind |
| AuthService.IssueOtpKeepsOnePerKind | app/services/auth.py:268-278 | the code table keeps one code per account and kind, and the new code is the account's only one of its kind |
| AuthService.SendVerificationEmail | app/services/auth.py:283-291 | nothing for a verified account; otherwise a fresh VERIFY_EMAIL code is issued and returned |
| AuthRoutes.NewAccount | app/routes/auth.py:83-88 | the new account is unbanned, unverified, a plain user, and its hash verifies the given password |
| AuthRoutes.Register | app/routes/auth.py:73-103 | 409 for a registered e-mail; IntegrityError for a taken username; otherwise the account is added and a pair is issued on a new session exactly as `issue_token_pair` specifies |
| AuthRoutes.RegisteredAccountGetsTokens | app/routes/auth.py:89-96 | a freshly registered account has no sessions, so its first pair is issued unless the refresh id collides |
| AuthRoutes.LoginCheck | app/routes/auth.py:129-142 | the account found by e-mail or username; 401 for no account or a wrong password; only then 403 for a banned account |
| AuthRoutes.WrongPasswordHidesBan | app/routes/auth.py:134-142 | a wrong password gives the same 401 whether or not the account is banned |
| AuthRoutes.LoginAfterRegister | app/routes/auth.py:129-139 | the registered account logs in with its password and is refused with any other |
| AuthRoutes.Login | app/routes/auth.py:123-154 | the login checks, then a pair issued on a new session as `issue_token_pair` specifies; an error changes nothing |
| AuthRoutes.ListSessions | app/routes/auth.py:216-236 | exactly the caller's sessions, each with its name and its creation and update times, marked current exactly when it holds the caller's access id; the answer also carries `MAX_USER_SESSIONS` as the limit |
| AuthRoutes.GetSession | app/routes/auth.py:258-280 | the caller's own session with the same view as the list, else 404 |
| AuthRoutes.IssuedSessionIsCurrent | app/routes/auth.py:216-236 | the session a login issues is the current one for the access token issued with it, created and updated at the login |
| AuthRoutes.RevokeSession | app/routes/auth.py:302-321 | 404 and no change unless the session is the caller's; otherwise its access id is revoked and the row deleted |
| AuthRoutes.EmailSendConfirmation | app/routes/auth.py:406-420 | 400 without an e-mail, 409 when verified, both with no new code; otherwise a fresh VERIFY_EMAIL code |
| AuthRoutes.VerifyCandidates | app/routes/auth.py:444-453 | exactly the account's live VERIFY_EMAIL codes with that value |
| AuthRoutes.VerifyEmail | app/routes/auth.py:438-465 | 404 without a live matching code; otherwise the code is deleted and the account becomes verified |
| AuthRoutes.IssuedCodeVerifies | app/routes/auth.py:444-461 | the code `send_verification_email` issues is accepted while it is live, and not a second time |
| AuthRoutes.EmailChange | app/routes/auth.py:498-520 | 400 for an empty address or one equal up to case; IntegrityError for a taken address before anything is revoked; otherwise the e-mail is set, verification cleared, every session revoked and a code issued |
| AuthRoutes.PasswordForgot | app/routes/auth.py:528-543 | a PASSWORD_RESET code for the account with that e-mail if there is one, and the same answer either way |
| AuthRoutes.ResetCandidates | app/routes/auth.py:592-603 | exactly the live PASSWORD_RESET codes with that value whose account has the e-mail |
| AuthRoutes.PasswordReset | app/routes/auth.py:586-617 | 404 without a matching code; 409 when the new password is the old one; otherwise the hash is replaced, the code deleted and every session revoked; an error changes nothing |
| AuthRoutes.ResetReplacesPassword | app/routes/auth.py:613 | after a reset the new password logs in and a different old password does not |
| AuthRoutes.PasswordChange | app/routes/auth.py:635-655 | 401 unless the old password verifies for the account with that e-mail; then a new hash and no sessions; an error changes nothing |
| UsersRoutes.GetUser | app/routes/users.py:61-80 | success exactly when the caller reads itself or is ADMIN or GOD and the account exists; 403 before 404 |
| UsersRoutes.Patched | app/routes/users.py:103-105 | the password hash is never touched by an update |
| UsersRoutes.SetFieldsPatch | app/routes/users.py:103-105 | assigning the given fields one after another in declaration order is the field-by-field update |
| UsersRoutes.UpdateTouchesOnlySetFields | app/routes/users.py:103-105 | unset fields keep their values, and applying the update a second time changes nothing more |
| UsersRoutes.UpdateSpec | app/routes/users.py:90-109 | 404 for an unknown id; success only without nulls and clashes, and then the account is the field-by-field update |
| UsersRoutes.NullFieldsSeen | app/routes/users.py:103-107 | the update has a null exactly when one of the assignments the loop makes is a null |
| UsersRoutes.GodCallerIsGod | app/routes/users.py:84-89 | the `require_role(GOD)` guard of `update_user` admits exactly the GOD role |
| UsersRoutes.UpdateUser | app/routes/users.py:84-109 | for a caller that passed `require_role(GOD)`: the assignment loop and commit give the specified result, storing the updated account or nothing |
| UsersRoutes.DeleteFlushAsWritten | app/routes/users.py:128-139 | the flush of deleting an account whose sessions were loaded fails with an IntegrityError exactly when the account has a session (the loaded sessions' NOT NULL `user_id` would be nulled, app/db/models/user.py:29-31, app/db/models/session.py:15-17), and succeeds only when no session belongs to it |
| UsersRoutes.IssuedAccountCannotBeDeleted | app/routes/users.py:128-139 | once a session has been issued to an account (registration, login, refresh), its deletion as written fails with an IntegrityError |
| UsersRoutes.DropAccount | app/db/models/session.py:15-17 | removes the account and exactly its sessions, bot links, codes and read marks (the `ON DELETE CASCADE` foreign keys), leaving no session of the account and every other row as it was |
| UsersRoutes.DeleteUser | app/routes/users.py:118-142 | as written: 403 unless the caller is the account or GOD, 404 for an unknown id, both with no change; otherwise every access id of the account's sessions is revoked, and the deletion fails with an IntegrityError (tables rolled back, revocations kept) when the account has a session, or removes the account and its dependent rows when it has none |
| UsersRoutes.DeleteUserCascading | app/routes/users.py:118-142 | as the design intends: the same 403 and 404; otherwise every access id of the account's sessions is revoked and the account is deleted with its sessions, bot links, codes and read marks, no session of it remaining |
| UsersRoutes.DeleteNeedsGod | app/routes/users.py:125-126 | anyone allowed to delete an account may also read it, and an ADMIN may read others but not delete them |
| UsersRoutes.BanUser | app/routes/users.py:151-162 | the flag update for `is_banned` to true with "User is already banned"; on success the stored account is banned |
| UsersRoutes.UnbanUser | app/routes/users.py:171-182 | the flag update for `is_banned` to false with "User is not banned" |
| UsersRoutes.VerifyUserEmail | app/routes/users.py:194-210 | the flag update for `email_verified` to true with "User email is already verified" |
| UsersRoutes.RevokeEmailVerification | app/routes/users.py:219-235 | the flag update for `email_verified` to false with "User email is not verified" |
| UsersRoutes.BannedCannotLogIn | app/routes/users.py:151-162 | once banned, the account's login is refused with 403 and no token pair is issued for it |
| Pydantic.Invalid | app/schemas/auth.py:20 | a field that fails validation is answered with status 422 |
| Pydantic.ValueError | app/schemas/auth.py:31 | a `ValueError` raised in a validator is answered with 422 and "Value error, " before its message |
| AuthSchemas.EmailCheck | app/schemas/auth.py:20 | `EmailStr`: accepted exactly when the address is valid, and then replaced by its normal form; a failure is 422 |
| AuthSchemas.PasswordCheck | app/schemas/auth.py:35-43 | accepted exactly when PASSWORD_REGEX matches the whole password |
| AuthSchemas.RegisterUsername | app/schemas/auth.py:21-33 | accepted exactly when the stripped name matches USERNAME_REGEX; the stripped name is kept |
| AuthSchemas.UsernameValidatorsAgree | app/schemas/auth.py:55-60 | the login username validator (`if v and not ...`) gives the same result as the registration one (`if not v or not ...`) on every input |
| AuthSchemas.ValidateRegister | app/schemas/auth.py:19-43 | accepted exactly when the e-mail is valid and both regexes match; the e-mail is kept in its normal form and the username stripped; failures are 422 |
| AuthSchemas.RegisterSpellingsAgree | app/schemas/auth.py:20 | two spellings with one normal form give the same registration body, so they name one account |
| AuthSchemas.OptionalCheck | app/schemas/auth.py:47-48 | an absent optional field passes; a present one passes exactly when its check does |
| AuthSchemas.OneOfEmailOrUsername | app/schemas/auth.py:72-80 | accepted exactly when one of e-mail and username is given (non-empty); the lookup uses that one; failures are 422 |
| AuthSchemas.ValidateLogin | app/schemas/auth.py:46-80 | accepted exactly when the given fields are valid, the password matches PASSWORD_REGEX and exactly one of e-mail and username is given; the lookup uses that one, the e-mail in its normal form |
| AuthSchemas.UsernameValidatorsAgreeOn | app/schemas/auth.py:48-60 | on an optional username, the two validators agree |
| AuthSchemas.LoginUsernameChecked | app/schemas/auth.py:55-60 | an accepted login username is never empty, so the regex is always applied to it |
| AuthSchemas.ValidatePasswordReset | app/schemas/auth.py:100-105 | accepted exactly when the code has `OTP_LENGTH` characters, the e-mail is valid and the new password has 8 to 32 characters; the e-mail is kept in its normal form |
| AuthSchemas.ResetAcceptsWeakerPasswords | app/schemas/auth.py:105 | "aaaaaaaa" is accepted as a reset password but refused at registration |
| AuthSchemas.ValidatePasswordChange | app/schemas/auth.py:94-97 | accepted exactly when the e-mail is valid and both passwords have 8 to 32 characters; the e-mail is kept in its normal form |
| AuthSchemas.ValidateEmailVerify | app/schemas/auth.py:112-116 | accepted exactly when the code has `OTP_LENGTH` characters and the account id is at least 1 |
| BotSchemas.ValidateBotTokenAsWritten | app/schemas/telegram/bot.py:18-26 | accepted exactly when the length is 44 to 46 and `re.match` with BOT_TOKEN_REGEX succeeds |
| BotSchemas.TokenWithNewlineAccepted | app/schemas/telegram/bot.py:19-24 | a well-shaped token of 44 or 45 characters with a newline appended passes the validator as written |
| BotSchemas.ValidateBotToken | app/schemas/telegram/bot.py:18-26 | corrected (the whole token is matched): accepted exactly when the whole token has the regex shape; an accepted token contains the colon the bot id is split at |
| BotSchemas.BotTokenValidatorsAgree | app/schemas/telegram/bot.py:18-26 | on a token that does not end in a newline, the validator as written and the corrected one agree |
| BotSchemas.ValidateUserBotUpdate | app/schemas/telegram/bot.py:59-87 | accepted exactly when the given fields are valid and exactly one of e-mail and username is given; the member is looked up by that one, the e-mail in its normal form |
| BotSchemas.DistinctIffSetSize | app/schemas/telegram/bot.py:113 | `len(set(v)) <= len(v)`, equal exactly when no item repeats |
| BotSchemas.NoDupSnoc | app/schemas/telegram/bot.py:113 | appending an item not yet present keeps a list repetition-free |
| BotSchemas.Unknown | app/schemas/telegram/bot.py:116 | exactly the items that are not known update types |
| BotSchemas.AllowedUpdatesCheck | app/schemas/telegram/bot.py:106-122 | accepted exactly when no item repeats and every item is a known update type; without repeats, a failure names the unknown items |
| BotSchemas.UnknownTypesNamed | app/schemas/telegram/bot.py:117-120 | one unknown type is named in the singular, several in the plural, joined by ", " |
| BotSchemas.MaxConnectionsCheck | app/schemas/telegram/bot.py:92 | absent, or accepted exactly when between 1 and 100 |
| BotSchemas.SecretCheckAsWritten | app/schemas/telegram/bot.py:95-104 | accepted exactly when the length is 1 to 256 and `re.match` with WEBHOOK_SECRET_REGEX succeeds |
| BotSchemas.SecretWithNewlineAccepted | app/schemas/telegram/bot.py:95-104 | a valid secret of at most 255 characters with a newline appended passes the check as written |
| BotSchemas.SecretCheck | app/schemas/telegram/bot.py:95-104 | accepted exactly when the whole secret has the regex shape |
| BotSchemas.ValidateWebhookCreate | app/schemas/telegram/bot.py:90-122 | with the corrected whole-secret match `SecretCheck`: accepted exactly when the URL is valid, the connection bound is within 1 to 100, the update types are distinct and known, and the secret has the regex shape; the URL is kept in `HttpUrl`'s normal form and the other fields as given |

## Left out

- HTTP transport is left out: the streaming of `proxy_file_request`, header filtering, the posting of updates to a webhook's redirect url, and the `bot_proxy_*` wrappers (app/routes/telegram/bots.py:885-930). They are I/O. Only their decision points are modelled: `verify_token`, the request-merge rule, and whether an answer is logged.
- Telegram client calls are left out: `get_me`, `set_webhook`, `delete_webhook`, `get_chat`, `get_webhook_info` and the file downloads. Their answers are parameters (a `Me` or a flag for accepted or not), so `get_chat_avatar` and `fetch_new_chat_info` reduce to the logging they perform.
- `get_telegram_bot` and the client object are left out. The model returns the token the client would be built with.
- Cryptography, JWT and bcrypt are left out: AES-GCM with HKDF, `create_jwt_token`/`jwt.decode`, and bcrypt. Encryption is an exact sealed box, a decoded token is a claims dictionary given as a parameter, and a password hash is an exact check. Signature and expiry failures appear only as the decode error.
- Db.HashPassword: bcrypt's salt and its 72-byte truncation are not modelled, because bcrypt is a foreign library.
- The revocation Bloom filter is an exact set. Its false positives are not modelled.
- Randomness and the clock are parameters: `secrets.token_urlsafe`, `secrets.randbelow` and the database's `now()`. Dates are integer seconds, not floats.
- E-mail delivery (`send_email`) is left out because it is I/O. `send_verification_email` is modelled up to the code it issues.
- The rate limiter, app startup, `cleanup_old_data`/`periodic_cleanup` and `get_session_name_from_user_agent` are left out. They are scheduling, concurrency or header parsing; the session name is a parameter.
- Concurrency is not modelled. This covers duplicate-insert races between requests and the uniqueness checks that a concurrent request could overtake.
- The SQL text of the queries is not modelled. `check_entities` and every other query are lookups on the in-memory tables, and a rolled-back transaction leaves the tables as they were.
- The ORM's relationship loading is not modelled (`get_message_options`, `selectinload`, `joinedload`). Only the loaded values are; `SerializeMessage` receives the loaded related objects.
- Reflection and library serialisation are replaced by the payload graph: `dir()`/`getattr`, `de_json` and `to_dict`. `de_json` is a decoder parameter. `Update.ALL_TYPES`, `EmailStr` and `HttpUrl` are parameters (`allTypes`, `emailOf`, `urlOf`). The model does not spell out which address or URL spellings the library accepts or how it rewrites them; it states only that a body keeps the returned normal form.
- Key order in dictionaries is not modelled (`Json.Dict` is a map). The rows that queries return come in an order given by the caller.
- Text.ParseNumeral: only ASCII digits are read. Python's `int()` also reads the other Unicode decimal digits (the Arabic-Indic ones, say), which the model refuses.
- ChatsService.ParseBotParam: a `bot` list written with non-ASCII decimal digits is a 400 here, where the source reads the ids (the gap of Text.ParseNumeral).
- ChatsService.ParseIds: a piece written with non-ASCII decimal digits is refused, for the same reason (the gap of Text.ParseNumeral).
- UsersRoutes.UpdateSpec: the GOD-only check of `require_role(UserRole.GOD)` is not part of this function; UsersRoutes.UpdateUser states it as its requirement `GodCaller`, as the other role-guarded routes do.
- ChatsRoutes.CursorCandidates: the candidates are a set of message ids, the listing as evidently intended. The join as written yields one row per recording bot; that listing is ChatsRoutes.CursorRows, and "## Findings" shows the repeated row it lets through.
- Text.LowerAscii stands in for Python's `str.lower`. It folds only ASCII letters, so non-ASCII e-mail addresses compare as the model says and not as Unicode case folding would.
- Pydantic.Invalid: a request with several invalid fields reports only its first failing field, not the full error list the library gives.
- Enums.ParseUserRole: `value in UserRole` is modelled as membership by value, as Python 3.12 and later define it.
- The account routes `logout`, `logout_all`, `refresh` and `me` (app/routes/auth.py:170-213, 337-400) are left out. They are thin wrappers over `logout_current_session`, `revoke_all_sessions`, `rotate_refresh_token` and the caller's row, which are modelled.
- `get_all_users` (app/routes/users.py:44-58) is left out. It is a paginated select with no rule of its own.
- The read-only bot routes `list_bots`, `get_bot`, `get_bot_users` and `get_bot_user` are left out (app/routes/telegram/bots.py:280-490). Their access decisions are `GetUserBot`, and their answers are response shaping only.
- `get_userbot_mapping` and `make_bot_response` (app/services/telegram/bots.py:73-92) are left out. They are a single lookup and a response constructor.
- `list_accessible_chats` and `get_chat_info` are modelled through their parts: the bot filter, page arithmetic and read-mark grouping. The `ORDER BY date` of the chat listing is not modelled.
- BotsService.Latest: when two rows share the newest stamp, it promises only that the row found is one of the newest. SQL leaves the choice among them open.
- The foreign-key cascades on account deletion are not tracked as an invariant. `SessionsBelong` appears only as a hypothesis of the lemmas that need it.
- Integer widths are not modelled. BIGINT columns and Python integers are unbounded here.

## Findings

| source | as written | input that shows it | evidently intended | confidence | as-written member | corrected member |
|---|---|---|---|---|---|---|
| app/services/telegram/logger.py:454-458 | a truthy `show_caption_above_media` or `reply_markup` replaces the whole cloned message dict with that value | a `copyMessage` request whose `reply_markup` is an inline keyboard: `Message.de_json` gets the keyboard and the copy is lost | set the two options as keys of the cloned dict | high, not executed | TgLogger.CopyOneAsWritten, TgLogger.CopyOneAsWrittenDropsMarkup | TgLogger.CopyOneSpec, TgLogger.CopyOneStoresCopy |
| app/services/telegram/entity_logger.py:251-289 | the four selects name the aliased tables without a join condition, so each VALUES list is cross-joined with the whole table, and `exists`/`bot_relation` test a key of a row that is always there | a payload with a Telegram user the `telegram_users` table lacks: every row reports it stored, and nothing is inserted | a left outer join of each VALUES list on its key, as `chat_photo_check_entities` does (lines 136-148) | high, not executed | EntityLogger.CheckEntitiesAsWritten, EntityLogger.AsWrittenMissesNewUser | EntityLogger.CheckEntities, EntityLogger.LogObjectStores |
| app/routes/telegram/chats.py:408-435 | the upsert looks for a row of (user, chat, thread), but the table's primary key is (user, chat) (app/db/models/telegram/read_messages.py:15-27) | marking thread 2 of a chat after thread 1: no row of thread 2 exists, and the insert clashes with the row of thread 1 | one read mark per (user, chat, thread) | medium, not executed | ChatsRoutes.MarkAsDeclared, ChatsRoutes.MarkAsDeclaredSecondThread | ChatsRoutes.MarkSpec, ChatsRoutes.MarkSecondThread |
| app/routes/telegram/bots.py:565-575 | only the promotion of an existing member to OWNER demotes the current owner | adding an account that is not yet a member as OWNER of a bot that has an owner: the bot ends up with two owners | demote every other owner whoever becomes OWNER | high, not executed | BotsRoutes.AddBotUserAsWritten, BotsRoutes.AddBotUserAsWrittenTwoOwners | BotsRoutes.AddBotUserSpec, BotsRoutes.AddBotUserKeepsOneOwner |
| app/schemas/telegram/bot.py:23 | `re.match` with a `$`-anchored pattern, whose `$` also matches before a final newline | a well-formed 45-character token followed by `"\n"` passes the validator | the pattern matched against the whole token | medium, not executed | BotSchemas.ValidateBotTokenAsWritten, BotSchemas.TokenWithNewlineAccepted | BotSchemas.ValidateBotToken, BotSchemas.BotTokenValidatorsAgree |
| app/schemas/telegram/bot.py:101 | `re.match` with a `$`-anchored pattern, whose `$` also matches before a final newline | a secret of 255 token characters followed by `"\n"` passes the validator | the pattern matched against the whole secret | medium, not executed | BotSchemas.SecretCheckAsWritten, BotSchemas.SecretWithNewlineAccepted | BotSchemas.SecretCheck, BotSchemas.ValidateWebhookCreate |
| app/routes/users.py:128-139 | `delete_user` loads the account's sessions and then deletes the account, but the relationship has `passive_deletes=True` and no delete cascade (app/db/models/user.py:29-31), so the flush sets each loaded session's NOT NULL `user_id` to NULL (app/db/models/session.py:15-17) | deleting any account that holds a session, such as one right after registration: the flush raises an IntegrityError, the account stays, and its access ids are already revoked | the sessions deleted with the account, as the `ON DELETE CASCADE` key declares | medium, not executed | UsersRoutes.DeleteUser, UsersRoutes.IssuedAccountCannotBeDeleted | UsersRoutes.DeleteUserCascading, UsersRoutes.DropAccount |
| app/routes/telegram/chats.py:307-336 | the query joins `bot_messages` and does not make its rows unique, so a message comes back once per passing bot that recorded it | an admin, `limit=1`, a chat whose only message was recorded by bots A and B: the rows are that message twice, the page reports `has_more` and a `next_cursor` at it, and following the cursor is a 404 | each message fetched once (distinct ids) | medium, not executed | ChatsRoutes.CursorRows, ChatsRoutes.RepeatedRowsAsWritten | ChatsRoutes.CursorPageBounded, ChatsRoutes.CursorPagesSplit |
