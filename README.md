# whatsapp-telegram bridge: access control and session bookkeeping in Dafny

This project models the bookkeeping core of a bridge that lets approved Telegram
users control WhatsApp accounts. It covers three source files:

- **telegram_bot.js** (`telegram_bot.dfy`, module `TelegramBot`): the handlers as steps on the
  global `BOT_CONFIG` object, modelled as the class `BotConfig`. These are `/start`,
  `/request_passkey`, `/verify`, `/link`, the `callback_query` prefix dispatch with the keep/delete
  review filter, and the admin commands `/add_user`, `/remove_user` and `/view_user`. Each
  state-changing handler is proved equal to a pure transition on the value `BotState`
  (`AfterVerify`, `AfterCallback`, …). The lemmas about those transitions cover admission,
  one-time use of a passkey, key collisions, callback-data round trips and idempotent review.
- **whatsapp_bot.js** (`whatsapp_bot.dfy`, module `WhatsAppBot`): the static registry
  `activeSessions` (user id → number → socket) of `WhatsAppManager`. The model covers
  `startSession`, `stopSession`, the close/open bookkeeping of `connection.update`, the
  `messages.upsert` auto-delete filter, `listActiveSessions`, `startAllSessions` and the bridge
  from the Telegram events. It proves per-pair idempotence, frame properties and what a restore
  run leaves registered.
- **utils.js** (`utils.dfy`, module `Utils`): the module-level `CONFIG` plus the per-number
  deleted-message files, modelled as the class `Config`. It covers `getUser`, `addUser`,
  `removeUser`, `logUserActivity`, `assignPasskey`, `validatePasskey`, the capped FIFO log of
  `saveDeletedMessage`, and the name filter of `listWhatsAppSessions`.
- `passkey.dfy` (module `Passkey`) holds `generatePasskey`. The source defines it twice with the
  same loop (telegram_bot.js:33-37, utils.js:83-87). Only the default `length` differs:
  `BOT_CONFIG.passkey_length` in one, `CONFIG.passkey_length` in the other. The model takes the
  length as a parameter. `strings.dfy` models the JavaScript string operations the handlers use:
  `startsWith`, `endsWith`, `indexOf`, `replace` and `split`.
  `wrappers.dfy` holds `Option`, which stands for `undefined`.

Values the program gets from outside are parameters:

- each random digit of a passkey (`Math.floor(Math.random() * 10)`, so a `Digit` 0–9);
- each timestamp;
- the socket that the WhatsApp library hands back, or `None` when setting it up throws;
- whether `logout()` succeeds;
- whether each network delete call succeeds.

Messages the Telegram bot sends are returned as `Outgoing` notices. Their texts are left out, but
the data they carry is kept.

Where the documented design and the code differ, the model follows the code:

- `startAllSessions` has no try/catch. The first `startSession` that throws ends the restore run
  (`RunStarts`). The design says a failure on one number should not stop the others.
- Every user gate tests only that the id has a record. The `active` flag is never read, so a user
  that the admin added but that is not active can still link numbers (`InactiveUserMayLink`).
- `startSession` on a pair that is already running returns nothing. It does not return the
  existing socket.
- A `/verify` that fails leaves the key in place, whoever sent it. Only a successful redemption
  deletes the key.
- `validatePasskey` in utils.js also refuses a key whose stored id is the empty string, because
  that string is falsy in JavaScript.

## Model

| member | source | states |
|---|---|---|
| `Passkey.GeneratePasskey` | telegram_bot.js:33-37 | the key has exactly `length` characters, each a decimal digit, and its character i is the rendering of draw i |
| `Passkey.DigitString` | utils.js:83-87 | the key spelled by the draws has one digit character per draw, in the order drawn |
| `Passkey.DigitStringInjective` | telegram_bot.js:33-37 | different draw sequences give different keys (the digits can be read back off the key) |
| `Strings.ReplaceLeadingPattern` | telegram_bot.js:138-139 | once `data.startsWith(p)` holds, `data.replace(p, "")` drops exactly that leading prefix |
| `Strings.JoinSplit` | telegram_bot.js:157 | `split` on one character loses nothing: joining the fields back gives the original string |
| `Strings.SplitAtFirstSeparator` | telegram_bot.js:157 | the text before the first separator is the first field and the rest splits on its own |
| `Utils.Config.Defaults` | utils.js:20-33 | the configuration written when no file exists: no users or passkeys, passkey length 6, limit 1000, both logging flags on, `auto_delete` unset |
| `Utils.Config.GetUser` | utils.js:51-53 | the lookup yields a record exactly when the id is present, and then that id's record |
| `Utils.Config.AddUser` | utils.js:55-61 | returns false and changes nothing for an existing id; otherwise returns true and the id maps to `{numbers: [], activity_log: [], active: false}` |
| `Utils.Config.RemoveUser` | utils.js:63-68 | returns the previous record (None if absent); afterwards the id is absent and every other user is unchanged |
| `Utils.Config.LogUserActivity` | utils.js:70-78 | no change when activity logging is off or the user is unknown; otherwise exactly one `{time, message}` is appended at the end of that user's activity log |
| `Utils.Config.AssignPasskey` | utils.js:89-94 | the key is `passkey_length` digits and afterwards maps to the user; every other entry is unchanged, and an entry with the same key is overwritten |
| `Utils.Config.ValidatePasskey` | utils.js:96-102 | true exactly when the key maps to a non-empty id equal to the caller's; true removes the key and false changes nothing |
| `Utils.AssignThenValidate` | utils.js:89-102 | a key assigned to a non-empty id validates for that id, and validating it takes back exactly that entry |
| `Utils.ValidateConsumesKey` | utils.js:96-102 | after a successful validation nobody can validate the same key again |
| `Utils.OtherUsersKeyRefused` | utils.js:97-98 | a key issued to another id never validates for the caller |
| `Utils.RemoveUndoesAdd` | utils.js:55-68 | removing an id that was just added to a state without it gives back the original users |
| `Utils.Config.SaveDeletedMessage` | utils.js:129-143 | no change when deletion logging is off; otherwise that number's file becomes the last `limit` entries of the old file followed by the new `{time, message}` (a missing file reads as empty) |
| `Utils.KeepLast` | utils.js:138-140 | the capped log has length min(len, limit) and is the newest suffix of the history |
| `Utils.SaveBelowLimitAppends` | utils.js:138-140 | while the old log is shorter than the limit, saving is exactly `old ++ [entry]` |
| `Utils.SaveKeepsNewest` | utils.js:138-140 | with a positive limit the entry just saved is always kept, as the newest |
| `Utils.KeepLastOfKeepLast` | utils.js:138-140 | FIFO eviction: capping, appending more and capping again is the same as capping the whole history |
| `Utils.ZeroLimitKeepsEverything` | utils.js:140 | as written, a limit of 0 makes `slice(-0)` keep the whole log, so the log exceeds its limit |
| `Utils.AsWrittenAgreesForPositiveLimit` | utils.js:140 | for every positive limit the cap as written equals `KeepLast` |
| `Utils.SessionNames` | utils.js:123 | every listed name plus `.json` is an entry of the directory, and there are no more names than entries |
| `Utils.SessionNamesExact` | utils.js:123 | a name is listed exactly when the directory holds that name followed by `.json` |
| `TelegramBot.BotConfig.Defaults` | telegram_bot.js:16-23 | the configuration written when no file exists: no users or passkeys, empty admin id, admin notification on, passkey length 6 |
| `TelegramBot.BotConfig.OnStart` | telegram_bot.js:74-83 | a registered id is welcomed; an unregistered id gets "not registered" and the admin is told only when the notify flag is set; no state changes |
| `TelegramBot.AfterRequestPasskey` | telegram_bot.js:85-94 | a registered id changes nothing; otherwise the new key maps to the requester, the users stay and no other key is touched |
| `TelegramBot.BotConfig.OnRequestPasskey` | telegram_bot.js:85-94 | the new state is `AfterRequestPasskey` with the generated key; the admin receives the requester's id together with the key, and the requester only a confirmation |
| `TelegramBot.AfterVerify` | telegram_bot.js:96-107 | when the key maps to the caller, the caller's record becomes `{active: true, numbers: [], deleted_messages: []}` and the key is gone; otherwise nothing changes; other users and keys never change |
| `TelegramBot.BotConfig.OnVerify` | telegram_bot.js:96-107 | the new state is `AfterVerify`, and the reply is "granted" exactly when the key mapped to the caller |
| `TelegramBot.RequestThenVerify` | telegram_bot.js:85-106 | an unregistered id that requests a key and redeems it ends up active with empty lists, and the key is consumed |
| `TelegramBot.VerifyConsumesKey` | telegram_bot.js:99-101 | after a successful `/verify` nobody can redeem the same key, and a repeat changes nothing |
| `TelegramBot.CollidingRequestRevokesKey` | telegram_bot.js:88-89 | keys are not checked for collisions: a second requester that draws the same key takes it over from the first |
| `TelegramBot.AfterAddUser` | telegram_bot.js:199-205 | a caller other than exactly `admin_id` changes nothing; otherwise the target is set to `{active: false, numbers: [], deleted_messages: []}`, overwriting any record |
| `TelegramBot.BotConfig.OnAddUser` | telegram_bot.js:199-205 | the new state is `AfterAddUser`, and only the admin gets a reply |
| `TelegramBot.AfterRemoveUser` | telegram_bot.js:207-213 | a non-admin caller changes nothing; otherwise the target is absent and all other users are unchanged |
| `TelegramBot.BotConfig.OnRemoveUser` | telegram_bot.js:207-213 | the new state is `AfterRemoveUser`, and only the admin gets a reply |
| `TelegramBot.AddThenRemoveLeavesNoRecord` | telegram_bot.js:199-213 | adding and then removing a target leaves it absent, and on a new id gives back the original state |
| `TelegramBot.BotConfig.OnViewUser` | telegram_bot.js:215-220 | only the admin gets a reply: the target's record, or "not found" |
| `TelegramBot.BotConfig.OnLink` | telegram_bot.js:112-129 | an unregistered id is refused; otherwise the reply offers the three buttons `link_qr_<n>`, `link_num_<n>` and `unlink_<n>` |
| `TelegramBot.Route` | telegram_bot.js:138-166 | whatever the dispatch recognises is exactly the button data of the action it returns (prefix plus number or id) |
| `TelegramBot.RouteButtonData` | telegram_bot.js:138-153 | every button's data dispatches back to the action it was made for |
| `TelegramBot.LinkKeyboardRoutes` | telegram_bot.js:120-126 | the `/link` buttons dispatch to a QR link, a phone-code link and an unlink of the same number |
| `TelegramBot.ReviewKeyboardRoutes` | telegram_bot.js:188-189 | the review buttons dispatch to keeping or purging exactly that message id |
| `TelegramBot.AsWrittenIdStopsAtUnderscore` | telegram_bot.js:157 | `split("_")[1]` of a review button gives the id up to its first underscore, so it equals the id exactly when the id has no underscore |
| `TelegramBot.AsWrittenIdCounterexample` | telegram_bot.js:157 | on `keep_a_b` the code as written reviews id `a`, while the button was made for `a_b` |
| `TelegramBot.AsWrittenAgreesWithoutUnderscore` | telegram_bot.js:157 | on ids without an underscore the dispatch in the model reviews the same id as the code as written |
| `TelegramBot.RemoveId` | telegram_bot.js:159 | the filtered list holds exactly the entries whose id differs, and is no longer than the original |
| `TelegramBot.RemoveIdConcat` | telegram_bot.js:159 | the filter keeps the remaining entries in their order (it distributes over concatenation) |
| `TelegramBot.RemoveIdAbsent` | telegram_bot.js:159 | a list with no entry of that id is left as it is |
| `TelegramBot.RemoveIdIdempotent` | telegram_bot.js:159-162 | filtering the same id twice is the same as filtering it once |
| `TelegramBot.AfterCallback` | telegram_bot.js:131-169 | an unregistered caller, or data that is not a review, changes nothing; a review drops from the caller's `deleted_messages` exactly the entries with that id (a missing list stays missing); no other user, no key and no setting changes |
| `TelegramBot.CallbackEvent` | telegram_bot.js:136-151 | an event is emitted exactly for a registered caller with link or unlink data; it carries the caller's own id and the number with the prefix removed; link data emits `link_whatsapp` with the method the prefix names, unlink data emits `unlink_whatsapp` |
| `TelegramBot.LinkKeyboardEmits` | telegram_bot.js:136-151 | for every registered caller, the three `/link` buttons emit `link_whatsapp` with method qr, `link_whatsapp` with method phone, and `unlink_whatsapp`, each for that caller and number |
| `TelegramBot.BotConfig.OnCallbackQuery` | telegram_bot.js:131-169 | the new state is `AfterCallback` and the event is `CallbackEvent`; the reply is "not authorized", a linking or unlinking notice with the method, or keep/purge (nothing when the record has no `deleted_messages`) |
| `TelegramBot.ReviewData` | telegram_bot.js:153-164 | for a registered caller, both review buttons of a message drop exactly that id from its list, if it has one; an unregistered caller changes nothing |
| `TelegramBot.ReviewIsIdempotent` | telegram_bot.js:153-165 | `keep_<id>` and `delete_<id>` change the state identically, and repeating either is a no-op |
| `TelegramBot.InactiveUserMayLink` | telegram_bot.js:136-141 | the gate checks presence only: an inactive user that the admin added can still start a link |
| `WhatsAppBot.AfterStart` | whatsapp_bot.js:47-141 | a running pair is left as is; otherwise the pair gets the new socket (none if setup threw); every other pair is unchanged and the user's inner map exists |
| `WhatsAppBot.Deregister` | whatsapp_bot.js:147-155 | afterwards the pair has no socket, and every other pair and every user key is unchanged |
| `WhatsAppBot.StartTwiceKeepsOneSocket` | whatsapp_bot.js:51-52 | once a pair has a socket, a second start returns "already running" and changes nothing, so there is exactly one socket |
| `WhatsAppBot.StopUndoesStart` | whatsapp_bot.js:139-155 | stopping a pair that was just started leaves every pair's socket as it was before the start |
| `WhatsAppBot.WhatsAppManager.StartSession` | whatsapp_bot.js:47-141 | the registry becomes `AfterStart`, and the result says "already running", "started with this socket" or "failed" accordingly |
| `WhatsAppBot.WhatsAppManager.StopSession` | whatsapp_bot.js:143-156 | the pair is deregistered whether or not logout succeeds (absent pair: no-op); the unlinked notice goes out only if it was present and logout succeeded |
| `WhatsAppBot.WhatsAppManager.OnConnectionUpdate` | whatsapp_bot.js:94-101 | a `close` update deregisters that session's pair; `open` or any other update leaves the registry unchanged |
| `WhatsAppBot.WhatsAppManager.ListActiveSessions` | whatsapp_bot.js:158-161 | with no id (or a falsy empty id) the whole registry; otherwise exactly that user's sessions, empty if unknown; never changes state |
| `WhatsAppBot.DeletedEntries` | whatsapp_bot.js:107-126 | a batch produces no more log entries than it has messages |
| `WhatsAppBot.DeletedEntriesAtMostOnce` | whatsapp_bot.js:109-124 | in a batch of distinct messages, no message is logged twice |
| `WhatsAppBot.DeletedEntriesSound` | whatsapp_bot.js:109-124 | every logged entry is an outgoing message with content from the batch, and entries appear only when `auto_delete` is set |
| `WhatsAppBot.DeletedEntriesComplete` | whatsapp_bot.js:109-124 | every outgoing message whose delete call succeeds is logged, whatever happened to earlier messages |
| `WhatsAppBot.DeletedEntriesNeedSuccess` | whatsapp_bot.js:116-123 | a message whose delete call throws is not logged |
| `WhatsAppBot.WhatsAppManager.OnMessagesUpsert` | whatsapp_bot.js:107-126 | the deleted messages are those of `DeletedEntries`, in batch order, and the number's file becomes the last `limit` entries of its old contents followed by them |
| `WhatsAppBot.PairsExact` | whatsapp_bot.js:197-201 | the nested loop visits (u, n) exactly when u is listed and n is one of u's numbers |
| `WhatsAppBot.RunStartsKeepsRegistered` | whatsapp_bot.js:195-202 | a restore run never removes or replaces a registered socket |
| `WhatsAppBot.RunStartsRegistersAll` | whatsapp_bot.js:195-202 | a run that completes leaves a socket registered for every pair it visited |
| `WhatsAppBot.RunStartsFrame` | whatsapp_bot.js:195-202 | pairs the run does not visit keep their entries |
| `WhatsAppBot.RestoreRegistersEveryNumber` | whatsapp_bot.js:195-202 | when no start throws, every number of every user has a socket afterwards, and sessions of ids that are not users are untouched |
| `WhatsAppBot.WhatsAppManager.StartAllSessions` | whatsapp_bot.js:195-204 | the registry and the completion flag are those of starting every (user, number) pair in the given order of users (`Object.entries`), stopping at the first start that throws |
| `WhatsAppBot.WhatsAppManager.OnTelegramEvent` | whatsapp_bot.js:220-227 | `link_whatsapp` starts the event's (user, number) session and `unlink_whatsapp` stops it |

## Findings

| source | as written | input that shows it | evidently intended | confidence | as-written member | corrected member |
|---|---|---|---|---|---|---|
| telegram_bot.js:157 | the reviewed id is `data.split("_")[1]`, which stops at the next underscore | the button `keep_a_b`, made for message id `a_b`, filters out id `a` instead | the id is the data with its `keep_`/`delete_` prefix removed, as the link branches do with `replace` | medium (WhatsApp ids rarely contain `_`); not executed | `TelegramBot.AsWrittenIdCounterexample` | `TelegramBot.RouteButtonData` |
| utils.js:140 | the cap is `messages.slice(-limit)`, and `-0` is `0` | with `deleted_messages_limit` 0, every save keeps the whole file, so its length is at least 1 | the file never holds more than `limit` entries | medium (a limit of 0 may be unusual); not executed | `Utils.ZeroLimitKeepsEverything` | `Utils.KeepLast` |

The rest of the model uses the corrected definitions. `Route` removes the prefix, and
`Config.SaveDeletedMessage` keeps `KeepLast`. `AsWrittenAgreesWithoutUnderscore` and
`AsWrittenAgreesForPositiveLimit` show that the corrected and as-written versions agree everywhere
else.

## Left out

- Persistence: `loadConfig`, `saveConfig`, all `fs` calls, and the per-number session files
  (`saveWhatsAppSession`, `loadWhatsAppSession`). Each operation is modelled as the state after it.
  The deleted-message files are modelled as a map from number to entries, and a missing file reads
  as empty. `loadDeletedMessages` and `clearDeletedMessages` are file reads and deletions that no
  handler calls.
- The two configuration objects (`BOT_CONFIG` in telegram_bot.js and `CONFIG` in utils.js) are
  kept separate, each with its own user shape. They are not reconciled.
- Telegram transport: message texts, Markdown, `answerCallbackQuery`, and the `onText` regular
  expressions. Those patterns match anywhere in a message, and the model takes the sender id,
  chat id, key and target as parameters.
- Bot-token resolution through the environment, the file or the console (telegram_bot.js:45-62).
- `/deleted_messages` rendering (telegram_bot.js:174-193), which is presentation only. As written
  it also has an unbalanced `]` at line 191. The model keeps only the shape of its buttons
  (`ReviewKeyboard`). `/list_users` (telegram_bot.js:222-228) is a rendering of the users map.
- The WhatsApp library: `makeWASocket`, `useMultiFileAuthState`, `fetchLatestBaileysVersion`,
  `creds.update`, `logout` and the delete `sendMessage`. Their outcomes are parameters.
- QR rendering and the `notifyUser` texts of whatsapp_bot.js. This includes the QR or pairing-code
  forwarding chosen by the link method, and the connected, closed and auto-deleted notices. Only
  the unlinked notice of `stopSession` is kept, as a flag.
- The session metadata written at whatsapp_bot.js:131-137. `loadWhatsAppSession` is not awaited,
  so the default there is never used.
- `watchAllSessions` (whatsapp_bot.js:166-189). It re-attaches duplicate listeners, which is about
  event subscription rather than state. `runWhatsAppBot` and its `setInterval` are also left out.
- Async interleaving. Each handler is one atomic step. In the source, `startSession` awaits between
  creating the user's inner map and registering the socket. Two overlapping starts for one pair
  can therefore both build sockets, and a late `close` event of an old socket can remove a newer
  socket of the same pair. Neither interleaving is modelled.
- `WhatsAppBot.WhatsAppManager.OnMessagesUpsert`: does not model that `saveDeletedMessage` is not
  awaited (whatsapp_bot.js:118). Each save reads the number's file, awaits, and writes it back,
  detached from the loop. Saves from one batch, or from the duplicate listeners that
  `watchAllSessions` attaches, can therefore overwrite each other and lose entries. A rejected save
  also escapes the try/catch at lines 116-123. The model states the sequential result: the last
  `limit` entries of the old file followed by the batch's entries.
- `listActiveSessions` returns the live registry object, so callers can mutate it. The model
  returns a copy.
- Numbers are `nat`. A negative or fractional `passkey_length` or `deleted_messages_limit` is not
  modelled.
- JavaScript object-key details, such as keys named like `Object.prototype` members and the
  ordering of integer-like keys in `Object.entries`. Iteration order is a parameter that lists
  each user once.
