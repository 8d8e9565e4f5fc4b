# vendowa-websocket: the real-time relay, modelled in Dafny

The service sits between a Laravel backend and browser clients. The backend
POSTs domain events (product, stock, order and category changes) to a webhook
signed with HMAC-SHA256. The service checks the signature, would write a
descriptive log line for the known event types, stamps the payload with the
server time and broadcasts it to every client in the socket.io room
`broadcast`. As written, the logging call throws for every known event type,
and for an `undefined` one, before the broadcast (see Findings), so only
events of other types are relayed. Clients connect over socket.io. The server
either admits them as guests, or checks their Sanctum token against the
backend's `/auth/me` endpoint and admits them as users. Each admitted
connection joins a per-user room and the broadcast room, plus a per-role room
when the user has a role. The service also has a console logger with a level
threshold and a capped in-memory log buffer.

The model is organised by source file:

| module | file | form |
|---|---|---|
| `Js` | (the JavaScript values the code handles) | datatypes and functions |
| `Logger` | `src/utils/logger.js` | functions and lemmas |
| `LogStore` | `src/utils/log-store.js` | the `Store` class, plus the functions specifying it |
| `Rooms` | the socket.io rooms the code drives | the `Registry` class, plus functions and lemmas |
| `SocketHandlers` | `src/socket/handlers.js` | methods on `Registry`, plus functions |
| `SocketAuth` | `src/socket/auth.js` | pure decision table, the `Socket` class, the connection handler |
| `SocketServer` | `src/socket/index.js` | functions (CORS origins), and a method (log hook) |
| `WebhookVerify` | `src/webhook/verify.js` | functions and lemmas |
| `WebhookHandlers` | `src/webhook/handlers.js` | functions, lemmas and a method on `Registry` |
| `WebhookRoutes` | `src/webhook/routes.js` | request-to-response functions and lemmas |

These choices are common to every module:

- JavaScript values are the `Js.Json` datatype. Truthiness, `||`, `??` and
  property reads (a read on `undefined`/`null` throws) are written out, as are
  template-literal rendering and object spread.
- HMAC-SHA256, `JSON.stringify` and the `fetch` of `/auth/me` are library
  calls. They enter the model as function-typed parameters. A digest is any
  32-byte sequence.
- The clock (`Date.now()`, `new Date().toISOString()`) enters as a parameter.
- Node's `Buffer.from(s, 'hex')` is written out. It decodes pairs of hex
  digits and stops at the first pair that is not two hex digits. This is why
  a valid signature followed by junk is still accepted.
- The webhook routes take the relay (`handleWebhookEvent`) as a parameter.
  The same route functions are then read twice: with the relay as written,
  which throws (see Findings), and with the corrected relay.

Some behaviour of the code is easy to misread; the model follows the code:

- A guest's role is the truthy string `"guest"`, so guests join
  `role:guest` as well as `user:guest_<id>` and `broadcast`; no connection
  skips the role room because it is a guest (`SocketAuth.GuestRooms`).
- A batch item that is `null` or `undefined` fails while its parameter is
  destructured, which is outside the per-item `try`, so the whole batch
  answers 500 and the items before it have already been relayed
  (`WebhookRoutes.RunBatchPerItem`, `WebhookRoutes.BatchAbortedByNullishItem`).
- A failing batch item reports the raw exception message (`{error: err.message, event}`).
- `src/socket/index.js` imports `onLog`, but `src/utils/log-store.js` does
  not export it. `SocketServer.PushLogEntry` models the routing rule the
  hook was meant to apply: each new entry goes to room `logs-ui` as
  `logs:new`.

## Model

| member | source | states |
|---|---|---|
| Logger.LookupRank | src/utils/logger.js:1-9 | `LOG_LEVELS[key]` is defined exactly for the four level names, and gives that level's rank. |
| Logger.CurrentLevel | src/utils/logger.js:8-10 | The threshold is INFO's rank, or the rank of a level other than ERROR whose name is the upper-cased setting. |
| Logger.CurrentLevelRange | src/utils/logger.js:8-10 | Every `LOG_LEVEL` setting (unset, empty, any string) parses to a threshold between WARN and DEBUG. |
| Logger.ErrorsAlwaysEmitted | src/utils/logger.js:8-19 | `logger.error` writes whatever the setting is. |
| Logger.EmitMonotone | src/utils/logger.js:15-34 | If a level is written, every more severe level is written too. |
| Logger.DefaultIsInfo | src/utils/logger.js:8-10 | An unset, empty or unrecognised setting gives INFO. |
| Logger.CaseInsensitive | src/utils/logger.js:9 | Any letter case of WARN, INFO or DEBUG selects that level. |
| Logger.SameUpperSameLevel | src/utils/logger.js:9 | Two settings with the same upper-case form select the same threshold. |
| Logger.ErrorSettingGivesInfo | src/utils/logger.js:9 | As written, `LOG_LEVEL=error` gives INFO, so warnings and info messages are still written. |
| Logger.IntendedSelectsNamedLevel | src/utils/logger.js:8-34 | Under the corrected parse, naming a level in any case writes exactly that level and the more severe ones. |
| LogStore.AddedBoundedFront | src/utils/log-store.js:4-14 | Adding an entry keeps the buffer within 200 entries, with the new entry first. |
| LogStore.AddedBelowCap | src/utils/log-store.js:4-9 | Below the cap, adding only prepends; nothing is lost. |
| LogStore.AddedAtCap | src/utils/log-store.js:11-13 | At the cap, adding evicts exactly the oldest entry. |
| LogStore.Added | src/utils/log-store.js:4-14 | The new buffer starts with the new entry, followed by a prefix of the old buffer; from a buffer within the cap it has `min(old length + 1, 200)` entries. |
| LogStore.ReplayKeepsNewest | src/utils/log-store.js:1-14 | After any sequence of additions, the buffer is exactly the 200 most recent entries, newest first. |
| LogStore.Store.constructor | src/utils/log-store.js:1-2 | The buffer starts empty. |
| LogStore.Store.AddLog | src/utils/log-store.js:4-14 | `addLog` changes the buffer to `Added(old buffer, entry)` and keeps it within the cap. |
| LogStore.Store.GetRecentLogs | src/utils/log-store.js:16-18 | `getRecentLogs` returns the whole buffer, because the buffer never holds more than the slice bound. |
| Rooms.WithMember | src/socket/auth.js:90 | A join adds the room to the registry's room names and removes none. |
| Rooms.JoinAll | src/socket/auth.js:89-98 | After a sequence of joins the registry's room names are its old names plus exactly the names joined. |
| Rooms.JoinIdempotent | src/socket/auth.js:90-97 | Joining a room twice is the same as joining it once. |
| Rooms.JoinMembership | src/socket/auth.js:90-97 | A join makes the socket a member of that room and changes no other membership. |
| Rooms.JoinAllRooms | src/socket/auth.js:89-98 | After a sequence of joins, the socket's rooms are its old rooms plus exactly the rooms named; other sockets' rooms are unchanged. |
| Rooms.JoinAllIdempotent | src/socket/auth.js:89-98 | Repeating the connection joins leaves the registry as it was after the first time. |
| Rooms.JoinAllKeepsMembers | src/socket/auth.js:89-98 | Joins never remove a membership; every named room exists afterwards and contains the socket. |
| Rooms.JoinAllRejoin | src/socket/auth.js:89-98 | Joining rooms the socket is already in changes nothing. |
| Rooms.Deliver | src/socket/handlers.js:42 | Emitting to a room keeps the set of connections that have an outbox. |
| Rooms.DeliverExactly | src/socket/handlers.js:42 | An emit reaches exactly the room's members that are connected. It appends exactly the packet to each of them and keeps all earlier packets. |
| Rooms.Registry.constructor | src/socket/index.js:15-24 | A new server has no rooms, outboxes or sockets. |
| Rooms.Registry.Register | src/socket/auth.js:83-85 | An admitted socket is recorded as connected and gets an outbox; rooms are untouched. |
| Rooms.Registry.Join | src/socket/auth.js:90 | `socket.join(room)` is a `WithMember` step; only the rooms change. |
| Rooms.Registry.Emit | src/socket/handlers.js:42 | `io.to(room).emit` delivers one packet to the room's current members; only the outboxes change. |
| SocketHandlers.SyncEventsDistinct | src/socket/handlers.js:6-21 | There are nine event tags, pairwise distinct. |
| SocketHandlers.ClientCountIsRecipients | src/socket/handlers.js:28-29 | The client count that is logged equals the number of connections the broadcast then reaches. |
| SocketHandlers.BroadcastEvent | src/socket/handlers.js:26-43 | The method sends the event to every member of `broadcast` and changes only the outboxes. `broadcastEvent` returns nothing; the method's output exposes the client count it logs. |
| SocketHandlers.SendToUser | src/socket/handlers.js:48-51 | The method sends to the members of `user:<userId>` and no one else. |
| SocketHandlers.SendToRole | src/socket/handlers.js:56-59 | The method sends to the members of `role:<role>` and no one else. |
| SocketHandlers.Dedup | src/socket/handlers.js:68 | `[...new Set(xs)]` has the same elements as `xs`, no duplicates, and is no longer than `xs`. |
| SocketHandlers.DedupFirstOccurrenceOrder | src/socket/handlers.js:68 | The deduplicated values keep the order of their first occurrences. |
| SocketHandlers.GetConnectedClients | src/socket/handlers.js:64-70 | The total is the number of sockets. The users are exactly the sockets' user ids, each once. |
| SocketHandlers.UniqueUsersCount | src/socket/handlers.js:64-70 | The number of users is the number of distinct user ids among the sockets. |
| SocketAuth.GuestAdmission | src/socket/auth.js:38-48 | With no token and `guest === true`, the socket is admitted as guest `guest_<id>` with role `guest`, and the backend is not consulted. |
| SocketAuth.NoTokenNoGuestRefused | src/socket/auth.js:39-53 | With no token, any guest flag other than the boolean `true` is refused with "Authentication token required". |
| SocketAuth.TokenGoesToBackend | src/socket/auth.js:42-56 | With a truthy token, only the backend's answer decides the verdict; the guest flag is ignored. |
| SocketAuth.BackendFailuresLookAlike | src/socket/auth.js:9-30 | An error status, an exception, a `null` body or a falsy user are all refused with the one message "Invalid or expired token". |
| SocketAuth.BackendSuccess | src/socket/auth.js:24-68 | On success the identity is taken from `data.user || data`, with `role || user_type` as role, and the socket is not a guest. |
| SocketAuth.ValidateToken | src/socket/auth.js:9-30 | A failed fetch, or a successful one with a `null` body, gives `null`; any other successful fetch gives `data.user` when it is truthy and `data` otherwise, so a truthy body always gives a truthy user. |
| SocketAuth.AuthenticateSocket | src/socket/auth.js:37-76 | A socket is admitted if and only if it has no token and `guest === true`, or a truthy token the backend validates; it is a guest exactly when it has no token; a refusal gives "Invalid or expired token" when a token was sent and "Authentication token required" otherwise. |
| SocketAuth.ConnectionRooms | src/socket/auth.js:89-98 | The connection handler joins the user room and `broadcast`, plus the role room exactly when the role is truthy. |
| SocketAuth.ConnectionRoomCount | src/socket/auth.js:89-98 | The room names never coincide, so a connection is in three rooms with a truthy role and in two otherwise. |
| SocketAuth.AdmittedRooms | src/socket/auth.js:89-98 | A new connection ends up in exactly those rooms and no others. |
| SocketAuth.GuestRooms | src/socket/auth.js:43-97 | A guest joins `user:guest_<id>`, `broadcast` and `role:guest`. |
| SocketAuth.Socket.constructor | src/socket/auth.js:37-38 | A socket starts with every identity field `undefined`. |
| SocketAuth.Socket.Authenticate | src/socket/auth.js:37-76 | The middleware passes `next` the error of the decision table; on admission it sets the identity fields, and on refusal it leaves them alone. |
| SocketAuth.OnConnection | src/socket/auth.js:85-98 | The connection handler performs exactly the joins of `ConnectionRooms`, in order; only the rooms change. |
| SocketServer.Split | src/socket/index.js:13 | `split(',')` gives at least one piece, and no piece contains a comma. |
| SocketServer.SplitCount | src/socket/index.js:13 | Splitting gives one more piece than there are commas. |
| SocketServer.SplitJoin | src/socket/index.js:13 | Joining the pieces with commas gives back the setting. |
| SocketServer.JoinSplit | src/socket/index.js:13 | Splitting a comma-join of comma-free pieces gives back the pieces. |
| SocketServer.Trim | src/socket/index.js:13 | `trim()` gives an infix that neither starts nor ends with white space; only white space is removed around it. |
| SocketServer.CorsList | src/socket/index.js:11-13 | Any setting other than exactly `*` becomes a list with one trimmed entry per comma-separated piece, in order. |
| SocketServer.CorsOrigins | src/socket/index.js:11-13 | The setting is the wildcard if and only if it is exactly `*`; otherwise it is a non-empty list whose entries do not start with white space. |
| SocketServer.PaddedStarIsAList | src/socket/index.js:11-13 | `" * "` is not the wildcard: it becomes the list `["*"]`. |
| SocketServer.PushLogEntry | src/socket/index.js:29-31 | A log entry is sent as `logs:new` to exactly the members of `logs-ui`. |
| WebhookVerify.HexEncode | src/webhook/verify.js:30-33 | `digest('hex')` gives two characters per byte. |
| WebhookVerify.HexDecode | src/webhook/verify.js:45-46 | `Buffer.from(s, 'hex')` gives at most one byte per two characters. |
| WebhookVerify.VerifySignature | src/webhook/verify.js:9-62 | The gate passes only a present signature, under a present secret, with a payload to sign, that decodes to the HMAC of that payload. Every rejection is 401 for a missing or invalid signature, or 500 for the configuration error or for hashing an `undefined` body (no raw body), which throws and reaches the error handler. |
| WebhookVerify.GenerateSignature | src/webhook/verify.js:67-76 | A signature is generated exactly when the secret is set and the payload is not `undefined` (for which `JSON.stringify` gives `undefined` and `update` throws); it is 64 hex characters decoding to the HMAC of a string payload, or of the serialised payload. |
| WebhookVerify.HexRoundTrip | src/webhook/verify.js:30-46 | Decoding a hex digest gives back the digest's bytes. |
| WebhookVerify.MissingSignatureFirst | src/webhook/verify.js:10-18 | A missing or empty signature header gets 401 "Missing webhook signature", whatever the configuration. |
| WebhookVerify.UnsetSecretIsServerError | src/webhook/verify.js:20-26 | A signed request with the secret unset gets 500 "Server configuration error". |
| WebhookVerify.AcceptExactlyMatchingDigest | src/webhook/verify.js:28-61 | A signed request passes if and only if there is a payload and its decoded header equals the HMAC of the raw body (or of the serialised body). Without a raw body and with an `undefined` body the answer is 500 "Internal server error"; any other outcome is 401 "Invalid webhook signature". |
| WebhookVerify.GeneratedSignatureAccepted | src/webhook/verify.js:67-76 | A signature generated for a raw body string passes the gate for a request carrying that raw body. |
| WebhookVerify.GeneratedSignatureAcceptedParsed | src/webhook/verify.js:67-76 | A signature generated for a parsed payload passes the gate for a request that has the same body and no raw body, for every body other than a string or `undefined`. |
| WebhookVerify.FlippedDigitRejected | src/webhook/verify.js:44-58 | Changing any one of the 64 hex digits of a valid signature makes the gate reject it. |
| WebhookVerify.HexDecodeStopsAtNonHex | src/webhook/verify.js:45 | Decoding stops at the first non-hex character: what follows it is ignored. |
| WebhookVerify.AcceptedWithTrailingJunk | src/webhook/verify.js:44-49 | A valid signature followed by junk that starts with a non-hex character still passes. |
| WebhookHandlers.FormatEventLog | src/webhook/handlers.js:8-81 | `formatEventLog` returns `null` exactly for event values that are neither `undefined` nor one of the nine tags. |
| WebhookHandlers.FormatTagFollowsNamespace | src/webhook/handlers.js:24-77 | Every known tag is described, under PRODUCT, STOCK, ORDER or CATEGORY according to its namespace. |
| WebhookHandlers.UndefinedEventIsLogin | src/webhook/handlers.js:12-17 | `SYNC_EVENTS.USER_LOGIN` is `undefined`, so an undefined event is described as a LOGIN. |
| WebhookHandlers.LogoutUnreachable | src/webhook/handlers.js:12-23 | The LOGOUT case is shadowed: `USER_LOGOUT` is `undefined` like `USER_LOGIN`, the LOGIN case matches first, so no event is ever described as a LOGOUT. |
| WebhookHandlers.FalsyFieldShowsUnknown | src/webhook/handlers.js:9 | A falsy field renders as "unknown", so a product id of 0 shows as `ID unknown`. |
| WebhookHandlers.StockMessageExample | src/webhook/handlers.js:42-47 | The stock line for product 7 going from 5 to 3 reads "Stock updated for product ID 7: 5 -> 3". |
| WebhookHandlers.StockZeroAndFallback | src/webhook/handlers.js:45 | Quantities use `??`: an old quantity of 0 shows as "0", and `quantity` stands in for a missing new quantity. |
| WebhookHandlers.StockMissingQuantities | src/webhook/handlers.js:45 | Missing quantities show as "?". |
| WebhookHandlers.OrderNumberFallsBackToId | src/webhook/handlers.js:51 | An order line shows the `id` when `order_number` is falsy. |
| WebhookHandlers.RelayEvent | src/webhook/handlers.js:86-116 | When the relay completes, the event is broadcast under its own name. The payload keeps every field and adds `_serverTimestamp`, and the returned timestamp equals it. A warning is logged exactly for unknown event types. |
| WebhookHandlers.DataError | src/webhook/handlers.js:8-99 | Before its logging call the relay throws exactly for `undefined` data, or for `null` data of a described event (reading a property of it). For `undefined` data of any other event, `JSON.stringify` gives `undefined`, which has no `substring`. |
| WebhookHandlers.RelayOutcome | src/webhook/handlers.js:86-116 | The corrected relay throws exactly in those cases, and otherwise completes as `RelayEvent` says. |
| WebhookHandlers.Enrich | src/webhook/handlers.js:103-106 | The enriched payload is an object with `_serverTimestamp` set to the server time; every other key is present exactly when the spread data has it, with the same value. |
| WebhookHandlers.RelayAsWritten | src/webhook/handlers.js:86-116 | As written, the relay throws exactly for the nine known tags, for `undefined`, and for undefined data. On non-nullish data the exception is "logger.logWithContext is not a function". Whenever the corrected relay throws, this one throws the same error, and for undescribed events the two agree. Otherwise it completes like `RelayEvent`. |
| WebhookHandlers.HandleWebhookEvent | src/webhook/handlers.js:86-116 | As written, against the registry: the relay fails exactly when `RelayAsWritten` does, with the same error, and sends nothing. Otherwise the stamped event reaches exactly the members of `broadcast` and the result carries the stamp. Rooms and connections never change. |
| WebhookHandlers.HandleWebhookEventCorrected | src/webhook/handlers.js:86-116 | With the logging call repaired, the relay fails exactly when `RelayOutcome` does and sends nothing. Otherwise the event is broadcast to exactly the members of `broadcast` and the result carries the stamp. |
| WebhookRoutes.SignatureCheckedFirst | src/webhook/routes.js:17-70 | Both POST routes answer a rejected signature with the gate's status and message, and relay nothing. |
| WebhookRoutes.EventTypeRequired | src/webhook/routes.js:18-25 | A verified `/events` request with a falsy `event` gets 400 "Event type is required", and the relay is never reached. |
| WebhookRoutes.EventsRelayed | src/webhook/routes.js:27-42 | A verified event is relayed with its data, or with `{}` when the data is falsy. A throw becomes 500 "Failed to process webhook"; otherwise the answer is 200 with the relay's result and one broadcast. |
| WebhookRoutes.EventsAcceptedAnyType | src/webhook/routes.js:27-35 | With the corrected relay, any verified event is accepted with one broadcast of the stamped data, and the answer carries the same stamp. |
| WebhookRoutes.PostEvents | src/webhook/routes.js:17-43 | The status is 200, 400, 401 or 500; it is 200 if and only if the signature passes, the body is present, its `event` is truthy and the relay completes; there is a broadcast exactly on 200, and at most one. |
| WebhookRoutes.RunBatchPerItem | src/webhook/routes.js:80-86 | The batch aborts exactly when some item is nullish. Otherwise there is one result per item, in order, each depending on its own item only. |
| WebhookRoutes.RunItem | src/webhook/routes.js:80-86 | An item throws outside the `try` exactly when it is nullish; otherwise it is reported relayed exactly when it caused one broadcast, and it causes at most one. |
| WebhookRoutes.RunBatch | src/webhook/routes.js:80-86 | There are never more results than items, exactly one per item when the loop does not abort, and never more broadcasts than results. |
| WebhookRoutes.PostBatch | src/webhook/routes.js:70-95 | The status is 200, 400, 401 or 500; broadcasts happen only after the signature passes and with an `events` array; a 200 answer reports `processed` equal to the number of results and of events, with at most that many broadcasts. |
| WebhookRoutes.BatchAnswer | src/webhook/routes.js:88-94 | A batch that ran without a throw gets 200 with `processed` equal to the number of results. |
| WebhookRoutes.BatchAbortedByNullishItem | src/webhook/routes.js:70-95 | A verified batch with a `null` or `undefined` item anywhere aborts and gets 500 "Internal server error", after the broadcasts of the items before it have been made. |
| WebhookRoutes.BatchResults | src/webhook/routes.js:70-95 | A verified batch of non-nullish items gets 200, with `processed` and the results list both as long as `events`, item by item. |
| WebhookRoutes.FailedItemReported | src/webhook/routes.js:83-85 | A batch item whose relay throws is reported as `{error, event}` with the thrown message. |
| WebhookRoutes.EventsArrayMissing | src/webhook/routes.js:73-78 | A verified batch whose `events` is not an array gets 400 "Events array is required". |
| WebhookRoutes.HealthCounts | src/webhook/routes.js:49-64 | `/health` reports one connection per socket and the number of distinct user ids. A failing `fetchSockets` gives 500 with its message. |
| WebhookRoutes.GetHealth | src/webhook/routes.js:49-64 | The status is 200 exactly when `fetchSockets` succeeds, with the given timestamp and no more users than connections; otherwise it is 500 with an error body. |
| WebhookRoutes.Health | src/webhook/routes.js:49-64 | Against the server itself, `/health` answers 200 with one connection per registered socket and the number of distinct user ids among them. |
| WebhookRoutes.AsWrittenKnownEventFails | src/webhook/routes.js:27-42 | As written, a verified `/events` request for any known event type gets 500 "Failed to process webhook" and nothing is broadcast. |
| WebhookRoutes.AsWrittenBatchItemFails | src/webhook/routes.js:80-86 | As written, a batch item for a known type, or one without `event`, is reported failed with the TypeError's message. |

## Left out

- Cryptography, serialisation and the identity backend are parameters, not definitions: HMAC-SHA256, `JSON.stringify` and the `fetch` of `/auth/me`. `crypto.timingSafeEqual` is modelled as plain equality; its timing is not modelled.
- The clock, console output and log formatting are left out. Only the level guard and the content of the formatted log lines are modelled.
- The `logger.debug` payload dumps and the statistics logged on connection and disconnection (`src/socket/auth.js:100-108,116-124`) are left out; they are output only.
- The `ping`/`pong` and `error` listeners (`src/socket/auth.js:110-113,127-130`) are left out. Leaving rooms on disconnect is done by socket.io, not by this code, and is not modelled.
- The code registers no handlers for `logs:subscribe`, `logs:request` or `logs:unsubscribe`, so no socket ever joins `logs-ui` and those events are not modelled.
- The missing `onLog` export (`src/socket/index.js:5,29`) would make `initializeSocketServer` throw at start-up. The model keeps only the intended routing of log entries (`SocketServer.PushLogEntry`).
- `src/index.js` refuses to start without `WEBHOOK_SECRET` (`src/index.js:11-14`), so at run time the 500 "Server configuration error" path is unreachable. The gate is modelled on its own, with the secret optional.
- Numbers are integers: JavaScript's floating point, and the exponent form of numbers of 10^21 and above, are not modelled.
- Js.Get: models only keys that no prototype supplies (every key the code reads is such a key).
- Js.Display: renders every object as `[object Object]`. It ignores an own `toString` or `Symbol.toPrimitive` key that overrides the prototype's. With `{"event": {"toString": 1}}`, the warning's template literal (`src/webhook/handlers.js:91`) throws "Cannot convert object to primitive value" and the source answers 500, but the model relays the event.
- Logger.ToUpper: upper-cases ASCII letters only. Beyond ASCII, the characters whose upper case lies in `A`-`Z` are `ı` (to `I`), `ſ` (to `S`) and ligatures such as `ﬁ` (to `FI`). Of these, only `ı` can spell part of a level name, and only of `INFO`, which is the default anyway.
- The serialisation done by `res.json` (dropping `undefined` fields, key order) is not modelled. Bodies are datatypes.
- SocketHandlers.Dedup: compares user ids by value. A `Set` compares objects by identity, but user ids are primitives.
- Express middleware plumbing (CORS headers, `OPTIONS`, the root endpoint, routing) and the socket.io transport options are left out.
- Rooms.Registry.Register: socket.io also joins every socket to a room named after its `socket.id`. The registry leaves that room out, so SocketAuth.AdmittedRooms's "no other rooms" holds only for the rooms the code itself joins.
- Rooms.Registry.Emit: socket.io's `emit` throws for the reserved event names `connect`, `connect_error`, `disconnect`, `disconnecting`, `newListener` and `removeListener`. `broadcastEvent` is `async` and is not awaited (`src/webhook/handlers.js:108-110`), so the throw becomes an unhandled rejection. The route still answers 200 with nothing delivered. The service uses the global `fetch` (`src/socket/auth.js:11`), so it runs on Node 18 or later, where an unhandled rejection ends the process by default. `src/index.js` registers no handler for it, so every socket is then dropped. The model delivers every event type and keeps running. So these members promise delivery also for those six names: RelayEvent, HandleWebhookEvent, HandleWebhookEventCorrected, EventsAcceptedAnyType, and PostEvents, EventsRelayed, PostBatch and RunItem read with RelayAsWritten.
- LogStore.Store.AddLog: no modelled file calls `addLog`, so as written the buffer stays empty and `getRecentLogs` always returns `[]`. The class models the buffer as it would behave once something calls `addLog`.
- RelayEvent: states the outcome of a relay that runs to completion and says nothing about when it throws. RelayOutcome and RelayAsWritten add the exceptions for nullish data (DataError). Both routes pass `data || {}` (`src/webhook/routes.js:28,82`), so a client never reaches those exceptions.
- WebhookHandlers.FormatEventLog: for nullish data it gives a line built from `undefined` fields, where the source's first property read throws. The relays take that exception from DataError before they consult it.
- Concurrency is left out: every request and every handler runs to completion. The `async` broadcast is treated as an immediate emit.

## Findings

| source | as written | input that shows it | evidently intended | confidence | as-written member | corrected member |
|---|---|---|---|---|---|---|
| src/webhook/handlers.js:97 | `logger.logWithContext(...)` is called, but the logger has no such method, so the call throws a TypeError before the broadcast | a signed `POST /events` with `{"event": "product:created", "data": {}}` gets 500 "Failed to process webhook" and nothing is broadcast | the described event is logged at INFO and broadcast | not executed | WebhookRoutes.AsWrittenKnownEventFails | WebhookRoutes.EventsAcceptedAnyType |
| src/utils/logger.js:9 | the rank of ERROR is 0, which the fallback to `LOG_LEVELS.INFO` treats as missing | `LOG_LEVEL=error` gives INFO, so warnings and info messages are still written | `LOG_LEVEL=error` writes only errors | not executed | Logger.ErrorSettingGivesInfo | Logger.IntendedSelectsNamedLevel |
