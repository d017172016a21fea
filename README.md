# Pixel canvas and chat backend: state store and fan-out

A Dafny model of the storage and broadcast core of a collaborative pixel-canvas
backend with a chat stream. Clients draw pixels and post chat messages. The
backend keeps pixels and messages in two separate key-value namespaces,
`/canvas` and `/chat`, and broadcasts every accepted write on a pub/sub topic,
`canvas` or `chat`. It also re-applies broadcasts it receives from other nodes
to its own store, without publishing them again.

The model has these parts, each a module in its own file:

- `Sdk` (sdk.dfy): the platform boundary. It holds the error values, the
  payload type and `Env`, the outcomes the platform gives one invocation's
  calls: `database.New`, `Put`, `Get`, `List`, `pubsub.Channel` and `Publish`.
- `Decimal` (decimal.dfy): `%d` text of integers, and a parser for it.
- `Types` (types.dfy): the `Pixel` and `ChatMessage` records.
- `Json` (json.dfy): the JSON text of the two records, in the field order and
  with the field names of their struct tags, and a decoder for that text.
- `Store` (store.dfy): the effect of each operation on a namespace's
  contents, written as functions. This covers the `pixel_<x>_<y>` key, the
  writes, the lookup of one pixel and the skip-on-failure enumeration. The
  lemmas about them live here too.
- `Database` (database.dfy): the package state of database.go as the class
  `Backend`. Its fields are the two handles, the `dbInit` flag and the two
  namespaces' contents. A ghost log records every `database.New` call. The
  class holds the once-only initialisation gate and the save, lookup and list
  operations.
- `PubSub` (pubsub.dfy): the class `Broker`, whose `log` records every
  publication, plus the two publishers and the two inbound handlers.
- `Canvas` (canvas.dfy) and `Chat` (chat.dfy): `drawPixel`,
  `getPixelFromDB` and `getAllPixels`; then `sendMessage` with its time and id
  defaults, and the websocket channel choice.

The operations of database.go are methods of the class `Backend`. The
publishers and inbound handlers of pubsub.go, and `DrawPixel`, `GetAllPixels`
and `SendMessage`, are module-level methods that take the `Backend` and the
`Broker` as parameters. Every method's postcondition ties the new state and
the result to the functions of `Store`, `Json` and `Chat`. The lemmas beside
those functions prove what the backend promises about them.

## Model

| member | source | states |
|---|---|---|
| `Decimal.IntRoundTrip` | database.go:82 | The `%d` text of any integer, negative ones included, parses back to that integer when followed by a non-digit. |
| `Decimal.NoUnderscore` | database.go:82 | The `%d` text of an integer never contains `_`. |
| `Decimal.IntToDecimal` | database.go:82 | Defines the `%d` text of an integer: a `-` for negatives, then the digits with no leading zero. `IntRoundTrip` and `NoUnderscore` carry its properties. |
| `Decimal.LeadingZeroRejected` | pubsub.go:87 | As in Go's JSON decoder, a number written with a leading `0` followed by more digits is refused, with or without a minus sign. |
| `Json.EncodePixel` | database.go:85 | Defines the JSON text of a pixel: the fields `x`, `y`, `color`, `userId` and `time` in struct order, with strings escaped as Go's encoder does. `PixelRoundTrip` carries its property. |
| `Json.DecodePixel` | database.go:122 | Defines the decoding of a pixel's JSON text. An undecodable text gives `None`. `PixelRoundTrip` carries its property. |
| `Json.EncodeMessage` | database.go:141 | Defines the JSON text of a chat message: the fields `id`, `userId`, `message` and `time` in struct order. `MessageRoundTrip` carries its property. |
| `Json.DecodeMessage` | database.go:182 | Defines the decoding of a chat message's JSON text. An undecodable text gives `None`. `MessageRoundTrip` carries its property. |
| `Json.ControlCharRejected` | pubsub.go:87 | As in Go's JSON decoder, a string that holds a raw character below U+0020 is refused. |
| `Json.PixelRoundTrip` | types.go:4-10 | Decoding the JSON text of a pixel gives back exactly that pixel. |
| `Json.MessageRoundTrip` | types.go:13-18 | Decoding the JSON text of a chat message gives back exactly that message. |
| `Store.PixelKey` | database.go:82 | Defines the key `pixel_<x>_<y>` of a coordinate. `PixelKeyInjective` and `PixelKeyExamples` carry its properties. |
| `Store.PutPixel` | database.go:82-91 | Defines a successful save: the pixel's key maps to its JSON text. `LookupAfterPut`, `PutPixelFrame` and `LastWriteWins` carry its properties. |
| `Store.PutMessage` | database.go:141-147 | Defines a successful message save: the message's own id maps to its JSON text. `SameIdReplaces` carries its property. |
| `Store.Collect` | canvas.go:169-182 | Defines the enumeration: each listed key, in order, whose `Get` succeeds and whose payload decodes, gives one record. `CollectBound`, `CollectMembers`, `SkipsBadRecord` and `CollectAllReadable` carry its properties. |
| `Store.PixelKeyInjective` | database.go:82 | `pixel_<x>_<y>` keys are equal exactly when the coordinates are equal, negative coordinates included. |
| `Store.LookupPixel` | database.go:111-128 | A key that is missing, or stored but unreadable, gives `Ok(None)`, not an error. A readable payload that decodes gives `Ok(Some(p))` with the decoded pixel. The only error is `DecodeFailed`, and only for a readable payload that does not decode. |
| `Store.LookupAfterPut` | database.go:82-128 | After the pixel is saved, the lookup at its coordinate returns exactly that pixel. |
| `Store.PutPixelFrame` | database.go:82-91 | Saving a pixel changes the lookup at no other coordinate and adds only its own key. |
| `Store.LastWriteWins` | database.go:91 | A second save at the same coordinate fully replaces the first, whatever the timestamps. Saving the same pixel twice equals saving it once. |
| `Store.CollectBound` | canvas.go:169-182 | The enumeration never returns more records than there are listed keys. |
| `Store.SkipsBadRecord` | canvas.go:170-179 | A key whose `Get` fails or whose payload does not decode is dropped, and the keys after it are still enumerated. |
| `Store.CollectMembers` | canvas.go:169-182 | A record is in the result exactly when some listed key is readable and decodes to it. |
| `Store.CollectAllReadable` | database.go:172-188 | When every listed key is readable and decodes, the result has one record per key, in listing order. |
| `Store.WrittenCanvas` | database.go:82-91 | Saves at N distinct coordinates into an empty canvas leave exactly N keys, each holding its own pixel's text. |
| `Store.CanvasAfterDistinctWrites` | canvas.go:161-182 | After saves at N distinct coordinates, enumerating a repeat-free listing of the canvas keys returns N pixels, every saved pixel among them. |
| `Store.SameIdReplaces` | database.go:147 | A message is stored under its id as given. A second save with the same id replaces the first, and enumeration then shows only the second. |
| `Store.PixelKeyExamples` | database.go:82 | The key of (3, 4) is `pixel_3_4`, and the key of (-1, 10) is `pixel_-1_10`. |
| `Database.Backend.constructor` | database.go:11-16 | A fresh process has no handles, the flag unset and no connection attempts, over existing namespace contents. |
| `Database.Backend.Get` | database.go:114 | Defines `Get` on a handle: it reads the handle's namespace, and fails for a missing key or one whose outcome is a failure. `LookupPixel` and the enumeration loops build on it. |
| `Database.Backend.Put` | database.go:91 | `Put` writes only into the namespace its handle names, and only when it succeeds. |
| `Database.Backend.InitDatabases` | database.go:19-48 | Once the flag is set, returns 0 and touches nothing. Otherwise it connects `/canvas` and then, only if that succeeded, `/chat`. The flag is set exactly when both succeed. It returns 0 exactly when the flag is set. |
| `Database.Backend.GetCanvasDB` | database.go:51-59 | Passes the gate when the flag is unset, so a failed earlier pass is retried. It returns the `/canvas` handle and 0 when the gate is open, and no handle and 1 otherwise. |
| `Database.Backend.GetChatDB` | database.go:62-70 | The same as `GetCanvasDB`, for the `/chat` handle. |
| `Database.Backend.SavePixel` | database.go:73-99 | Reports a connection failure or a `Put` failure. On success the canvas is `PutPixel` of the old canvas. The chat namespace never changes. |
| `Database.Backend.GetPixelFromDatabase` | database.go:102-129 | A connection failure is an error. Otherwise the result is `LookupPixel` of the canvas. |
| `Database.Backend.SaveChatMessage` | database.go:132-155 | Reports a connection failure or a `Put` failure. On success the chat namespace is `PutMessage` of the old one. The canvas never changes. |
| `Database.Backend.GetChatMessages` | database.go:158-192 | A connection or `List` failure is an error. Otherwise the result is the enumeration of the listed keys over the chat namespace, decoded as messages. |
| `PubSub.PublishPixelUpdate` | pubsub.go:12-37 | On success it appends exactly one publication, the pixel's JSON text on `canvas`. On a channel or publish failure it appends nothing and reports the failure. |
| `PubSub.PublishChatMessage` | pubsub.go:40-65 | On success it appends exactly one publication, the message's JSON text on `chat`. On failure it appends nothing. |
| `PubSub.HandleCanvasEvent` | pubsub.go:68-102 | An unreadable or undecodable payload returns 1 and changes nothing. A decodable one is saved through `SavePixel` and returns 0 exactly when the save succeeds. The publication log never changes (no echo). |
| `PubSub.HandleChatEvent` | pubsub.go:105-139 | The same for messages, saved through `SaveChatMessage`. The log never changes. |
| `PubSub.BroadcastReplicates` | pubsub.go:23-94 | A receiver decodes a published pixel to the same pixel, and stores the same text under the same key as the sender. A lookup on the receiver at that coordinate then returns exactly the published pixel. |
| `PubSub.ChatBroadcastReplicates` | pubsub.go:51-131 | The same for a chat message, stored under its id. Enumerating that id on the receiver then returns exactly the published message. |
| `Canvas.DrawPixel` | canvas.go:13-63 | The stored pixel carries `now` as its time, whatever the client sent. A failed save publishes nothing. A successful save publishes once, and a later publish failure leaves the pixel stored. On success the stored text equals the published text. |
| `Canvas.GetPixelFromDB` | canvas.go:147-149 | Behaves exactly as `GetPixelFromDatabase`. |
| `Canvas.GetAllPixels` | canvas.go:152-186 | A connection or `List` failure is an error with no pixels. Otherwise the result is exactly the readable, decodable pixels of the listed keys, in listing order. |
| `Chat.WithDefaults` | chat.go:39-44 | A zero time becomes `now` and a set time is kept. An empty id becomes `msg_<time>_<userId>` from the already-defaulted time, and a set id is kept. The result's id is never empty. |
| `Chat.MessageId` | chat.go:43 | Defines the synthesised id `msg_<time>_<userId>`. `SynthesisedIdCollision` carries its property. |
| `Chat.WithDefaultsIdempotent` | chat.go:39-44 | A message with a non-zero time and a non-empty id passes through the defaults unchanged. Applying the defaults twice equals applying them once. |
| `Chat.SynthesisedIdCollision` | chat.go:42-44 | Two id-less messages get the same id exactly when they share the time and the user. Then the second save replaces the first. |
| `Chat.SelectChannel` | chat.go:110-122 | No type means `canvas`. `canvas` and `chat` are accepted, and any other value is refused with `InvalidChannelType` (a 400). |
| `Chat.SendMessage` | chat.go:13-68 | The defaulted message is saved. A failed save publishes nothing. A successful save publishes once, and a later publish failure leaves the message stored. On success the stored text equals the published text. |

## Left out

- HTTP transport is not modelled: CORS headers, response envelopes and status codes, query-parameter reading, request-body reading and parsing, and `strconv.Atoi` (utils.go, and the handler preambles of canvas.go and chat.go). `DrawPixel` and `SendMessage` start from the already-decoded record. `SelectChannel` takes the query value as an `Option`. The `getPixel`, `getCanvas` and `getMessages` handlers only wrap the modelled functions in that transport.
- `getWebSocketURL`'s channel creation, subscription and URL retrieval are not modelled, because they are calls into the platform. Neither are `init` and `health` in main.go.
- `time.Now` is not modelled. The current timestamp is the parameter `now`.
- `dbMutex` and the unlocked reads of `dbInit` are not modelled. The gate is modelled sequentially, and concurrent first calls are not.
- Logging is not modelled.
- Whether each platform call succeeds is an input (`Env`), not modelled behaviour. `List` returns any key sequence (`Env.listing`). `CanvasAfterDistinctWrites` assumes a listing of exactly the stored keys, without repeats.
- `Json.DecodePixel`: reads only the field layout that `EncodePixel` writes. Go's `json.Unmarshal` also accepts other field orders, whitespace, and missing or unknown fields (zero values). So a payload the model rejects may be accepted by the source. Like Go, the model rejects numbers with leading zeros and strings with raw control characters.
- `Json.DecodeMessage`: the same restriction as `DecodePixel`.
- `Json.ParseStringBody`: rejects `\u` escapes of UTF-16 surrogates. Go accepts them: it combines a valid pair into one character and turns a lone surrogate into U+FFFD.
- `Decimal.ParseInt`: accepts numbers outside Go's `int` and `int64` ranges, which Go's decoder rejects.
- `Json.EncodePixel`: follows the escaping of Go 1.22 and later, which writes `\b` and `\f` in short form. Earlier Go versions write them as `\u0008` and `\u000c`. Invalid UTF-8 is not modelled, because payloads are strings of characters, not bytes.
- `Json.EncodeMessage`: the same as `EncodePixel`.
- `Store.Fetch`: stands for the platform's `Database.Get`. Whether a `Get` succeeds is an input (`Env.unreadable`), so its postconditions describe that stand-in and say nothing about the backend's own logic.
- `json.Marshal` cannot fail for these two record types, so the model has no encode-failure path.
- Coordinates and times are unbounded integers. Go's 64-bit `int` and `int64` ranges are not modelled.
- The types `Response` and `CanvasUpdate` (types.go:21-31) are not modelled: the first is a response envelope and the second is unused.
