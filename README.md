# WebSocket message relay

This project models the message relay of a small Express + `ws` server and proves properties of
that model. Each inbound WebSocket message is relayed to every *other* client whose `readyState`
is OPEN. The repository has two variants of the relay:

- **Validating relay** (`server/dist/server.cjs`). The parsed message goes through
  `validateWebSocketMessage`. That function has three ordered guards:
  "Invalid message", then "Invalid type", then "Missing payload".
  - An accepted message is broadcast by `handleWebSocketMessage`.
  - If parsing or validation throws, the sender alone is sent the fixed envelope
    `{"type":"error","payload":{"message":"Invalid message format"}}`.
  - The `error` and `close` handlers only log.
- **Plain relay** (`server/server.ts` and its compiled `server/server.js`, with identical logic).
  - Any value `JSON.parse` accepts is broadcast unchecked.
  - A frame that fails to parse is logged and nothing is sent.

Modules:

- `Wrappers` (wrappers.dfy): `Option` and `Result`.
- `Json` (json.dfy): parsed JSON values and the JavaScript semantics the validator depends on:
  - truthiness (`!data`);
  - `typeof`, where null and arrays are "object";
  - the `in` operator and property access on objects and arrays (own keys; an array's
    "length" and its canonical indices).
- `Validation` (validation.dfy): `validateWebSocketMessage`, written with those JavaScript
  operators. Its contract characterises each outcome by the shape of the value. It also holds
  the error envelope.
- `Clients` (clients.dfy): the connections and the fan-out.
  - A `Connection` class has a `readyState` and an `outbox`. The outbox records every value passed
    to `send`, standing for its `JSON.stringify` text, so the wire form is the `Json` value itself.
  - A `ClientSet` class stands for `wss.clients`: a sequence kept free of duplicates, as a `Set` is.
  - Its `Broadcast` method is the `forEach` loop that both variants run.
  - A value-level `FanOut` over `Peer` views. The two-state lemma `BroadcastedIsFanOut` shows it is
    what `Broadcast` does. The counting lemmas are stated on `FanOut`.
- `ValidatingRelay` (validating_relay.dfy): the `message`, `error` and `close` handlers of the
  compiled server.
  - `Decide` is the pure decision: relay or error reply.
  - `OnMessage` carries the decision out on the connections.
- `PlainRelay` (plain_relay.dfy): the `message` handler of the uncompiled server, with lemmas that
  compare it with the validating variant.

Modelling choices:

- `JSON.parse` is an input. The handlers take `parsed: Option<Json>`, where `None` means the parser
  threw.
- JavaScript numbers are modelled as `real`, so `0.5` is truthy and `0` and `-0` are falsy.
- Connection identity is Dafny object identity, as `client !== ws` is in the source.
- Each inbound message is one sequential step.

Facts of the code that the model keeps:

- An empty-string `type` is accepted: the guard is only `typeof data.type === 'string'`.
- The error reply is always "Invalid message format". The validator's own message is discarded.
- A failed `JSON.parse` gets the same reply as a refused message in the validating server, and
  nothing in the plain one.
- The handlers never add or remove clients. Membership of `wss.clients` is managed by the `ws`
  library.

## Model

| member | source | states |
|---|---|---|
| Json.FalsyValues | server/dist/server.cjs:62 | `!data` holds exactly for null, false, 0 and "" |
| Json.GetProperty | server/dist/server.cjs:64 | on a parsed object, `typeof data[key] === 'string'` holds exactly when the key is present with a string value; on an array only an index can read a string, and "length" reads a number |
| Json.ArrayLacksNamedKey | server/dist/server.cjs:64-66 | an array has no property named like "type" or "payload", and reading one gives undefined |
| Validation.Validate | server/dist/server.cjs:61-69 | "Invalid message" exactly for non-arrays that are not objects; "Invalid type" exactly for arrays and for objects whose `type` is absent or not a string; "Missing payload" exactly for objects with a string `type` and no `payload` key; acceptance exactly for the envelope shape, and an accepted value is returned unchanged, extra keys included |
| Validation.TypeCheckedBeforePayload | server/dist/server.cjs:64-67 | a non-string `type` is reported as "Invalid type" whether or not `payload` is present |
| Validation.PayloadCheckedLast | server/dist/server.cjs:66-68 | for an object with a string `type`, the result depends only on whether the `payload` key is present; any payload value, null included, is accepted |
| Validation.ArraysHaveInvalidType | server/dist/server.cjs:62-65 | every array passes the object check and is rejected with "Invalid type" |
| Validation.WorkedExamples | server/dist/server.cjs:61-69 | `{"type":5,"payload":{}}` and `{"type":5}` give "Invalid type"; `{"type":"x"}` gives "Missing payload"; `{"type":"x","payload":null}` and an empty-string `type` are accepted; null, 0, "", false, 0.5 and "hi" give "Invalid message" |
| Validation.ErrorEnvelope | server/dist/server.cjs:88-91 | the error reply is `{type:"error", payload:{message:"Invalid message format"}}`, and it is itself a valid envelope |
| Clients.Connection.Send | server/dist/server.cjs:73 | `send` appends exactly the sent value to the connection's outbox and leaves its state alone |
| Clients.ClientSet.constructor | server/dist/server.cjs:79 | the client collection holds the given connections, none of them twice; the given sequence stands for the connections the `ws` library has registered since the server started empty |
| Clients.ClientSet.Broadcast | server/dist/server.cjs:70-76 | each OPEN client other than the sender gets the message appended once; the sender and non-OPEN clients keep their outboxes; no readyState changes; the collection is not modified |
| Clients.FanOut | server/dist/server.cjs:71-75 | on client views: receivers are exactly the non-sender OPEN clients, and each gets the message appended once; the sender flag and state of every client are preserved |
| Clients.BroadcastedIsFanOut | server/dist/server.cjs:71-75 | the effect `Broadcast` guarantees on the connections is exactly `FanOut` applied to their views |
| Clients.FanOutSendsOnePerRecipient | server/dist/server.cjs:71-75 | a broadcast adds exactly as many sends, and as many copies of the message, as there are OPEN non-sender clients |
| Clients.FanOutWithoutRecipients | server/server.ts:54-58 | when no client other than the sender is OPEN, a broadcast changes nothing |
| ValidatingRelay.Decide | server/dist/server.cjs:82-93 | a message is relayed exactly when it parsed and is an envelope, and then unchanged; in every other case the reply to the sender is the fixed error envelope |
| ValidatingRelay.ReplyIgnoresReason | server/dist/server.cjs:83-92 | two messages rejected for different reasons carry different validator texts, yet they, and a parse failure, all get the same reply |
| ValidatingRelay.OnMessage | server/dist/server.cjs:82-93 | on a valid envelope the clients are broadcast to and the sender gets nothing; otherwise only the sender's outbox changes, by the error envelope |
| ValidatingRelay.OnError | server/dist/server.cjs:94-96 | the error handler changes no connection and leaves the collection as it is |
| ValidatingRelay.OnClose | server/dist/server.cjs:97-99 | the close handler changes no connection and leaves the collection as it is |
| ValidatingRelay.RelayScenario | server/dist/server.cjs:84-85 | A, B, C OPEN and D CLOSING; A's valid envelope reaches B and C once each, and not A or D |
| ValidatingRelay.RejectScenario | server/dist/server.cjs:87-92 | a message without payload earns its sender the error envelope and reaches no one else |
| PlainRelay.Decide | server/server.ts:48-62 | every parsed value is relayed unchanged, without any structural check; a parse failure sends nothing |
| PlainRelay.OnMessage | server/server.ts:49-61 | a parsed value is broadcast to the OPEN clients other than the sender; a parse failure changes no client; the sender never receives anything |
| PlainRelay.RelaysWhateverTheValidatorAccepts | server/server.ts:50 | everything the validating relay relays, the plain relay relays identically |
| PlainRelay.DivergesFromValidatingRelay | server/server.js:52-64 | for a frame that does not parse, or a parsed value that is not an envelope, the validating relay replies with the error envelope; the plain relay drops the frame or relays the value |
| PlainRelay.Scenario | server/server.js:51-65 | a bare number from A reaches OPEN B once and does not reach A or CLOSED C; a frame that does not parse reaches no one |

## Left out

- `JSON.parse` and `JSON.stringify`: library code. Parsing is an `Option<Json>` input. The wire
  form of a sent message is the `Json` value, so key order and text formatting are not modelled.
- `data.toString()` on the raw frame: library code, folded into the parse input.
- JavaScript numbers `NaN` and `Infinity` (`JSON.parse("1e400")` gives `Infinity`, which is truthy)
  have no `real` counterpart.
- JavaScript strings are sequences of UTF-16 code units, while Dafny strings hold Unicode scalar
  values. A string with a lone surrogate, such as the one `JSON.parse` makes from `"\ud800"`,
  cannot be represented, although both servers would relay it unchanged.
- Properties inherited through the prototype chain are not modelled. No prototype of a parsed
  value defines `type` or `payload`.
- What the `ws` library does with `send` on a socket that is not OPEN: the outbox records every call
  to `send`. Only the error reply can reach such a socket, because the broadcast checks
  `readyState` first.
- A `send` that throws during a broadcast. The source promises nothing about it. In the validating
  variant the `catch` would then also echo the error envelope to the sender.
- Registration and removal of connections in `wss.clients`: done by the `ws` library, not by the
  source. The model starts from a given collection.
- Concurrency and interleaving between connections: each message is handled as one step.
- Console logging of received messages, errors and disconnections.
- The Express routes `/api/test`, `/api/async_test` and `/api/cities`, the timer-based
  `asyncOperation`/`asyncFunction`, and `transformCities`: HTTP glue, timers, a network fetch and
  floating-point arithmetic, outside the relay.
- `server.listen`, the port setting, and the graceful shutdown on SIGTERM/SIGINT: process wiring.
