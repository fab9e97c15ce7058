# Firebot API client — realtime channel and client construction in Dafny

This project models the core of a TypeScript client library for the Firebot control API:

- **`FirebotWebSocket`**, the realtime protocol client. It owns at most one socket and sends the `subscribe-events` handshake with the reserved id 0. It classifies inbound envelopes, re-emits them through a string-keyed listener registry, and runs a ping/pong keepalive. Every callback runs to completion on one event loop, so the client is a class, `Websocket.FirebotWebSocket`, with one method per callback.
- Three objects stand in for code outside the library and are changed only through the client's own calls:
  - the socket library is `Transport.Transport`, which keeps the ready state of every socket ever dialled, the sockets that still carry the client's handlers, and a log of every call made on a socket;
  - the timer runtime is `Timers.Timers`;
  - the Node `EventEmitter` is `Events.EventEmitter`, which logs every emission with the listeners it reaches.
- **The `FirebotClient` constructor** covers host and port validation, the default port 7472, the `http(s)://host:port/api/v1` base URL shared by the thirteen route objects, and the arguments of the websocket. It is a function returning the client's fields or the message it throws.
- **The custom-variables route** covers the reshaping of the server's record into `{name, data, ttl, persist}` entries and the error `setCustomVariable` throws on a failed response.

Modules:
- `Wrappers`: `Option`, `Result`, `Outcome`.
- `JsonValues`: JSON values and JavaScript truthiness.
- `Decimal`: how `${n}` prints a safe integer (magnitude at most 2^53), with its inverse.
- `Endpoints`: `scheme://host:port`, with a parser that recovers host and port.
- `Messages`: the wire envelope and its classification.
- `Events`, `Transport`, `Timers`: the collaborators described above.
- `Websocket`: the client class.
- `Client`: the constructor.
- `CustomVariables`: the custom-variables route.
- `Scenarios`: whole sessions composed from the handler contracts.

What `FirebotWebSocket` keeps (`Valid()`):
- The owned socket exists and still has the client's handlers.
- Every other socket is closing or closed.
- The timers armed in the runtime are exactly the handles the client holds, so no timer leaks and at most one interval and one pong timeout exist, with delays of 15000 ms.
- A pong timeout is pending only while a socket is owned.
- Every frame written to a socket so far is an invocation (`OnlyInvocations`).

Every method that changes sockets or timers has `Valid()` as both precondition and postcondition, with one exception: `StopKeepAlive`. It also runs inside the pong-timeout callback after the runtime has already dropped the fired timer, so its contract states its effect on the two timer fields instead.

Behaviours of the code that the model keeps and a reader might not expect:
- The pong-timeout close does not detach the socket's handlers (src/websocket.ts:144-149).
- "connected" is emitted on every handshake acknowledgment, not once per connection (src/websocket.ts:44-46). An event frame named `connected` also emits it (src/websocket.ts:38-40).
- `send` needs only an open socket, so it succeeds before the handshake is acknowledged (src/websocket.ts:89-92; `Scenarios.SendBeforeAck`).
- A superseded socket keeps its handlers. Its late `close` event emits "disconnected" and stops the keepalive of the newer connection (src/websocket.ts:66-77; `Scenarios.SupersededSocketClose`).

## Model

| member | source | states |
|---|---|---|
| Websocket.FirebotWebSocket.constructor | src/websocket.ts:14-18 | the URL is `ws://host:port`, or `wss://` when secure; no socket, no timer and no listener exist yet; the invariant holds |
| Websocket.FirebotWebSocket.On | src/websocket.ts:20-22 | the listener is appended to that event's listeners; no other event's listeners change and nothing is emitted |
| Websocket.FirebotWebSocket.Off | src/websocket.ts:24-26 | the most recent registration of the listener under that event is removed, or nothing when there is none; other events are untouched |
| Events.EventEmitter.Emit | src/websocket.ts:28-30 | one emission is logged, reaching exactly the listeners registered under that name, in registration order; registrations are unchanged |
| Events.RemoveLastCutsLastIndex | src/websocket.ts:24-26 | removal cuts out exactly the last occurrence of the listener |
| Events.RemoveLastKeepsOthers | src/websocket.ts:24-26 | removal leaves every other listener's registrations and their order unchanged |
| Events.RemoveLastCount | src/websocket.ts:24-26 | removal takes away exactly one copy of the listener when it is registered, and none otherwise |
| Messages.Invoke | src/websocket.ts:94-99 | the frame `send` builds has type `invoke` and carries the given name, id and data; the client's invariant keeps every frame it has written an invocation |
| Messages.Classify | src/websocket.ts:38-50 | `event` frames are forwarded under their own name with their data. A response connects if and only if its id is the number 0 and its name is `success`. Every other response becomes a "response" event with its id, name and data. Any other type is dropped |
| Messages.OnlyHandshakeAckConnects | src/websocket.ts:43-49 | a response with a different id, including the string "0", or with the name `error`, becomes a "response" event and never connects |
| Messages.InvokeIsDropped | src/websocket.ts:38-50 | an inbound invocation emits nothing beyond "message"; the handshake is not its own acknowledgment |
| Websocket.Announcements | src/websocket.ts:38-50 | a frame emits at most one event after "message" |
| Websocket.FirebotWebSocket.Connect | src/websocket.ts:66-77 | an owned socket is first closed with 4001; a new socket is then dialled to the client's URL and owned. Timers are unchanged and the old socket keeps its handlers |
| Websocket.FirebotWebSocket.Disconnect | src/websocket.ts:79-87 | an owned socket is closed without a code and detached, and nothing is owned afterwards; no timer remains. Without a socket the transport is untouched |
| Websocket.FirebotWebSocket.Send | src/websocket.ts:89-101 | fails with "WebSocket is not connected" exactly when no open socket is owned, and then writes nothing; otherwise writes one invoke frame whose id defaults to the fresh id and whose data defaults to `{}` |
| Websocket.FirebotWebSocket.HandleOpen | src/websocket.ts:53-55 | the socket becomes open and the handshake `{type: invoke, name: subscribe-events, id: 0, data: {}}` is written to it |
| Websocket.FirebotWebSocket.HandleMessage | src/websocket.ts:32-51 | a socket without the client's handlers changes nothing. Otherwise the client emits "message" with the raw text, then the frame's announcement. A malformed frame fails after "message". Only a handshake acknowledgment starts the keepalive; every other frame leaves timers and sockets untouched |
| Websocket.FirebotWebSocket.HandleClose | src/websocket.ts:57-60 | the socket becomes closed. While it has the client's handlers, both timers are cleared and "disconnected" is emitted with the code and reason, even when the socket is not the owned one |
| Websocket.FirebotWebSocket.HandleError | src/websocket.ts:62-64 | the error is re-emitted as "error"; nothing is closed |
| Websocket.FirebotWebSocket.StartKeepAlive | src/websocket.ts:103-109 | the interval is armed. When the socket is open, a ping is sent at once with a pending pong timeout; otherwise nothing is sent. The invariant keeps at most one timer of each kind |
| Websocket.FirebotWebSocket.StopKeepAlive | src/websocket.ts:111-121 | exactly the held timers are cleared and both handles are dropped; this is harmless when none is armed |
| Websocket.FirebotWebSocket.SendPing | src/websocket.ts:123-135 | nothing happens unless the owned socket is open. Otherwise the previous pong timeout is replaced by one fresh 15000 ms timeout and one ping is written |
| Websocket.FirebotWebSocket.PingIntervalFired | src/websocket.ts:108 | each tick pings the open socket and re-arms the pong timeout, and does nothing otherwise |
| Websocket.FirebotWebSocket.HandlePong | src/websocket.ts:137-142 | the pending pong timeout is cleared; the interval is kept |
| Websocket.FirebotWebSocket.PongTimeoutFired | src/websocket.ts:144-149 | "WebSocket pong timeout" is emitted as an error; the owned socket is closed with 4002 "Pong timeout"; no timer remains |
| Scenarios.HandshakeSession | src/websocket.ts:53-55 | connect, open and acknowledge lead to a dial, the handshake and an immediate ping. The events are "message" then "connected", and both timers are armed |
| Scenarios.SupersededSocketClose | src/websocket.ts:66-77 | a late close of the replaced socket emits "disconnected" and stops the keepalive while the new socket is open |
| Scenarios.DisconnectThenClose | src/websocket.ts:79-87 | after `disconnect()`, a second `disconnect()` and the socket's close event add no socket call and emit nothing |
| Scenarios.SendBeforeConnect | src/websocket.ts:89-92 | `send` before `connect()` fails with "WebSocket is not connected" and writes nothing |
| Scenarios.SendBeforeAck | src/websocket.ts:89-101 | `send` right after `open` succeeds before any "connected" is emitted |
| Decimal.NatToText | src/index.ts:104 | a port prints as a canonical digit string, which starts with 0 only for 0 |
| Decimal.TextToNatOfNatToText | src/index.ts:104 | reading the printed port back gives the port |
| Decimal.NatToTextOfTextToNat | src/index.ts:104 | every canonical digit string is the printed form of its value |
| Endpoints.EndpointRoundTrip | src/websocket.ts:16-17 | `scheme://host:port` gives back exactly its host and port |
| Endpoints.OtherSchemeRejected | src/index.ts:104 | a URL built with one scheme is not read as another |
| Client.TrimEmptyIffBlank | src/index.ts:96 | `host.trim() === ""` holds exactly when the host is empty or made only of JavaScript white space |
| Client.TrimStart | src/index.ts:96 | drops exactly the leading white space of the host |
| Client.TrimEnd | src/index.ts:96 | drops exactly the trailing white space of the host |
| Client.NewClient | src/index.ts:95-122 | construction fails exactly when the host is blank or the port (7472 by default) is outside 1..65535, and the host error takes precedence. Otherwise the host is kept untrimmed, and the base URL is `http(s)://host:port/api/v1` and parses back to its inputs. The client gets thirteen routes that share it and point back to the client, and websocket arguments naming the same host, port and flag |
| Client.BaseUrlRoundTrip | src/index.ts:104 | the base URL determines host, port and whether it is secure |
| Client.SocketUrlRoundTrip | src/index.ts:121 | the websocket URL names the client's host and port |
| Client.ChannelsAgree | src/index.ts:104-121 | a constructed client's HTTP base URL and websocket URL name the same host and port, and the port is positive |
| Client.Routes | src/index.ts:107-119 | one route per kind, each with the client's back-reference and the shared base URL |
| Client.EveryRouteOnce | src/index.ts:107-119 | every route kind is created, and none twice |
| Client.HostCheckedFirst | src/index.ts:96-101 | a blank host is reported as "Invalid host" whatever the port |
| Client.DefaultPortInsecure | src/index.test.ts:26-31 | `("localhost")` gives port 7472 and `http://localhost:7472/api/v1` |
| Client.CustomPortInsecure | src/index.test.ts:33-38 | `("localhost", 8080)` gives `http://localhost:8080/api/v1` |
| Client.DefaultPortSecure | src/index.test.ts:40-45 | `("example.com", undefined, true)` gives `https://example.com:7472/api/v1` |
| Client.CustomPortSecure | src/index.test.ts:47-52 | `("example.com", 8080, true)` gives `https://example.com:8080/api/v1` |
| Client.EmptyHostRejected | src/index.test.ts:54-58 | the empty host throws "Invalid host" |
| Client.NegativePortRejected | src/index.test.ts:60-64 | port -1 throws "Invalid port number" |
| CustomVariables.ToCustomVariable | src/routes/custom-variables.ts:27-32 | an entry's name is its key, `data` is `v` and `ttl` is `t`; `persist` is true exactly when `meta.persist` is present and truthy |
| CustomVariables.ToCustomVariables | src/routes/custom-variables.ts:26-33 | one variable per record entry, in entry order, each mapped from its own entry |
| CustomVariables.PersistDefaultsToFalse | src/routes/custom-variables.ts:31 | an absent `persist` gives false; a boolean one is kept |
| CustomVariables.LookupByName | src/routes/custom-variables.ts:27-30 | with distinct keys, each key names exactly one result entry, which carries that key's `v` and `t` |
| CustomVariables.ToCustomVariablesOfToRecord | src/routes/custom-variables.ts:27-32 | every list of variables arises from some record: the mapping loses no combination of fields |
| CustomVariables.SetCustomVariableOutcome | src/routes/custom-variables.ts:68-70 | it throws exactly when the response is not ok. The message is "Failed to set custom variable: ", then the variable's name, then the status text in parentheses |

## Left out

- The HTTP route wrappers other than the custom-variables mapping, the base route class, and the `fetch` calls in the custom-variables route: they are request/response glue with no state.
- The socket library itself: sockets change state only through the client's calls and through the `open` and `close` callbacks. The client's `ping()` is a logged call; an incoming pong is the `HandlePong` callback and adds no log entry. Library-side timing, buffering and the asynchronous delivery of `close` are not modelled.
- Time: the 15000 ms delays are recorded on the armed timers, and timer firing is an explicit method; there is no clock.
- `JSON.parse`, `JSON.stringify` and `toString`: frames are datatypes. The decoder's result is a parameter of `HandleMessage`, with `None` standing for the `SyntaxError` it throws.
- `crypto.randomUUID()`: the fresh id is a parameter of `Send`. `encodeURIComponent` belongs to the omitted requests.
- Node `EventEmitter` internals: listeners are opaque ids whose effects, including re-entrant calls into the client, are not modelled. Throwing when "error" has no listener is not modelled.
- Non-integer, infinite and NaN ports: ports are integers, so `typeof port !== "number"` and `host` of another type cannot occur. A NaN port passes both comparisons in the source, and the model cannot express it.
- Numbers inside JSON payloads are integers.
- `Object.entries` places integer-like keys first; the model takes the record in entry order as given.
- A custom variable whose `meta` is missing makes the source throw a `TypeError`; the model's `meta` is always present.
- The `persist` flag is typed as a boolean but tested by truthiness (`!!`), so the model lets it be any JSON value; this is more general than the typed source, not weaker.
- Decimal.IntToText: gives the exact digits of every integer. JavaScript's `${n}` agrees only for safe integers: above 2^53 it prints the shortest digits that read back to the same number, and from 10^21 it uses exponent form. The `FirebotWebSocket` constructor does not check its port, so its URL for such ports is not modelled; the client constructor passes only ports in 1..65535.
