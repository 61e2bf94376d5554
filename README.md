# Drift realtime connection manager, modelled in Dafny

This project models `SocketManager`, the one stateful component of the Drift chat SDK for iOS. It holds at most one
Birdsong WebSocket (`socket`). `connectToSocket` replaces that socket with a fresh one authenticated by a session
token. When the transport connects, the manager joins the channel `"user:<userId>"` and registers a handler for the
event `"change"`. That handler decodes a nested payload and posts a new-message notification. When the transport
disconnects, the manager posts a disconnected notification and reconnects if the network is reachable. A
reachability signal reconnects a socket that is not connected.

Layout:

- `wrappers.dfy`: `Option`, standing for Swift optionals.
- `json.dfy`: the payload value `J` and the two conditional casts the decoder uses.
- `decimal.dfy`: Swift's rendering of an `Int` in `"\(userId)"`, with a parser. They are used to prove that the
  rendering is injective.
- `change_event.dfy`: the `"change"` decoder as a pure function `Decode`, with outcome `NewMessage(m)`, `Ignored`
  (the logged ignore) or `Dropped` (mapping failed: nothing is logged or posted). ObjectMapper is the function
  parameter `mapMessage`.
- `machine.dfy`: the manager's state and, as step functions, what each entry point does to it. It also holds the
  invariant `Valid`. The transport is abstract. Sockets are numbered in creation order. `captured[i]` is the
  `SocketAuth` that socket `i`'s closures captured. `channels[i]` holds socket `i`'s channels and their registered
  event names; a replaced socket keeps them. Connect, disconnect and channel-join requests are appended to the log
  `issued`. Notifications are appended to the log `posted`.
- `properties.dfy`: one lemma per entry point saying what it guarantees, plus the proof that it keeps `Valid`.
- `socket_manager.dfy`: the class `SocketManager`. Its methods change the fields in place, are specified by the step
  functions, and keep `Valid`.
- `traces.dfy`: arbitrary runs of calls and callbacks. It proves that the invariant holds on every run, that no
  run posts "connected", that a replaced socket receives no further command, and three concrete scenarios.

Behaviour the model follows as the code is written:

- The notification name `driftSocketConnected` (line 18) is declared, but `didConnect` (lines 83-85), the only
  place that posts it, has no caller. No path posts `SocketConnected` (`Traces.NeverPostsConnected`), not even a
  successful channel join.
- Callbacks are not filtered by the socket they come from. A disconnect reported by an already replaced socket still
  posts `SocketDisconnected`, and when the network is reachable it reconnects the socket held *now*
  (`Properties.StaleDisconnectStillActs`). A connect reported by a replaced socket joins, on the current socket, the
  topic of the user id that the old closure captured. A "change" event still delivered on a replaced socket's
  channel posts its message (`Properties.StaleChannelEventStillPosts`).
- `networkDidBecomeReachable` looks only at `isConnected`, not at whether a connect is already under way. A socket
  that is still connecting is asked to connect again on every signal
  (`Properties.ReachableRepeatsWhileNotConnected`).
- `socket?.isConnected == false` is false when there is no socket, so then the handler does nothing.
- An unknown reachability reading is treated as unreachable. This covers a nil reachability manager, where
  `isReachable == true` is false.

## Model

| member | source | states |
|---|---|---|
| `ChangeEvent.Destructure` | Drift/Managers/SocketManager.swift:46 | the conditional bindings succeed exactly on a well-formed payload, and then yield its `object.type` and its `data` |
| `ChangeEvent.Decode` | Drift/Managers/SocketManager.swift:46-60 | ignored exactly when the payload is malformed or its type is not "MESSAGE"; a new message exactly when a well-formed "MESSAGE" payload's data maps, carrying that mapping; otherwise a silent drop |
| `ChangeEvent.MalformedIsIgnored` | Drift/Managers/SocketManager.swift:46-60 | a payload lacking a `body` dictionary, an `object` or `data` dictionary inside it, or a string `object.type` is logged as ignored |
| `ChangeEvent.OtherTypeIsIgnored` | Drift/Managers/SocketManager.swift:48-55 | a well-formed payload whose type is anything other than "MESSAGE" is ignored, whatever its data |
| `ChangeEvent.MessageIsMapped` | Drift/Managers/SocketManager.swift:49-52 | a well-formed "MESSAGE" payload yields exactly the message its data maps to, or a silent drop when mapping fails |
| `ChangeEvent.ChangePayloadIsShaped` | Drift/Managers/SocketManager.swift:46 | the payload shape the backend sends passes every cast, with the type and data it was built from |
| `ChangeEvent.NotIgnoredIsMessage` | Drift/Managers/SocketManager.swift:46-55 | only a well-formed "MESSAGE" payload is not ignored, and the message is the mapping of its `data` |
| `ChangeEvent.OnlyTypeAndDataMatter` | Drift/Managers/SocketManager.swift:46 | a well-formed payload decodes like the canonical payload of its type and data: no other key matters |
| `ChangeEvent.ExtraKeysDoNotMatter` | Drift/Managers/SocketManager.swift:46 | top-level keys other than `body` never change the outcome |
| `Decimal.IntToString` | Drift/Managers/SocketManager.swift:42 | an `Int` renders as a non-empty string that starts with `-` exactly when it is negative, followed by decimal digits only |
| `Decimal.NatToString` | Drift/Managers/SocketManager.swift:42 | a natural number renders as a non-empty string of decimal digits without a leading zero |
| `Decimal.ParseNatToString` | Drift/Managers/SocketManager.swift:42 | reading back a rendered natural number gives the same number |
| `Decimal.IntToStringRoundTrip` | Drift/Managers/SocketManager.swift:42 | reading back a rendered integer, sign included, gives the same integer |
| `Decimal.IntToStringInjective` | Drift/Managers/SocketManager.swift:42 | distinct integers render differently |
| `Machine.UserTopic` | Drift/Managers/SocketManager.swift:42 | the topic is `"user:"` followed by a rendering that reads back as the user id |
| `Properties.UserTopicIdentifiesUser` | Drift/Managers/SocketManager.swift:42 | distinct user ids get distinct channel topics `"user:<id>"` |
| `Properties.TargetsGrow` | Drift/Managers/SocketManager.swift:34-38 | commands go to sockets in creation order; after a disconnect every later command goes to a newer socket, and commands move to a newer socket only if a disconnect lies in between |
| `Properties.TargetsCreated` | Drift/Managers/SocketManager.swift:34-38 | every command goes to a socket the manager has made |
| `Properties.RetiredSocketStaysDisconnected` | Drift/Managers/SocketManager.swift:34-38 | after a socket is told to disconnect, no later connect or join goes to it |
| `Machine.ConnectToSocket` | Drift/Managers/SocketManager.swift:31-75 | the held socket becomes a fresh, unconnected one numbered after all earlier sockets, with `session_token` set; its session is recorded; the old socket's disconnect and then the new socket's connect are appended; nothing is posted |
| `Properties.ConnectToSocketReplaces` | Drift/Managers/SocketManager.swift:31-38 | the old socket is disconnected first; then a fresh socket, never addressed before, for the fixed URL with `session_token` equal to the session token, is held and asked to connect; its closures capture this session and earlier sockets keep theirs; nothing is posted; the invariant is kept |
| `Properties.ConnectThenJoinUsesUser` | Drift/Managers/SocketManager.swift:31-64 | when the new socket connects, it joins the topic of the `userId` handed to `connectToSocket`, and that topic has the "change" handler |
| `Machine.OnConnect` | Drift/Managers/SocketManager.swift:40-64 | on the held socket, one join of the captured user's topic, whose channel gets only the "change" handler; other sockets' channels and the notifications are unchanged; with no socket nothing happens |
| `Machine.TransportConnected` | Drift/Managers/SocketManager.swift:40-64 | the reporting socket, if held, reads connected; then exactly one join for the topic its closure captured; nothing is posted |
| `Properties.TransportConnectedJoins` | Drift/Managers/SocketManager.swift:40-64 | exactly one join, for topic `"user:" + userId`, on the held socket; the channel has a handler for "change" and nothing else; nothing is posted |
| `Machine.OnDisconnect` | Drift/Managers/SocketManager.swift:67-72 | one `SocketDisconnected` is posted, then a connect of the held socket is appended exactly when reachability reads true |
| `Machine.TransportDisconnected` | Drift/Managers/SocketManager.swift:67-72 | the reporting socket, if held, reads not connected; one `SocketDisconnected` is posted; a command is added exactly when reachability reads true and a socket is held |
| `Properties.TransportDisconnectedPostsOnce` | Drift/Managers/SocketManager.swift:67-72 | exactly one `SocketDisconnected` is posted; the held socket is asked to reconnect if and only if reachability reads `true` |
| `Properties.StaleDisconnectStillActs` | Drift/Managers/SocketManager.swift:67-72 | when reachability reads true, a disconnect from a replaced socket still posts and reconnects the socket held now |
| `Machine.NetworkDidBecomeReachable` | Drift/Managers/SocketManager.swift:77-81 | appends a connect of the held socket exactly when one is held and reads not connected; nothing else changes |
| `Properties.ReachableConnectsOnlyWhenDown` | Drift/Managers/SocketManager.swift:77-81 | a connect is requested exactly when a socket is held and is not connected; otherwise nothing changes |
| `Properties.ReachableIdempotentWhileConnected` | Drift/Managers/SocketManager.swift:77-81 | with no socket, or a connected one, the signal changes nothing, however often it arrives |
| `Properties.ReachableRepeatsWhileNotConnected` | Drift/Managers/SocketManager.swift:77-81 | while the socket is not connected, each signal requests another connect |
| `Machine.HandleChange` | Drift/Managers/SocketManager.swift:45-60 | a well-formed "MESSAGE" payload whose data maps posts exactly that message; any other payload changes nothing |
| `Machine.ChannelEvent` | Drift/Managers/SocketManager.swift:44-61 | a message is posted exactly when the reporting socket has a handler for the event on that topic and the payload carries a message; otherwise nothing changes |
| `Properties.ChannelEventPostsDecoded` | Drift/Managers/SocketManager.swift:44-61 | only a "change" handler on a socket the manager made runs; it posts exactly one `NewMessageReceived` carrying the mapped message, or leaves the whole state unchanged |
| `Properties.StaleChannelEventStillPosts` | Drift/Managers/SocketManager.swift:44-52 | after the socket is replaced, the handler on the old socket's channel still posts a decoded message |
| `Manager.SocketManager.constructor` | Drift/Managers/SocketManager.swift:21-29 | a new manager holds no socket and has posted nothing |
| `Manager.SocketManager.ConnectToSocket` | Drift/Managers/SocketManager.swift:31-75 | updates the fields as `Machine.ConnectToSocket` says and keeps the invariant |
| `Manager.SocketManager.OnConnect` | Drift/Managers/SocketManager.swift:40-64 | updates the fields as `Machine.TransportConnected` says and keeps the invariant |
| `Manager.SocketManager.OnDisconnect` | Drift/Managers/SocketManager.swift:67-72 | updates the fields as `Machine.TransportDisconnected` says and keeps the invariant |
| `Manager.SocketManager.NetworkDidBecomeReachable` | Drift/Managers/SocketManager.swift:77-81 | updates the fields as `Machine.NetworkDidBecomeReachable` says and keeps the invariant |
| `Manager.SocketManager.OnChannelEvent` | Drift/Managers/SocketManager.swift:44 | runs the registered handler for the event, as `Machine.ChannelEvent` says, and keeps the invariant |
| `Manager.SocketManager.OnChange` | Drift/Managers/SocketManager.swift:44-61 | posts the decoded message, or nothing, as `Machine.HandleChange` says |
| `Manager.SocketManager.DidConnect` | Drift/Managers/SocketManager.swift:83-85 | appends `SocketConnected` to the notification log |
| `Manager.SocketManager.DidDisconnect` | Drift/Managers/SocketManager.swift:87-89 | appends `SocketDisconnected` to the notification log |
| `Manager.SocketManager.DidReceiveNewMessage` | Drift/Managers/SocketManager.swift:91-93 | appends `NewMessageReceived(m)`, i.e. `userInfo["message"] == m` |
| `Traces.StepValid` | Drift/Managers/SocketManager.swift:31-81 | every call or callback keeps the invariant and leaves earlier notifications in place |
| `Traces.RunValid` | Drift/Managers/SocketManager.swift:31-81 | every run keeps the invariant; the notification log is append-only |
| `Traces.NeverPostsConnected` | Drift/Managers/SocketManager.swift:83-85 | no run from a fresh manager ever posts `SocketConnected` |
| `Traces.HeldSocketIsLatest` | Drift/Managers/SocketManager.swift:29-38 | after any run, a socket is held exactly when one has been made, and it is the one made last |
| `Traces.ReplacedSocketNotReused` | Drift/Managers/SocketManager.swift:34-38 | a socket told to disconnect is older than the one held and gets no command after its disconnect |
| `Traces.ScenarioConnectAndJoin` | Drift/Managers/SocketManager.swift:31-64 | token "abc", user 42: one connect, then a join of "user:42"; nothing posted |
| `Traces.ScenarioDropWhileReachable` | Drift/Managers/SocketManager.swift:31-72 | the same, then a drop while reachable: one `SocketDisconnected` and a second connect of the same socket |
| `Traces.ScenarioDropWhileUnreachable` | Drift/Managers/SocketManager.swift:67-81 | a drop while unreachable: no reconnect until the reachability signal, which then requests one |

## Left out

- Birdsong transport: real WebSocket I/O, join replies and heartbeats are not modelled. The model does not say
  whether `disconnect()` makes the old socket fire `onDisconnect`. Callbacks are inputs, so a run may deliver a
  connect, a disconnect or a channel event from any socket the manager made, held or replaced. `isConnected` is set
  when that socket reports connect or disconnect, and at no other time.
- Birdsong's `channel(_:)` is modelled as making a fresh channel stored under its topic, with no handlers yet.
- ObjectMapper and the `Message` fields: the mapping is the parameter `mapMessage`, and the message type is a type
  parameter.
- `NotificationCenter`, the observer registration and the `sharedInstance` singleton (lines 23-27): posting is an
  append to `posted`. The observer is modelled by calling `NetworkDidBecomeReachable` directly.
- `ReachabilityManager`: `start()` (line 33) and its edge detection live outside this file. Its reading is an
  input of type `Option<bool>`.
- `print` (line 45) and the text of `LoggerManager.log`: only the difference between `Ignored` (logged) and
  `Dropped` (silent) is kept, in `ChangeEvent.Outcome`. At manager level both leave the state unchanged.
- The endpoint URL is a constant string. It is never parsed, and the force-unwrap of `URL(string:)` is not modelled.
- Threads and the order of callbacks across them: callbacks are delivered one at a time.
- JSON numbers are integers (`JNum`). Floating point does not affect the decoder, which reads only dictionaries and
  one string.
- `SocketAuth` is defined outside SocketManager.swift. Its `userId` is taken to be a non-optional Swift `Int`. This
  matters for `Properties.UserTopicIdentifiesUser`: an optional or implicitly unwrapped `Int` would render in
  `"\(userId)"` as `"Optional(…)"`, not as the bare digits the model uses.
