# Pusher websocket connection — a verified model

This project models the connection layer of the Pusher Java client: the
`WebsocketConnection` object that owns one websocket, tracks its lifecycle
(DISCONNECTED, CONNECTING, CONNECTED), turns inbound protocol frames into
state changes, errors or router deliveries, and offers `sendMessage` as the
outbound path. The behaviour modelled is the one the class's unit tests pin
down call by call, run with a synchronous executor, so every call is handled
to completion before the next.

Layout:

- `wrappers.dfy` — `Option`, standing for Java's `null`.
- `connection.dfy` — module `Connection`: `ConnectionState`, `StateChange`
  (previous, current), the lifecycle graph `IsTransition`, and `ErrorEvent`
  (message, code, cause). An exception is a `Cause` identity.
- `decimal.dfy` — module `Decimal`: the decimal text a numeric
  `pusher:error` code is rendered to, with its parser as the inverse.
- `websocket.dfy` — module `Websocket`: decoded frames, the
  `Observation` of everything the collaborators (listener, transport,
  router) have seen, one step function per call, `Run` over a sequence of
  calls, the lemmas, and the class `WebsocketConnection`. Each method of the
  class updates its fields in place and ensures that its new observation is
  the step function applied to the old one. Its object invariant `Valid()`
  is `Coherent`: the notifications form a walk of the lifecycle graph that
  ends in the current state.
- `scenarios.dfy` — module `WebsocketScenarios`: each recorded test as
  client code of the class. Each method returns what the collaborators saw.

Inputs the real code gets from elsewhere are parameters. A frame arrives
already decoded (`Established`, `ProtoError`, `App`). Whether the transport's
`send` throws, and what it throws, is the `failure` argument of
`SendMessage`. The exception passed to `onError` is a `Cause`.

Where the tests are silent, the lifecycle graph `IsTransition`
(connection.dfy) and the step functions of websocket.dfy decide. A `connection_established` frame is acted on only while CONNECTING.
Application frames go to the router in every state. `sendMessage` while
CONNECTING is rejected like while DISCONNECTED, naming the state.
`onClose` and `onError` while DISCONNECTED notify no state change, and
`onError` still raises its error. No test exercises these cases, and no
lemma claims them as tested behaviour.

## Model

| member | source | states |
|---|---|---|
| Websocket.WebsocketConnection.constructor | src/test/java/com/pusher/client/connection/websocket/WebsocketConnectionTest.java:45-55 | a new connection is DISCONNECTED, has no listener, and no collaborator has observed anything |
| Websocket.WebsocketConnection.SetEventListener | src/test/java/com/pusher/client/connection/websocket/WebsocketConnectionTest.java:54 | registers the listener; from then on state changes and errors reach it; nothing else changes |
| Websocket.WebsocketConnection.GetState | src/test/java/com/pusher/client/connection/websocket/WebsocketConnectionTest.java:59 | returns the current state without changing anything |
| Websocket.WebsocketConnection.Connect | src/test/java/com/pusher/client/connection/websocket/WebsocketConnectionTest.java:62-82 | the new observation is `ConnectStep` of the old one: opens the transport and moves to CONNECTING only from DISCONNECTED |
| Websocket.WebsocketConnection.OnMessage | src/test/java/com/pusher/client/connection/websocket/WebsocketConnectionTest.java:84-111 | the new observation is `ReceiveStep` of the old one: establishes, raises a protocol error, or routes the frame |
| Websocket.WebsocketConnection.SendMessage | src/test/java/com/pusher/client/connection/websocket/WebsocketConnectionTest.java:113-140 | the new observation is `SendStep` of the old one: forwards to the transport only while CONNECTED, otherwise or on a throwing send raises an error |
| Websocket.WebsocketConnection.OnClose | src/test/java/com/pusher/client/connection/websocket/WebsocketConnectionTest.java:151-158 | the new observation is `CloseStep` of the old one: moves to DISCONNECTED, notifying only if the state changed |
| Websocket.WebsocketConnection.OnError | src/test/java/com/pusher/client/connection/websocket/WebsocketConnectionTest.java:160-169 | the new observation is `TransportErrorStep` of the old one: moves to DISCONNECTED and raises the websocket error carrying the cause |
| Websocket.ConnectFromDisconnected | src/test/java/com/pusher/client/connection/websocket/WebsocketConnectionTest.java:62-73 | from DISCONNECTED, connect calls the transport once, moves to CONNECTING, and appends exactly DISCONNECTED→CONNECTING; errors, sends and deliveries are unchanged |
| Websocket.ConnectWhileLiveIsIgnored | src/test/java/com/pusher/client/connection/websocket/WebsocketConnectionTest.java:75-82 | connect while CONNECTING or CONNECTED changes nothing: no transport call, no notification |
| Websocket.RepeatedConnect | src/test/java/com/pusher/client/connection/websocket/WebsocketConnectionTest.java:75-82 | any n ≥ 1 consecutive connects have exactly the effect of the first one |
| Websocket.ConnectsIdleWhileLive | src/test/java/com/pusher/client/connection/websocket/WebsocketConnectionTest.java:75-82 | any number of connects while CONNECTING or CONNECTED leave the observation unchanged |
| Websocket.EstablishedWhileConnecting | src/test/java/com/pusher/client/connection/websocket/WebsocketConnectionTest.java:84-93 | connection_established while CONNECTING moves to CONNECTED and appends exactly CONNECTING→CONNECTED |
| Websocket.EstablishedWhileConnectedIsIgnored | src/test/java/com/pusher/client/connection/websocket/WebsocketConnectionTest.java:95-102 | a second connection_established while CONNECTED changes nothing, so no second notification |
| Websocket.ErrorFrameRaisesError | src/test/java/com/pusher/client/connection/websocket/WebsocketConnectionTest.java:104-111 | a pusher:error frame appends one error (message, code as decimal text, no cause) and changes nothing else; the text parses back to the frame's code, and an absent code stays absent |
| Websocket.SendWhileConnected | src/test/java/com/pusher/client/connection/websocket/WebsocketConnectionTest.java:113-120 | while CONNECTED the payload is appended verbatim to the transport's sends, with no error |
| Websocket.SendWhileNotConnected | src/test/java/com/pusher/client/connection/websocket/WebsocketConnectionTest.java:122-128 | while not CONNECTED the transport's sends are unchanged and one error "Cannot send a message while in <STATE> state" with no code and no cause is appended |
| Websocket.SendWhenTransportThrows | src/test/java/com/pusher/client/connection/websocket/WebsocketConnectionTest.java:130-140 | when the transport's send throws e, one error naming the payload in brackets and carrying e is appended |
| Websocket.SendRejectedMessageNamesState | src/test/java/com/pusher/client/connection/websocket/WebsocketConnectionTest.java:127 | two rejection messages are equal exactly when they name the same state |
| Websocket.SendFailedMessageNamesPayload | src/test/java/com/pusher/client/connection/websocket/WebsocketConnectionTest.java:139 | the payload can be read back between the brackets of the send-failure message |
| Websocket.AppFrameIsRouted | src/test/java/com/pusher/client/connection/websocket/WebsocketConnectionTest.java:142-149 | an application frame reaches the router as (event name, raw frame), and state and all other logs are unchanged |
| Websocket.CloseWhileLive | src/test/java/com/pusher/client/connection/websocket/WebsocketConnectionTest.java:151-158 | onClose while CONNECTING or CONNECTED moves to DISCONNECTED, appends exactly one notification from the old state, and raises no error |
| Websocket.TransportErrorWhileLive | src/test/java/com/pusher/client/connection/websocket/WebsocketConnectionTest.java:160-169 | onError(e) while CONNECTING or CONNECTED moves to DISCONNECTED, appends one notification from the old state and one error "An exception was thrown by the websocket" carrying e |
| Websocket.NotifiesExactlyOnChange | src/test/java/com/pusher/client/connection/websocket/WebsocketConnectionTest.java:75-102 | every call notifies at most once, always with (old state, new state), and it notifies exactly when a listener is registered and the state changes |
| Websocket.ApplyMovesAlongGraph | src/test/java/com/pusher/client/connection/websocket/WebsocketConnectionTest.java:62-169 | every call keeps the state or moves it along one edge of the lifecycle graph, whether or not a listener is registered |
| Websocket.TransitionKeepsCoherent | src/test/java/com/pusher/client/connection/websocket/WebsocketConnectionTest.java:84-93 | a move along a graph edge, or to the same state, keeps the notification walk ending in the current state |
| Websocket.ApplyKeepsCoherent | src/test/java/com/pusher/client/connection/websocket/WebsocketConnectionTest.java:151-169 | every call keeps the notifications a walk of the lifecycle graph ending in the current state |
| Websocket.RunKeepsCoherent | src/test/java/com/pusher/client/connection/websocket/WebsocketConnectionTest.java:84-102 | the same holds after any sequence of calls |
| Websocket.SendGating | src/test/java/com/pusher/client/connection/websocket/WebsocketConnectionTest.java:113-128 | the transport's send log changes only on a sendMessage while CONNECTED, and then only by that payload |
| Websocket.RunExtends | src/test/java/com/pusher/client/connection/websocket/WebsocketConnectionTest.java:62-169 | over any sequence of calls every collaborator's log only grows and a registered listener stays registered |
| Websocket.ConnectsMatchOpenings | src/test/java/com/pusher/client/connection/websocket/WebsocketConnectionTest.java:62-82 | with a listener registered, the transport connect calls made equal the DISCONNECTED→CONNECTING notifications delivered, over any sequence of calls |
| Decimal.NatToDecimalIsCanonical | src/test/java/com/pusher/client/connection/websocket/WebsocketConnectionTest.java:109-110 | a non-negative code renders to digits without a leading zero that denote that code |
| Decimal.IntToDecimalRoundTrip | src/test/java/com/pusher/client/connection/websocket/WebsocketConnectionTest.java:109-110 | every code's decimal text parses back to the same code |
| Decimal.CanonicalRoundTrip | src/test/java/com/pusher/client/connection/websocket/WebsocketConnectionTest.java:109-110 | a canonical digit string is the rendering of its own value |
| Decimal.ParseDecimalRoundTrip | src/test/java/com/pusher/client/connection/websocket/WebsocketConnectionTest.java:109-110 | every string that parses is exactly the rendering of the value it parses to |
| WebsocketScenarios.NewConnection | src/test/java/com/pusher/client/connection/websocket/WebsocketConnectionTest.java:45-55 | a connection built with API key 123456 and a listener registered, with nothing observed yet |
| WebsocketScenarios.ConnectAndEstablish | src/test/java/com/pusher/client/connection/websocket/WebsocketConnectionTest.java:173-176 | connecting and then receiving connection_established leaves the observation the two steps give |
| WebsocketScenarios.StartsInDisconnectedState | src/test/java/com/pusher/client/connection/websocket/WebsocketConnectionTest.java:57-60 | a fresh connection reports DISCONNECTED |
| WebsocketScenarios.ConnectCallIsDelegated | src/test/java/com/pusher/client/connection/websocket/WebsocketConnectionTest.java:62-66 | connect calls the transport's connect once |
| WebsocketScenarios.ConnectUpdatesStateAndNotifies | src/test/java/com/pusher/client/connection/websocket/WebsocketConnectionTest.java:68-73 | after connect the listener heard exactly DISCONNECTED→CONNECTING and the state is CONNECTING |
| WebsocketScenarios.ConnectTwiceConnectsOnce | src/test/java/com/pusher/client/connection/websocket/WebsocketConnectionTest.java:75-82 | two connects make one transport connect and one notification |
| WebsocketScenarios.EstablishedMessageConnects | src/test/java/com/pusher/client/connection/websocket/WebsocketConnectionTest.java:84-93 | connect then connection_established: notifications DISCONNECTED→CONNECTING, CONNECTING→CONNECTED; state CONNECTED |
| WebsocketScenarios.EstablishedTwiceNotifiesTwice | src/test/java/com/pusher/client/connection/websocket/WebsocketConnectionTest.java:95-102 | connect and two connection_established frames make exactly two notifications |
| WebsocketScenarios.ErrorMessageRaisesError | src/test/java/com/pusher/client/connection/websocket/WebsocketConnectionTest.java:104-111 | the error frame with code 4001 yields exactly the error ("Could not find app by key 12345", "4001", null) |
| WebsocketScenarios.SendWhenConnectedReachesTransport | src/test/java/com/pusher/client/connection/websocket/WebsocketConnectionTest.java:113-120 | once connected, sendMessage("message") makes the transport send exactly "message" |
| WebsocketScenarios.SendWhenDisconnectedRaisesError | src/test/java/com/pusher/client/connection/websocket/WebsocketConnectionTest.java:122-128 | sendMessage while DISCONNECTED sends nothing and raises exactly ("Cannot send a message while in DISCONNECTED state", null, null) |
| WebsocketScenarios.SendWhenTransportThrowsRaisesError | src/test/java/com/pusher/client/connection/websocket/WebsocketConnectionTest.java:130-140 | a throwing send raises exactly ("An exception occurred while sending message [message]", null, e) |
| WebsocketScenarios.UserMessageReachesRouter | src/test/java/com/pusher/client/connection/websocket/WebsocketConnectionTest.java:142-149 | the application frame reaches the router exactly once as ("my-event", raw frame), and the state stays CONNECTED |
| WebsocketScenarios.OnCloseDisconnects | src/test/java/com/pusher/client/connection/websocket/WebsocketConnectionTest.java:151-158 | connect then onClose: notifications DISCONNECTED→CONNECTING, CONNECTING→DISCONNECTED; no error |
| WebsocketScenarios.OnErrorDisconnectsAndRaisesError | src/test/java/com/pusher/client/connection/websocket/WebsocketConnectionTest.java:160-169 | connect then onError(e): the same two notifications and exactly the error ("An exception was thrown by the websocket", null, e) |

## Left out

- Decoding of the JSON envelope, including the string-encoded nested `data` of connection_established. Frames arrive already decoded. The decoder is not part of this model.
- Malformed frames and their decode-failure error. They exist only once JSON decoding does.
- Storing the `socket_id` carried by connection_established. The frame carries it, and the model ignores it.
- The real socket, the URI built from the API key, TLS and reconnection. The transport is the count of its `connect` calls and the log of its `send` payloads.
- Threading, locking and the event queue. Calls are handled one at a time and to completion, as with the synchronous executor.
- The interleaving of state-change and error notifications. They are two separate logs, so `onError` asserts no order between its two notifications.
- The listener's identity. Registering a listener sets one slot. Replacing a listener with another is not distinguished.
- The close code, reason and remote flag of `onClose`. They are taken as parameters and do not affect the outcome.
- Error codes that are not integers. A code is an `int`, rendered the way Java renders an integer, with a minus sign when negative.
