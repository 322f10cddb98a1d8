# Room relay of the collaborative editor server

The collaborative editor's server (`server.js`) is a WebSocket relay. Every
connection joins the room named by its request URL. The server keeps one
process-wide registry `rooms`, a map from room name to the room's client
set and its message history. Three handlers act on a connection:

- **connection**: creates the room if it is missing, adds the socket to the
  room, and replays the room's history to that socket only.
- **message**: appends the payload to the room's history and forwards it to
  every other client of the room whose `readyState` is OPEN.
- **close**: removes the socket from its room. The room and its history are
  never deleted.

Node runs each handler to completion, so the model treats every event as
one atomic step. It has three layers:

- `RelayModel` (`relay_model.dfy`) holds the state and the step functions.
  The state `RelayState` has four parts:
  - the registry `rooms`;
  - per connection, its ready state `open`;
  - per connection, the room name its handlers closed over, `bound`;
  - per connection, everything `send` handed to it, `outbox`.

  `ConnectStep`, `MessageStep`, `CloseStep` and `ClosingStep` give the effect
  of each event. `Step` and `Run` apply one event or a sequence of events.
  `WellFormed` is the shape every state keeps: every client of a room is
  bound to that room, and every bound room is registered.
- `RelayServer` (`relay_server.dfy`) is the server as it runs: a class
  `Relay` with those four fields, changed in place. Replay and fan-out are
  `while` loops that call `Send` once per frame. Each handler is proved to
  make exactly the step that `RelayModel` defines.
- `RelayProperties` (`relay_properties.dfy`) proves what the relay promises
  about those steps:
  - the effect of each handler;
  - the registry and every history only ever grow;
  - events in one room do not affect any other room;
  - the sender never gets its own message back;
  - what every connection has been sent is a subsequence of its own room's
    history: in append order, each entry at most once (`Ordered`). It need
    not be the whole history: a sender does not get its own messages back,
    and a socket that has left OPEN misses later fan-out. `Ordered` compares
    payload values; that an event never changes the outbox of a connection
    bound to another room is `StepIsolatesRooms`;
  - a connection that joins and then stays open without sending anything
    receives exactly its room's history, replay first and then live
    messages, with no gap and no duplicate (`JoinerSeesFullHistory`). One
    that sends receives that history without its own messages, which is not
    proved (see "## Left out").

The transport is abstract. `send` appends a `Frame` to the recipient's
outbox. `Frame.binary` records the `binary` option passed to `send`:
`Some(isBinary)` on the fan-out path, and `None` on the replay path, where
`send` gets the payload alone. Payloads are opaque byte sequences.

A relay of this kind is usually expected to replay before it joins, to
keep each message's binary flag, to forward to every other member of the
room, and to drop a recipient whose write fails. The code differs in these
places, and the model follows the code:

- The code adds the socket to `room.clients` (line 24) before it replays
  the history (lines 28-33). Nothing else runs between the two steps, and
  replay writes only to the new socket, so the final state is the same as
  with replay first.
- The history stores only the payload (line 38). Replay therefore sends
  each payload without the sender's binary flag (line 31).
  `ConnectReplaysHistory` states that every replayed frame has
  `binary == None`.
- Fan-out skips clients whose `readyState` is not OPEN (line 42), as well
  as the sender.
- A failed write is not handled: nothing closes or removes that recipient.

## Model

| member | source | states |
|---|---|---|
| RelayServer.Relay.constructor | server.js:9 | the registry starts empty and no connection is known (`State() == Init`) |
| RelayServer.Relay.Send | server.js:43 | `send` appends exactly one frame to the recipient's outbox and changes nothing else |
| RelayServer.Relay.Replay | server.js:28-33 | after the loop, the fresh socket's outbox is the stored payloads in history order, each without a binary option; no other outbox changes |
| RelayServer.Relay.Broadcast | server.js:41-45 | after the loop over the client set, each client other than the sender whose ready state is OPEN has the frame appended exactly once; every other outbox is unchanged |
| RelayServer.Relay.Connect | server.js:11-33 | the connection handler keeps the invariant and produces exactly `ConnectStep` of the old state |
| RelayServer.Relay.OnMessage | server.js:36-46 | the message handler keeps the invariant and produces exactly `MessageStep` of the old state |
| RelayServer.Relay.OnClose | server.js:49-58 | the close handler keeps the invariant and produces exactly `CloseStep` of the old state |
| RelayServer.Relay.OnClosing | server.js:42 | a socket that leaves OPEN before its close event keeps its room membership but no longer counts as open |
| RelayServer.Relay.Handle | server.js:11-59 | dispatching any event to its handler produces exactly `Step` of the old state |
| RelayModel.ConnectStep | server.js:11-33 | lazy creation, join and replay keep every client bound to a registered room |
| RelayModel.MessageStep | server.js:36-46 | append and fan-out keep the registry well formed |
| RelayModel.CloseStep | server.js:49-58 | leaving a room keeps the registry well formed |
| RelayModel.ClosingStep | server.js:42 | a socket leaving OPEN keeps the registry well formed |
| RelayModel.Step | server.js:11-59 | every event keeps the registry well formed |
| RelayModel.Run | server.js:9-59 | every sequence of events keeps the registry well formed |
| RelayProperties.ConnectResolvesRoom | server.js:15-24 | the registry gains exactly the URL's room. A missing room is created holding only the new client and an empty history. An existing room keeps its history and gains the client |
| RelayProperties.ConnectUsesUrlVerbatim | server.js:12-24 | the connection is bound to the URL itself, is a client of that room and of no other, and is open there |
| RelayProperties.ConnectTouchesOnlyItsRoom | server.js:23-25 | no other room changes, and so does no other connection's binding or ready state |
| RelayProperties.ConnectReplaysHistory | server.js:28-33 | the new connection is sent exactly the room's prior history, in order, with no binary flag; every other outbox is unchanged |
| RelayProperties.MessageAppendsToHistory | server.js:38 | the room's history becomes the old history plus the payload, one element longer; its clients and every other room are unchanged |
| RelayProperties.MessageBroadcastsToOthers | server.js:41-45 | a connection's outbox gains the payload once, with the sender's flag, if and only if it is an open client of the sender's room other than the sender; otherwise it is unchanged |
| RelayProperties.MessageNotEchoed | server.js:41-43 | the sender's outbox is unchanged, and so is that of every connection bound to another room |
| RelayProperties.CloseLeavesRoom | server.js:49-57 | only the closing connection leaves its room's client set; the room stays registered with its history; outboxes and bindings are unchanged |
| RelayProperties.LastCloseKeepsRoom | server.js:53-57 | when the last client closes, the room stays registered with an empty client set and its full history |
| RelayProperties.StepKeepsRoomsAndHistory | server.js:15-50 | no event removes a room; every history after an event has the old history as a prefix |
| RelayProperties.StepIsolatesRooms | server.js:23-50 | an event changes no room other than its own, and no outbox of a connection bound to another room |
| RelayProperties.RunKeepsRoomsAndHistory | server.js:9-59 | over any run, rooms are never removed and histories are only extended |
| RelayProperties.RunKeepsBindings | server.js:12 | a connection's room, fixed when it connects, never changes |
| RelayProperties.InitOrdered | server.js:9 | the empty registry satisfies the delivery invariant |
| RelayProperties.StepPreservesOrdered | server.js:28-45 | every event keeps each connection's received payloads a subsequence of its own room's history |
| RelayProperties.RunPreservesOrdered | server.js:28-45 | every run keeps that delivery invariant |
| RelayProperties.ReceivesOnlyOwnRoom | server.js:28-45 | from start-up on, a connection is never sent more payloads than its room's history holds, nor any payload that history does not hold |
| RelayProperties.ObserverStep | server.js:38-45 | while a connection stays an open client, an event from someone else grows its room's history by exactly what it adds to that connection's outbox |
| RelayProperties.ObserverRun | server.js:38-45 | the same holds over every run of events from other connections |
| RelayProperties.JoinerSeesFullHistory | server.js:23-45 | a connection that joins and then stays open without sending has been sent exactly its room's history: the replayed prefix, then every later message, in order, with no gap and no duplicate |
| RelayProperties.RejoinReplaysPriorHistory | server.js:28-57 | after any run, including one in which every client left, a new connection to a room is replayed exactly the room's whole history at the moment it joins, which begins with all that the room held at the start of the run |

## Left out

- The `ws` and `http` transport, `server.listen`, the port and all `console.log` output (server.js:2-6, 20, 25, 29, 51, 61-63). These are I/O: `send` is an append to an outbox.
- The real `readyState` transitions of a socket. The environment step `Closing` sets the open flag to false, and the close handler does the same. A connection is open from its connection event on.
- What the `ws` library does when `send` gets no `binary` option. The replay path records `None` and does not say which frame type goes on the wire.
- Socket errors. The code attaches no `'error'` listener to a socket, so an error on one connection is not handled by the relay; what the transport and Node then do with the process is outside the model, which has no error event.
- Write errors and backpressure. The code does not handle them, and `send` never fails in the model.
- Concurrency. Node runs the handlers one at a time, so each event is one atomic step.
- Identity of sockets beyond a number. The transport never delivers a connection event twice for one socket, so `Connect` requires a connection that has not been seen. Message and close events come only from sockets that did connect; any other event is ignored by `Step`. The model's environment may also deliver a message, close or closing event after a connection's close event, which the transport never does. Every property about runs therefore covers more runs than can happen.
- JoinerSeesFullHistory: only covers a connection that sends nothing itself. A connection that does send receives the history without its own messages, and no lemma states that.
- The client (`client/src/components/EditorPage.jsx`, `Chat.jsx`, `Home.jsx`, `client/src/App.jsx`). It is UI, routing, a CRDT library and a call to a remote code-execution API, all outside the relay.
- Concrete walk-throughs with fixed names and payloads are not stated separately. They are instances of `JoinerSeesFullHistory`, `MessageNotEchoed`, `StepIsolatesRooms` and `RejoinReplaysPriorHistory`.
