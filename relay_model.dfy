/**
 The room relay of the collaborative editor's WebSocket server, as a
 sequential state machine. Node runs each event handler to completion, so
 every event (a connection, an inbound message, a close) is one atomic step
 from one relay state to the next.

 The transport is abstract: sending a frame to a connection appends it to
 that connection's outbox, and a connection's `readyState === 1` is a flag
 in `open`.
 */
module RelayModel {

  datatype Option<T> = None | Some(value: T)

  /** Identity of one accepted socket. */
  type ConnId = nat

  /** An opaque payload; the relay never looks inside it. */
  type Msg = seq<bv8>

  /** The room key: the request URL of the connection, used verbatim. */
  type RoomName = string

  /**
   One frame handed to `send`. `binary` is the `binary` option passed to
   `send`: `Some(isBinary)` when the sender's flag is forwarded, `None` when
   `send` is called with the payload alone and the transport's default applies.
   */
  datatype Frame = Frame(payload: Msg, binary: Option<bool>)

  /** A room: its live client set and its append-only history of payloads. */
  datatype Room = Room(clients: set<ConnId>, history: seq<Msg>)

  /**
   The whole relay: the process-wide room registry, and per connection its
   ready state, the room name its handlers closed over, and what it was sent.
   */
  datatype RelayState = RelayState(
    rooms: map<RoomName, Room>,
    open: map<ConnId, bool>,
    bound: map<ConnId, RoomName>,
    outbox: map<ConnId, seq<Frame>>)

  /** The events the relay reacts to, plus the one transport transition it observes. */
  datatype Event =
    | Connect(conn: ConnId, url: RoomName)
    | Message(conn: ConnId, payload: Msg, isBinary: bool)
    | Close(conn: ConnId)
    | Closing(conn: ConnId)   // the socket left OPEN (readyState 2) before its close event

  const Init: RelayState := RelayState(map[], map[], map[], map[])

  /**
   The shape every reachable state has: every accepted connection has a
   ready state, a bound room that is registered and an outbox, and every
   client of a room is a connection bound to that room.
   */
  predicate WellFormed(s: RelayState)
  {
    && s.open.Keys == s.bound.Keys
    && s.outbox.Keys == s.bound.Keys
    && (forall c :: c in s.bound ==> s.bound[c] in s.rooms)
    && (forall n, c :: n in s.rooms && c in s.rooms[n].clients ==> c in s.bound && s.bound[c] == n)
  }

  /** The payloads of a list of frames, in order. */
  function Payloads(fs: seq<Frame>): (ps: seq<Msg>)
    ensures |ps| == |fs|
    ensures forall i :: 0 <= i < |fs| ==> ps[i] == fs[i].payload
  {
    seq(|fs|, i requires 0 <= i < |fs| => fs[i].payload)
  }

  /** What replaying a history sends: each stored payload, in order, with no binary option. */
  function Replayed(h: seq<Msg>): (fs: seq<Frame>)
    ensures |fs| == |h|
    ensures forall i :: 0 <= i < |h| ==> fs[i] == Frame(h[i], None)
  {
    seq(|h|, i requires 0 <= i < |h| => Frame(h[i], None))
  }

  lemma ReplayedSnoc(h: seq<Msg>, m: Msg)
    ensures Replayed(h + [m]) == Replayed(h) + [Frame(m, None)]
  {
  }

  /** A second update of the same key overrides the first. */
  lemma OverwriteKey<K, V>(m: map<K, V>, k: K, v: V, w: V)
    ensures m[k := v][k := w] == m[k := w]
  {
  }

  /** The room a connection's handlers closed over. */
  function RoomOf(s: RelayState, c: ConnId): Room
    requires WellFormed(s) && c in s.bound
  {
    s.rooms[s.bound[c]]
  }

  /** Who a message from `sender` is forwarded to: the other clients of its room that are open. */
  function Recipients(s: RelayState, sender: ConnId): set<ConnId>
    requires WellFormed(s) && sender in s.bound
  {
    set d | d in RoomOf(s, sender).clients && d != sender && s.open[d]
  }

  /** Append `f` to the outbox of every connection in `to`; leave the others as they are. */
  function Deliver(outbox: map<ConnId, seq<Frame>>, to: set<ConnId>, f: Frame): map<ConnId, seq<Frame>>
  {
    map d | d in outbox :: if d in to then outbox[d] + [f] else outbox[d]
  }

  /** An outbox map that agrees with `Deliver` on every connection is `Deliver`'s result. */
  lemma DeliverPointwise(o: map<ConnId, seq<Frame>>, o': map<ConnId, seq<Frame>>, to: set<ConnId>, f: Frame)
    requires o'.Keys == o.Keys
    requires forall d :: d in o' ==> o'[d] == if d in to then o[d] + [f] else o[d]
    ensures o' == Deliver(o, to, f)
  {
  }

  /** The `connection` handler: lazily create the room, join it, replay its history to the new socket. */
  function ConnectStep(s: RelayState, c: ConnId, url: RoomName): (r: RelayState)
    requires WellFormed(s) && c !in s.bound
    ensures WellFormed(r)
  {
    var rooms := if url in s.rooms then s.rooms else s.rooms[url := Room({}, [])];
    var room := rooms[url];
    RelayState(
      rooms[url := room.(clients := room.clients + {c})],
      s.open[c := true],
      s.bound[c := url],
      s.outbox[c := Replayed(room.history)])
  }

  /** The `message` handler: append to the room's history, forward to the open others. */
  function MessageStep(s: RelayState, c: ConnId, m: Msg, isBinary: bool): (r: RelayState)
    requires WellFormed(s) && c in s.bound
    ensures WellFormed(r)
  {
    var room := RoomOf(s, c);
    s.(rooms := s.rooms[s.bound[c] := room.(history := room.history + [m])],
       outbox := Deliver(s.outbox, Recipients(s, c), Frame(m, Some(isBinary))))
  }

  /** The `close` handler: leave the room; the room and its history stay. */
  function CloseStep(s: RelayState, c: ConnId): (r: RelayState)
    requires WellFormed(s) && c in s.bound
    ensures WellFormed(r)
  {
    var room := RoomOf(s, c);
    s.(rooms := s.rooms[s.bound[c] := room.(clients := room.clients - {c})],
       open := s.open[c := false])
  }

  /** The transport moving a socket out of OPEN; no handler runs. */
  function ClosingStep(s: RelayState, c: ConnId): (r: RelayState)
    requires WellFormed(s) && c in s.bound
    ensures WellFormed(r)
  {
    s.(open := s.open[c := false])
  }

  /**
   Whether the environment can deliver `e` in `s`: a connection event comes
   with a socket never seen before; the other events come from a socket
   whose handlers were installed by its connection event.
   */
  predicate Enabled(s: RelayState, e: Event)
  {
    match e
    case Connect(c, _) => c !in s.bound
    case Message(c, _, _) => c in s.bound
    case Close(c) => c in s.bound
    case Closing(c) => c in s.bound
  }

  /** One step of the relay; an event that cannot occur leaves the state as it is. */
  function Step(s: RelayState, e: Event): (r: RelayState)
    requires WellFormed(s)
    ensures WellFormed(r)
  {
    if !Enabled(s, e) then s
    else match e
      case Connect(c, url) => ConnectStep(s, c, url)
      case Message(c, m, b) => MessageStep(s, c, m, b)
      case Close(c) => CloseStep(s, c)
      case Closing(c) => ClosingStep(s, c)
  }

  /** The state after a sequence of events, in order. */
  function Run(s: RelayState, es: seq<Event>): (r: RelayState)
    requires WellFormed(s)
    ensures WellFormed(r)
    decreases |es|
  {
    if es == [] then s else Run(Step(s, es[0]), es[1..])
  }
}
