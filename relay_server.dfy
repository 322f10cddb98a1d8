/**
 The relay as the server keeps it: one object holding the process-wide room
 registry and the per-connection state, whose three handlers update it in
 place. Each handler is proved to make exactly the step RelayModel defines,
 so everything RelayProperties proves about those steps holds of it.
 */
module RelayServer {
  import opened RelayModel

  class Relay {
    /** The room registry: room name to client set and history. */
    var rooms: map<RoomName, Room>
    /** Per connection: whether its readyState is OPEN. */
    var open: map<ConnId, bool>
    /** Per connection: the room name its handlers closed over. */
    var bound: map<ConnId, RoomName>
    /** Per connection: every frame sent to it, in order. */
    var outbox: map<ConnId, seq<Frame>>

    /** The abstract value of the relay. */
    function State(): RelayState
      reads this
    {
      RelayState(rooms, open, bound, outbox)
    }

    ghost predicate Valid()
      reads this
    {
      WellFormed(State())
    }

    /** A server that has accepted nothing yet. */
    constructor ()
      ensures Valid() && State() == Init
    {
      rooms, open, bound, outbox := map[], map[], map[], map[];
    }

    /** The transport's `send`: append one frame to a connection's outbox. */
    method Send(c: ConnId, f: Frame)
      requires c in outbox
      modifies this`outbox
      ensures outbox == old(outbox)[c := old(outbox)[c] + [f]]
    {
      outbox := outbox[c := outbox[c] + [f]];
    }

    /** Replay a history to the fresh socket `c`: when there is any, send it every stored payload, in order. */
    method Replay(c: ConnId, h: seq<Msg>)
      requires c in outbox && outbox[c] == []
      modifies this`outbox
      ensures outbox == old(outbox)[c := Replayed(h)]
    {
      if |h| == 0 {
        assert Replayed(h) == [];
        return;
      }
      var i := 0;
      assert Replayed(h[..0]) == [];
      while i < |h|
        invariant 0 <= i <= |h|
        invariant outbox == old(outbox)[c := Replayed(h[..i])]
      {
        assert h[..i + 1] == h[..i] + [h[i]];
        ReplayedSnoc(h[..i], h[i]);
        Send(c, Frame(h[i], None));
        i := i + 1;
      }
      assert h[..i] == h;
    }

    /**
     `room.clients.forEach(...)`: send `f` to every member of `clients` other
     than `sender` whose readyState is OPEN, once each.
     */
    method Broadcast(clients: set<ConnId>, sender: ConnId, f: Frame)
      requires clients <= outbox.Keys && clients <= open.Keys
      modifies this`outbox
      ensures outbox == Deliver(old(outbox), (set d | d in clients && d != sender && open[d]), f)
    {
      var todo := clients;
      while todo != {}
        invariant todo <= clients
        invariant outbox.Keys == old(outbox).Keys
        invariant forall d :: d in outbox ==>
          outbox[d] == if d in clients - todo && d != sender && open[d]
                       then old(outbox)[d] + [f] else old(outbox)[d]
        decreases todo
      {
        var client :| client in todo;
        if client != sender && open[client] {
          Send(client, f);
        }
        todo := todo - {client};
      }
      DeliverPointwise(old(outbox), outbox, (set d | d in clients && d != sender && open[d]), f);
    }

    /** The `connection` handler for a new socket `c` whose request URL is `url`. */
    method Connect(c: ConnId, url: RoomName)
      requires Valid() && c !in bound
      modifies this
      ensures Valid() && State() == ConnectStep(old(State()), c, url)
    {
      ghost var target := ConnectStep(State(), c, url);
      if url !in rooms {
        rooms := rooms[url := Room({}, [])];
      }
      var room := rooms[url];
      rooms := rooms[url := room.(clients := room.clients + {c})];
      open := open[c := true];
      bound := bound[c := url];
      ghost var accepted := outbox;
      outbox := outbox[c := []];
      Replay(c, room.history);
      OverwriteKey(accepted, c, [], Replayed(room.history));
      assert State() == target;
    }

    /** The `message` handler of socket `c`, receiving `m` with binary flag `isBinary`. */
    method OnMessage(c: ConnId, m: Msg, isBinary: bool)
      requires Valid() && c in bound
      modifies this
      ensures Valid() && State() == MessageStep(old(State()), c, m, isBinary)
    {
      var name := bound[c];
      var room := rooms[name];
      rooms := rooms[name := room.(history := room.history + [m])];
      Broadcast(room.clients, c, Frame(m, Some(isBinary)));
    }

    /** The `close` handler of socket `c`; the transport has already left OPEN. */
    method OnClose(c: ConnId)
      requires Valid() && c in bound
      modifies this
      ensures Valid() && State() == CloseStep(old(State()), c)
    {
      var name := bound[c];
      var room := rooms[name];
      rooms := rooms[name := room.(clients := room.clients - {c})];
      open := open[c := false];
    }

    /** The transport moving socket `c` out of OPEN before its close event. */
    method OnClosing(c: ConnId)
      requires Valid() && c in bound
      modifies this
      ensures Valid() && State() == ClosingStep(old(State()), c)
    {
      open := open[c := false];
    }

    /** Deliver one event to the handler it belongs to; an event that cannot occur is ignored. */
    method Handle(e: Event)
      requires Valid()
      modifies this
      ensures Valid() && State() == Step(old(State()), e)
    {
      if Enabled(State(), e) {
        match e
        case Connect(c, url) => Connect(c, url);
        case Message(c, m, b) => OnMessage(c, m, b);
        case Close(c) => OnClose(c);
        case Closing(c) => OnClosing(c);
      }
    }
  }
}
