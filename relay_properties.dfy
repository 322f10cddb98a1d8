/**
 What the relay promises, proved about the step functions of RelayModel:
 each handler's effect, the registry and history never shrinking, room
 isolation, sender exclusion, ordered delivery without duplicates, and full
 replay to a late joiner.
 */
module RelayProperties {
  import opened RelayModel

  /** The room an enabled event acts on. */
  function EventRoom(s: RelayState, e: Event): RoomName
    requires WellFormed(s) && Enabled(s, e)
  {
    match e
    case Connect(_, url) => url
    case _ => s.bound[e.conn]
  }

  // ---------------------------------------------------------------------------
  // The connection handler

  /** A room is created empty exactly when its name is absent; an existing room keeps its history. */
  lemma ConnectResolvesRoom(s: RelayState, c: ConnId, url: RoomName)
    requires WellFormed(s) && c !in s.bound
    ensures var r := Step(s, Connect(c, url));
      && r.rooms.Keys == s.rooms.Keys + {url}
      && (url !in s.rooms ==> r.rooms[url] == Room({c}, []))
      && (url in s.rooms ==> r.rooms[url] == Room(s.rooms[url].clients + {c}, s.rooms[url].history))
  {
  }

  /** The room key is the URL itself: the connection is bound to, and joins, the room of that exact name. */
  lemma ConnectUsesUrlVerbatim(s: RelayState, c: ConnId, url: RoomName)
    requires WellFormed(s) && c !in s.bound
    ensures var r := Step(s, Connect(c, url));
      && r.bound[c] == url
      && url in r.rooms && c in r.rooms[url].clients
      && r.open[c]
      && (forall n :: n in r.rooms && c in r.rooms[n].clients ==> n == url)
  {
  }

  /** Joining changes no other room, and no other connection's binding or ready state. */
  lemma ConnectTouchesOnlyItsRoom(s: RelayState, c: ConnId, url: RoomName)
    requires WellFormed(s) && c !in s.bound
    ensures var r := Step(s, Connect(c, url));
      && (forall n :: n in s.rooms && n != url ==> r.rooms[n] == s.rooms[n])
      && (forall d :: d in s.bound ==> r.bound[d] == s.bound[d] && r.open[d] == s.open[d])
  {
  }

  /**
   Replay sends the room's history, every payload in append order, to the new
   connection only, without the binary flag the payload arrived with.
   */
  lemma ConnectReplaysHistory(s: RelayState, c: ConnId, url: RoomName)
    requires WellFormed(s) && c !in s.bound
    ensures var r := Step(s, Connect(c, url));
      && Payloads(r.outbox[c]) == (if url in s.rooms then s.rooms[url].history else [])
      && (forall i :: 0 <= i < |r.outbox[c]| ==> r.outbox[c][i].binary == None)
      && r.outbox.Keys == s.outbox.Keys + {c}
      && (forall d :: d in s.outbox ==> r.outbox[d] == s.outbox[d])
  {
  }

  // ---------------------------------------------------------------------------
  // The message handler

  /** The payload is appended to the sender's room history; nothing else in the registry changes. */
  lemma MessageAppendsToHistory(s: RelayState, c: ConnId, m: Msg, isBinary: bool)
    requires WellFormed(s) && c in s.bound
    ensures var r := Step(s, Message(c, m, isBinary)); var n := s.bound[c];
      && r.rooms.Keys == s.rooms.Keys
      && r.rooms[n].history == s.rooms[n].history + [m]
      && |r.rooms[n].history| == |s.rooms[n].history| + 1
      && r.rooms[n].clients == s.rooms[n].clients
      && (forall n' :: n' in s.rooms && n' != n ==> r.rooms[n'] == s.rooms[n'])
      && r.bound == s.bound && r.open == s.open
  {
  }

  /**
   Fan-out: a connection receives the payload, once and with the sender's
   binary flag, exactly when it is another open client of the sender's room;
   every other outbox is unchanged.
   */
  lemma MessageBroadcastsToOthers(s: RelayState, c: ConnId, m: Msg, isBinary: bool)
    requires WellFormed(s) && c in s.bound
    ensures var r := Step(s, Message(c, m, isBinary));
      && r.outbox.Keys == s.outbox.Keys
      && forall d :: d in s.outbox ==>
           r.outbox[d] == if d in s.rooms[s.bound[c]].clients && d != c && s.open[d]
                          then s.outbox[d] + [Frame(m, Some(isBinary))]
                          else s.outbox[d]
  {
  }

  /** The sender never receives its own message, and nobody bound to another room receives it. */
  lemma MessageNotEchoed(s: RelayState, c: ConnId, m: Msg, isBinary: bool)
    requires WellFormed(s) && c in s.bound
    ensures var r := Step(s, Message(c, m, isBinary));
      && r.outbox[c] == s.outbox[c]
      && (forall d :: d in s.bound && s.bound[d] != s.bound[c] ==> r.outbox[d] == s.outbox[d])
  {
  }

  // ---------------------------------------------------------------------------
  // The close handler

  /** Closing leaves the room: only this connection leaves the client set; the room and its history stay. */
  lemma CloseLeavesRoom(s: RelayState, c: ConnId)
    requires WellFormed(s) && c in s.bound
    ensures var r := Step(s, Close(c)); var n := s.bound[c];
      && r.rooms.Keys == s.rooms.Keys
      && r.rooms[n] == Room(s.rooms[n].clients - {c}, s.rooms[n].history)
      && (forall n' :: n' in s.rooms && n' != n ==> r.rooms[n'] == s.rooms[n'])
      && r.outbox == s.outbox && r.bound == s.bound
      && !r.open[c]
  {
  }

  /** Even the last client closing keeps the room registered, with an empty client set. */
  lemma LastCloseKeepsRoom(s: RelayState, c: ConnId)
    requires WellFormed(s) && c in s.bound && s.rooms[s.bound[c]].clients == {c}
    ensures var r := Step(s, Close(c));
      && s.bound[c] in r.rooms
      && r.rooms[s.bound[c]].clients == {}
      && r.rooms[s.bound[c]].history == s.rooms[s.bound[c]].history
  {
  }

  // ---------------------------------------------------------------------------
  // Every step

  /** No step removes a room, and no step removes or reorders what a history holds. */
  lemma StepKeepsRoomsAndHistory(s: RelayState, e: Event)
    requires WellFormed(s)
    ensures var r := Step(s, e);
      forall n :: n in s.rooms ==> n in r.rooms && s.rooms[n].history <= r.rooms[n].history
  {
  }

  /** Room isolation: an event changes no other room, and no outbox of a connection bound elsewhere. */
  lemma StepIsolatesRooms(s: RelayState, e: Event)
    requires WellFormed(s) && Enabled(s, e)
    ensures var r := Step(s, e); var n := EventRoom(s, e);
      && (forall n' :: n' in s.rooms && n' != n ==> r.rooms[n'] == s.rooms[n'])
      && (forall d :: d in s.bound && s.bound[d] != n ==> r.outbox[d] == s.outbox[d])
  {
  }

  /** Over any run, rooms are never removed and histories are only ever extended. */
  lemma {:induction false} RunKeepsRoomsAndHistory(s: RelayState, es: seq<Event>)
    requires WellFormed(s)
    ensures var r := Run(s, es);
      forall n :: n in s.rooms ==> n in r.rooms && s.rooms[n].history <= r.rooms[n].history
    decreases |es|
  {
    if es != [] {
      StepKeepsRoomsAndHistory(s, es[0]);
      RunKeepsRoomsAndHistory(Step(s, es[0]), es[1..]);
    }
  }

  /** A binding, once made, never changes: a connection belongs to one room for its lifetime. */
  lemma {:induction false} RunKeepsBindings(s: RelayState, es: seq<Event>)
    requires WellFormed(s)
    ensures var r := Run(s, es);
      forall c :: c in s.bound ==> c in r.bound && r.bound[c] == s.bound[c]
    decreases |es|
  {
    if es != [] {
      RunKeepsBindings(Step(s, es[0]), es[1..]);
    }
  }

  /** Running `[e] + es` is stepping `e` and then running `es`. */
  lemma RunCons(s: RelayState, e: Event, es: seq<Event>)
    requires WellFormed(s)
    ensures Run(s, [e] + es) == Run(Step(s, e), es)
  {
  }

  /** Running `es` and then `e` is running `es + [e]`. */
  lemma {:induction false} RunSnoc(s: RelayState, es: seq<Event>, e: Event)
    requires WellFormed(s)
    ensures Run(s, es + [e]) == Step(Run(s, es), e)
    decreases |es|
  {
    if es == [] {
      assert es + [e] == [e];
    } else {
      assert (es + [e])[1..] == es[1..] + [e];
      RunSnoc(Step(s, es[0]), es[1..], e);
    }
  }

  // ---------------------------------------------------------------------------
  // Ordered delivery

  /**
   `a` is `h` with some elements left out: it keeps `h`'s order and uses each
   position of `h` at most once.
   */
  predicate IsSubseq<T(==)>(a: seq<T>, h: seq<T>)
    decreases |h|
  {
    if a == [] then true
    else if h == [] then false
    else (a[|a| - 1] == h[|h| - 1] && IsSubseq(a[..|a| - 1], h[..|h| - 1]))
         || IsSubseq(a, h[..|h| - 1])
  }

  lemma {:induction false} SubseqRefl<T>(h: seq<T>)
    ensures IsSubseq(h, h)
    decreases |h|
  {
    if h != [] {
      SubseqRefl(h[..|h| - 1]);
    }
  }

  lemma SubseqExtend<T>(a: seq<T>, h: seq<T>, x: T)
    requires IsSubseq(a, h)
    ensures IsSubseq(a, h + [x]) && IsSubseq(a + [x], h + [x])
  {
  }

  /** A subsequence takes its elements from the sequence and is no longer than it. */
  lemma {:induction false} SubseqElements<T>(a: seq<T>, h: seq<T>)
    requires IsSubseq(a, h)
    ensures |a| <= |h|
    ensures forall i :: 0 <= i < |a| ==> a[i] in h
    decreases |h|
  {
    if a != [] {
      var h' := h[..|h| - 1];
      if a[|a| - 1] == h[|h| - 1] && IsSubseq(a[..|a| - 1], h') {
        SubseqElements(a[..|a| - 1], h');
        forall i | 0 <= i < |a| ensures a[i] in h {
          if i < |a| - 1 {
            assert a[..|a| - 1][i] == a[i];
            assert a[i] in h';
          }
        }
      } else {
        SubseqElements(a, h');
      }
    }
  }

  /**
   What every connection has been sent is a subsequence of its own room's
   history: payloads arrive in append order, each history entry at most once.
   Not necessarily the whole history: a sender misses its own messages, and a
   socket that left OPEN misses later fan-out. The comparison is by payload
   value; StepIsolatesRooms states that an event never touches the outbox of
   a connection bound to another room.
   */
  predicate Ordered(s: RelayState)
  {
    && WellFormed(s)
    && forall c :: c in s.bound ==> IsSubseq(Payloads(s.outbox[c]), s.rooms[s.bound[c]].history)
  }

  lemma PayloadsSnoc(fs: seq<Frame>, f: Frame)
    ensures Payloads(fs + [f]) == Payloads(fs) + [f.payload]
  {
  }

  lemma InitOrdered()
    ensures Ordered(Init)
  {
  }

  lemma StepPreservesOrdered(s: RelayState, e: Event)
    requires Ordered(s)
    ensures Ordered(Step(s, e))
  {
    var r := Step(s, e);
    if Enabled(s, e) {
      match e
      case Connect(c, url) =>
        forall d | d in r.bound
          ensures IsSubseq(Payloads(r.outbox[d]), r.rooms[r.bound[d]].history)
        {
          if d == c {
            ConnectReplaysHistory(s, c, url);
            SubseqRefl(r.rooms[url].history);
          }
        }
      case Message(c, m, b) =>
        forall d | d in r.bound
          ensures IsSubseq(Payloads(r.outbox[d]), r.rooms[r.bound[d]].history)
        {
          var h := s.rooms[s.bound[d]].history;
          var ps := Payloads(s.outbox[d]);
          if s.bound[d] == s.bound[c] {
            SubseqExtend(ps, h, m);
            if d in Recipients(s, c) {
              PayloadsSnoc(s.outbox[d], Frame(m, Some(b)));
            }
          }
        }
      case Close(c) =>
      case Closing(c) =>
    }
  }

  /** Every reachable state is ordered. */
  lemma {:induction false} RunPreservesOrdered(s: RelayState, es: seq<Event>)
    requires Ordered(s)
    ensures Ordered(Run(s, es))
    decreases |es|
  {
    if es != [] {
      StepPreservesOrdered(s, es[0]);
      RunPreservesOrdered(Step(s, es[0]), es[1..]);
    }
  }

  /** From start-up on, no connection is ever sent a payload that is not in its own room's history. */
  lemma ReceivesOnlyOwnRoom(es: seq<Event>, c: ConnId)
    ensures var r := Run(Init, es);
      c in r.bound ==>
        |r.outbox[c]| <= |r.rooms[r.bound[c]].history| &&
        forall i :: 0 <= i < |r.outbox[c]| ==> r.outbox[c][i].payload in r.rooms[r.bound[c]].history
  {
    var r := Run(Init, es);
    InitOrdered();
    RunPreservesOrdered(Init, es);
    if c in r.bound {
      SubseqElements(Payloads(r.outbox[c]), r.rooms[r.bound[c]].history);
    }
  }

  // ---------------------------------------------------------------------------
  // Replay completeness for a late joiner

  /** `c` is an open client of the room it is bound to. */
  predicate Observing(s: RelayState, c: ConnId)
    requires WellFormed(s)
  {
    c in s.bound && c in s.rooms[s.bound[c]].clients && s.open[c]
  }

  /** No event of `es` comes from `c`. */
  predicate Silent(es: seq<Event>, c: ConnId)
  {
    forall i :: 0 <= i < |es| ==> es[i].conn != c
  }

  /**
   While `c` stays an open client, any event not from `c` grows its room's
   history by exactly what it adds to `c`'s outbox.
   */
  lemma ObserverStep(s: RelayState, e: Event, c: ConnId)
    requires WellFormed(s) && Observing(s, c) && e.conn != c
    ensures var r := Step(s, e); var n := s.bound[c];
      && Observing(r, c) && r.bound[c] == n
      && s.rooms[n].history <= r.rooms[n].history
      && Payloads(r.outbox[c]) == Payloads(s.outbox[c]) + r.rooms[n].history[|s.rooms[n].history|..]
  {
  }

  lemma SilentTail(es: seq<Event>, c: ConnId)
    requires Silent(es, c) && es != []
    ensures es[0].conn != c && Silent(es[1..], c)
  {
  }

  /** Two extensions in a row, each mirrored in `o`, are one extension mirrored in `o`. */
  lemma DeltaChain(h: seq<Msg>, h1: seq<Msg>, h2: seq<Msg>, o: seq<Msg>, o1: seq<Msg>, o2: seq<Msg>)
    requires h <= h1 && h1 <= h2
    requires o1 == o + h1[|h|..] && o2 == o1 + h2[|h1|..]
    ensures h <= h2 && o2 == o + h2[|h|..]
  {
  }

  lemma {:induction false} ObserverRun(s: RelayState, es: seq<Event>, c: ConnId)
    requires WellFormed(s) && Observing(s, c) && Silent(es, c)
    ensures var r := Run(s, es); var n := s.bound[c];
      && Observing(r, c) && r.bound[c] == n
      && s.rooms[n].history <= r.rooms[n].history
      && Payloads(r.outbox[c]) == Payloads(s.outbox[c]) + r.rooms[n].history[|s.rooms[n].history|..]
    decreases |es|
  {
    if es != [] {
      var s1 := Step(s, es[0]);
      var n := s.bound[c];
      SilentTail(es, c);
      ObserverStep(s, es[0], c);
      ObserverRun(s1, es[1..], c);
      var r := Run(s1, es[1..]);
      DeltaChain(s.rooms[n].history, s1.rooms[n].history, r.rooms[n].history,
                 Payloads(s.outbox[c]), Payloads(s1.outbox[c]), Payloads(r.outbox[c]));
    }
  }

  /**
   A connection that joins and then stays open without sending has been sent,
   in order, exactly its room's history: the replayed prefix followed by every
   message appended after it joined, with no gap and no duplicate.
   */
  lemma JoinerSeesFullHistory(s: RelayState, c: ConnId, url: RoomName, es: seq<Event>)
    requires WellFormed(s) && c !in s.bound && Silent(es, c)
    ensures var r := Run(s, [Connect(c, url)] + es);
      && c in r.bound && r.bound[c] == url
      && Payloads(r.outbox[c]) == r.rooms[url].history
  {
    var s1 := Step(s, Connect(c, url));
    RunCons(s, Connect(c, url), es);
    ConnectReplaysHistory(s, c, url);
    ObserverRun(s1, es, c);
  }

  /**
   Room persistence: whatever happened in between, including every client
   leaving, a new connection to a room is replayed all that the room ever held:
   the history at the start, and exactly the room's whole history at the join.
   */
  lemma RejoinReplaysPriorHistory(s: RelayState, es: seq<Event>, n: RoomName, c: ConnId)
    requires WellFormed(s) && n in s.rooms && c !in Run(s, es).bound
    ensures var r := Run(s, es + [Connect(c, n)]);
      && c in r.outbox && n in Run(s, es).rooms
      && Payloads(r.outbox[c]) == Run(s, es).rooms[n].history
      && s.rooms[n].history <= Payloads(r.outbox[c])
  {
    var mid := Run(s, es);
    RunKeepsRoomsAndHistory(s, es);
    RunSnoc(s, es, Connect(c, n));
    ConnectReplaysHistory(mid, c, n);
  }
}
