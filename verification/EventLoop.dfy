/** The relay's event loop over a stretch of readable and writable sockets: what
    each match in progress is sent, whatever the other connections do. */
module EventLoop {
  import opened Words
  import opened Lobby
  import opened RelayState
  import opened Effects
  import opened Relay
  import Framing

  // ---- one frame, seen from a room ----------------------------------------

  /** A started room and its members. */
  ghost predicate Playing(s: Snap, r: nat, m: seq<nat>)
    requires Sized(s)
  {
    r < MAX_ROOMS && RoomAt(s, r) == Some(Room(true, m))
  }

  /** The room stands as it was, and its members were sent nothing. */
  ghost predicate Passed(s: Snap, t: Snap, r: nat, m: seq<nat>)
    requires Sized(s) && Sized(t)
  {
    && Playing(t, r, m)
    && forall i: nat :: i in m && i < MAX_CLIENTS ==> Stream(t, i) == Stream(s, i)
  }

  lemma RoomsSame(s: Snap, t: Snap, r: nat)
    requires Sized(s) && Sized(t) && r < MAX_ROOMS && ViewOf(t).rooms[r] == ViewOf(s).rooms[r]
    ensures RoomAt(t, r) == RoomAt(s, r)
  {
    assert ViewOf(t).rooms[r] == RoomAt(t, r) && ViewOf(s).rooms[r] == RoomAt(s, r);
  }

  lemma ToldOthers(s: Snap, t: Snap, to: seq<nat>, f: seq<byte>, i: nat)
    requires Sized(s) && Sized(t) && Told(s, t, to, f) && i < MAX_CLIENTS && i !in to
    ensures Stream(t, i) == Stream(s, i)
  {
    NotAddressed(to, Same(|to|, f), |to|, i);
    hide Stream, Addressed;
  }

  lemma SentElsewhere(s: Snap, t: Snap, to: seq<nat>, f: seq<byte>, r: nat, m: seq<nat>)
    requires Sized(s) && Sized(t) && Playing(s, r, m) && SentOut(s, t, {}, to, f)
    requires forall i :: i in m ==> i !in to
    ensures Passed(s, t, r, m)
  {
    forall i: nat | i in m && i < MAX_CLIENTS ensures Stream(t, i) == Stream(s, i) {
      ToldOthers(s, t, to, f, i);
    }
    hide Stream, Told, Lost;
  }

  /** A member of one room is in no other. */
  lemma InOneRoom(s: Snap, maxSeats: nat, r: nat, m: seq<nat>, i: nat)
    requires Ok(s, maxSeats) && Playing(s, r, m)
    ensures i in m ==> Live(s, i) && s.clients[i].room == r
    ensures Live(s, i) && s.clients[i].room == r ==> i in m
  {
    RoomMembers(s, r, maxSeats);
  }

  lemma OthersElsewhere(s: Snap, ci: nat, maxSeats: nat, r: nat, m: seq<nat>)
    requires Ok(s, maxSeats) && Playing(s, r, m) && Live(s, ci) && ci !in m
    ensures forall i :: i in m ==> i !in Others(s, ci)
  {
    var q := s.clients[ci].room;
    InOneRoom(s, maxSeats, r, m, ci);
    forall i | i in m ensures i !in Others(s, ci) {
      InOneRoom(s, maxSeats, r, m, i);
      if q != -1 {
        RoomMembers(s, q, maxSeats);
      }
    }
  }

  /** Nobody live was lost, so the lost were nobody. */
  lemma NobodyWas(s: Snap, D: set<nat>, live: set<nat>)
    requires D <= LiveSet(s) && live == LiveSet(s) - D && live == LiveSet(s)
    ensures D == {}
  {
    assert D == D * LiveSet(s) == D * live == {};
  }

  lemma HelloElsewhere(s: Snap, t: Snap, ci: nat, name: Option<Name>, D: set<nat>, E: set<nat>, maxSeats: nat, r: nat,
                       m: seq<nat>)
    requires Ok(s, maxSeats) && Sized(t) && Live(s, ci) && Playing(s, r, m) && ci !in m && LiveSet(t) == LiveSet(s)
    requires HelloDone(s, t, ci, name, D, E) && Greeted(s, t, ci, name, D, E, maxSeats)
    ensures Passed(s, t, r, m)
  {
    hide Listing, Renamed, Holder, Stream, Linked, Named, Bounded, Sound, EndsWith, Mates, LiveSet, Told;
    var v := ViewOf(s);
    FallNobody(v);
    HelloKeeps(s, t, ci, name, D, E);
    var w := v.(names := Renamed(v.names, ci, s.clients[ci].name, name.value));
    FallNobody(w);
    RoomsSame(s, t, r);
    forall i: nat | i in m && i < MAX_CLIENTS ensures Stream(t, i) == Stream(s, i) {
      ToldOthers(s, t, [ci], Listing(t, ci, maxSeats), i);
    }
  }

  lemma HelloKeeps(s: Snap, t: Snap, ci: nat, name: Option<Name>, D: set<nat>, E: set<nat>)
    requires Sized(s) && Sized(t) && Live(s, ci) && LiveSet(t) == LiveSet(s) && HelloDone(s, t, ci, name, D, E)
    ensures name.Some? && D == {} && E == {}
  {
    assert ViewOf(t).live == LiveSet(s) && ViewOf(s).live == LiveSet(s) && ci in LiveSet(s);
    assert ViewOf(t).live == LiveSet(s) - D - E || ViewOf(t).live == LiveSet(s) - D;
    assert D + E == (D + E) * LiveSet(s) == {};
  }

  lemma JoinKeeps(s: Snap, t: Snap, ci: nat, payload: seq<byte>, o: Outcome, c: Rules)
    requires Sized(s) && Sized(t) && Live(s, ci) && LiveSet(t) == LiveSet(s)
    requires JoinDone(s, t, ci, payload, o.D, o.E, o.r, c.maxSeats, c.autoGo)
    ensures s.clients[ci].name != [] && (s.clients[ci].room != -1 ==> t == s)
    ensures s.clients[ci].room == -1 ==> o.D == {} && o.E == {}
  {
    hide Wanted, RStrip, Seats, Joinable, Left, Without;
    assert ViewOf(t).live == LiveSet(s) && ViewOf(s).live == LiveSet(s) && ci in LiveSet(s);
    assert s.clients[ci].room == -1 && s.clients[ci].name != [] ==>
             ViewOf(t).live == LiveSet(s) - o.D - o.E || (o.E == {} && ViewOf(t).live == LiveSet(s) - o.D);
    assert s.clients[ci].name == [] || s.clients[ci].room == -1 ==> o.D == o.D * LiveSet(s) == {};
    assert s.clients[ci].room == -1 ==> o.E == o.E * LiveSet(s) == {};
  }

  /** Seating another room leaves this one alone. */
  lemma SeatedElsewhere(v: View, q: nat, room: Room, r: nat)
    requires q < |v.rooms| && r < |v.rooms| && q != r
    ensures Fall(Seated(v, q, room), {}).rooms[r] == v.rooms[r] && Fall(Seated(v, q, room), {}) == Seated(v, q, room)
  {
    FallNobody(Seated(v, q, room));
  }

  /** The room a join lands in is not one being played in, and nobody of that
      room is told. */
  lemma JoinedElsewhere(s: Snap, ci: nat, target: nat, q: nat, maxSeats: nat, r: nat, m: seq<nat>)
    requires Ok(s, maxSeats) && Live(s, ci) && Playing(s, r, m) && ci !in m
    requires target < MAX_CLIENTS && Live(s, target) && Joinable(s, target, maxSeats) && JoinedRoom(s, ci, target, q)
    ensures q != r && forall i :: i in m ==> i !in Seats(s, target) + [ci]
  {
    InOneRoom(s, maxSeats, r, m, target);
    var p := s.clients[target].room;
    if p != -1 {
      RoomMembers(s, p, maxSeats);
      forall i | i in m ensures i !in s.rooms[p].members {
        InOneRoom(s, maxSeats, r, m, i);
      }
    }
  }

  lemma WantedIs(s: Snap, ci: nat, name: Name, maxSeats: nat)
    requires Ok(s, maxSeats)
    ensures var w := Wanted(s, ci, name, maxSeats);
            w.Some? ==> Live(s, w.value) && w.value < MAX_CLIENTS && Joinable(s, w.value, maxSeats)
  {
    var w := Wanted(s, ci, name, maxSeats);
    if w.Some? {
      LiveEntry(s, Find(s.byName, CString(name)).value, maxSeats);
    }
  }

  lemma JoinElsewhere(s: Snap, t: Snap, ci: nat, payload: seq<byte>, o: Outcome, c: Rules, r: nat, m: seq<nat>)
    requires Sized(s) && Ok(s, c.maxSeats) && Sized(t) && Live(s, ci) && Playing(s, r, m) && ci !in m
    requires LiveSet(t) == LiveSet(s)
    requires JoinDone(s, t, ci, payload, o.D, o.E, o.r, c.maxSeats, c.autoGo) && JoinTold(s, t, ci, payload, o, c)
    ensures Passed(s, t, r, m)
  {
    hide Wanted, RStrip, Joinable, Listing, RoomFrame, StartFrames, Stream, Ok, Fall, LiveSet, Told, Seats;
    JoinKeeps(s, t, ci, payload, o, c);
    if s.clients[ci].room == -1 {
      var v := ViewOf(s);
      var want := Wanted(s, ci, RStrip(payload), c.maxSeats);
      WantedIs(s, ci, RStrip(payload), c.maxSeats);
      if want.None? {
        FallNobody(v);
        RoomsSame(s, t, r);
        forall i: nat | i in m && i < MAX_CLIENTS ensures Stream(t, i) == Stream(s, i) {
          ToldOthers(s, t, [ci], Listing(s, ci, c.maxSeats), i);
        }
      } else {
        var to := Seats(s, want.value) + [ci];
        JoinedElsewhere(s, ci, want.value, o.r, c.maxSeats, r, m);
        SeatedElsewhere(v, o.r, Room(false, to), r);
        SeatedElsewhere(Seated(v, o.r, Room(false, to)), o.r, Room(true, to), r);
        RoomsSame(s, t, r);
        forall i: nat | i in m && i < MAX_CLIENTS ensures Stream(t, i) == Stream(s, i) {
          NotAddressed(to, Same(|to|, RoomFrame(s.clients, to)), |to|, i);
          NotAddressed(to, StartFrames(s.clients, to, o.seed, c.delay), |to|, i);
        }
      }
    }
  }

  lemma GoElsewhere(s: Snap, t: Snap, ci: nat, o: Outcome, c: Rules, r: nat, m: seq<nat>)
    requires Ok(s, c.maxSeats) && Sized(t) && Live(s, ci) && Playing(s, r, m) && ci !in m && LiveSet(t) == LiveSet(s)
    requires GoDone(s, t, ci, o.E, c.maxSeats) && GoTold(s, t, ci, o, c)
    ensures Passed(s, t, r, m)
  {
    hide StartFrames, Stream, Fall;
    if MayStart(s, ci, c.maxSeats) {
      var q := s.clients[ci].room;
      var to := s.rooms[q].members;
      GoKeeps(s, t, ci, o.E, c.maxSeats);
      SeatedElsewhere(ViewOf(s), q, Room(true, to), r);
      RoomsSame(s, t, r);
      forall i: nat | i in m && i < MAX_CLIENTS ensures Stream(t, i) == Stream(s, i) {
        InOneRoom(s, c.maxSeats, r, m, i);
        InOneRoom(s, c.maxSeats, r, m, ci);
        OwnRoomMembers(s, ci, c.maxSeats);
        NotAddressed(to, StartFrames(s.clients, to, o.seed, c.delay), |to|, i);
      }
    }
  }

  lemma OwnRoomMembers(s: Snap, ci: nat, maxSeats: nat)
    requires Ok(s, maxSeats) && Live(s, ci) && s.clients[ci].room != -1
    ensures 0 <= s.clients[ci].room < MAX_ROOMS
    ensures forall i :: i in s.rooms[s.clients[ci].room].members ==> Live(s, i) && s.clients[i].room == s.clients[ci].room
  {
    RoomMembers(s, s.clients[ci].room, maxSeats);
  }

  lemma GoKeeps(s: Snap, t: Snap, ci: nat, E: set<nat>, maxSeats: nat)
    requires Sized(s) && Sized(t) && Live(s, ci) && LiveSet(t) == LiveSet(s) && MayStart(s, ci, maxSeats)
    requires GoDone(s, t, ci, E, maxSeats)
    ensures E == {}
  {
    assert ViewOf(t).live == LiveSet(s) - E;
    NobodyWas(s, E, LiveSet(t));
  }

  /** A frame of a client outside the room, nobody lost: the room's match goes on
      undisturbed. */
  lemma ServedElsewhere(h: Handling, ci: nat, c: Rules, r: nat, m: seq<nat>)
    requires Served(h, ci, c) && Playing(h.before, r, m) && ci !in m && LiveSet(h.after) == LiveSet(h.before)
    ensures Sized(h.before) && Sized(h.after) && Passed(h.before, h.after, r, m)
  {
    var s, t, o, payload := h.before, h.after, h.outcome, h.body[1..];
    hide HelloDone, Greeted, JoinDone, JoinTold, GoDone, GoTold, Passed, Ok, Stream, Listing, LiveSet, Onward, Others;
    hide HelloName, Playing;
    if MatchType(h.body[0]) {
      NobodyFell(s, t, o.D);
      OthersElsewhere(s, ci, c.maxSeats, r, m);
      SentElsewhere(s, t, Others(s, ci), [|h.body|] + h.body, r, m);
    } else if h.body[0] == T_HELLO {
      HelloElsewhere(s, t, ci, HelloName(payload), o.D, o.E, c.maxSeats, r, m);
    } else if h.body[0] == T_LIST {
      NobodyFell(s, t, o.D);
      SentElsewhere(s, t, [ci], Listing(s, ci, c.maxSeats), r, m);
    } else if h.body[0] == T_JOIN {
      JoinElsewhere(s, t, ci, payload, o, c, r, m);
    } else if h.body[0] == T_GO {
      GoElsewhere(s, t, ci, o, c, r, m);
    } else if h.body[0] == T_PING {
      NobodyFell(s, t, o.D);
      SentElsewhere(s, t, [ci], FrameOf(T_PONG, []), r, m);
    } else {
      NobodyFell(s, t, o.D);
    }
  }

  // ---- a stretch of frames, seen from a room -------------------------------

  /** The other members were sent the bytes, the sender and the room's place in
      the tables are as they were. */
  ghost predicate Reached(s: Snap, t: Snap, r: nat, m: seq<nat>, ci: nat, bytes: seq<byte>)
    requires Sized(s) && Sized(t)
  {
    && Playing(t, r, m)
    && forall i: nat :: i in m && i < MAX_CLIENTS ==>
         Stream(t, i) == Stream(s, i) + if ci in m && i != ci then bytes else []
  }

  lemma OthersAre(s: Snap, ci: nat, maxSeats: nat, r: nat, m: seq<nat>)
    requires Ok(s, maxSeats) && Playing(s, r, m) && Live(s, ci) && ci in m
    ensures forall i :: i in Others(s, ci) <==> i in m && i != ci
  {
    InOneRoom(s, maxSeats, r, m, ci);
    RoomMembers(s, r, maxSeats);
    UnseatIsKeep(m, SeatOf(m, ci));
    forall i ensures i in Others(s, ci) <==> i in m && i != ci {
      if 0 <= i {
        KeepMembers(m, {ci}, i);
      }
    }
  }

  lemma MemberReaches(s: Snap, t: Snap, ci: nat, bodies: seq<seq<byte>>, log: seq<Handling>, c: Rules, r: nat, m: seq<nat>)
    requires Ok(s, c.maxSeats) && Journey(s, t, ci, bodies, log, c) && Playing(s, r, m) && Live(s, ci) && ci in m
    requires AllMatch(bodies) && Sized(t) && LiveSet(t) == LiveSet(s)
    ensures Reached(s, t, r, m, ci, Forwarded(bodies))
  {
    JourneyForwards(s, t, ci, bodies, log, c);
    OthersAre(s, ci, c.maxSeats, r, m);
    hide Stream, Forwarded, Journey, Others, Ok, AllMatch;
  }

  lemma RefilledPasses(s: Snap, t: Snap, ci: nat, r: nat, m: seq<nat>)
    requires Refilled(s, t, ci) && Playing(s, r, m)
    ensures Passed(s, t, r, m)
  {
    RefilledSame(s, t, ci);
  }

  lemma {:induction false} OutsiderPasses(s: Snap, t: Snap, ci: nat, bodies: seq<seq<byte>>, log: seq<Handling>, c: Rules,
                                          r: nat, m: seq<nat>)
    requires Journey(s, t, ci, bodies, log, c) && Sized(s) && Sized(t) && Playing(s, r, m) && ci !in m
    requires LiveSet(t) == LiveSet(s)
    ensures Passed(s, t, r, m)
    decreases |log|
  {
    hide Served, Stream, Refilled, LiveSet, Journey, Playing;
    if log == [] {
      JourneyNone(s, t, ci, bodies, log, c);
      RefilledPasses(s, t, ci, r, m);
    } else {
      var n := |log| - 1;
      var h := log[n];
      JourneyBefore(s, t, ci, bodies, log, c);
      JourneyFewer(s, h.before, ci, bodies[..n], log[..n], c);
      ServedFewer(h, ci, c);
      RefilledSized(h.after, t, ci);
      RefilledSame(h.after, t, ci);
      OutsiderPasses(s, h.before, ci, bodies[..n], log[..n], c, r, m);
      ServedElsewhere(h, ci, c, r, m);
      RefilledPasses(h.after, t, ci, r, m);
    }
  }

  // ---- the loop ----------------------------------------------------------

  datatype Event = Incoming(ci: nat, data: seq<byte>) | Outgoing(ci: nat)

  /** Between events nothing that could be handled is left unread. */
  ghost predicate Rested(s: Snap)
    requires Sized(s)
  {
    forall i: nat :: i < MAX_CLIENTS && Live(s, i) ==> Unread(s.clients[i].rx)
  }

  /** The bytes an event brings from a client. */
  function Brought(e: Event, ci: nat): seq<byte> {
    if e.Incoming? && e.ci == ci then e.data else []
  }

  /** What a client said in an event, and what is left unread, are the pure
      parser's. */
  ghost predicate Said(s: Snap, t: Snap, e: Event, bodies: seq<seq<byte>>)
    requires Sized(s) && Sized(t)
  {
    forall i: nat :: i < MAX_CLIENTS && Live(s, i) ==>
      Framing.Parse(s.clients[i].rx + Brought(e, i))
      == Framing.Fed(if e.ci == i then bodies else [], t.clients[i].rx, false)
  }

  /** One ready socket: flush it, or receive from it and feed. */
  method Turn(server: Server, e: Event, ghost r: nat, ghost m: seq<nat>) returns (ghost bodies: seq<seq<byte>>)
    requires server.Settled() && Rested(server.Snapshot())
    modifies server
    ensures server.Settled() && Rested(server.Snapshot())
    ensures LiveSet(server.Snapshot()) <= LiveSet(old(server.Snapshot()))
    ensures LiveSet(server.Snapshot()) == LiveSet(old(server.Snapshot())) ==>
              && Said(old(server.Snapshot()), server.Snapshot(), e, bodies)
              && (Playing(old(server.Snapshot()), r, m) && (e.ci in m ==> AllMatch(bodies)) ==>
                    Reached(old(server.Snapshot()), server.Snapshot(), r, m, e.ci, Forwarded(bodies)))
  {
    hide Linked, Named, Sound, ViewOf, Bounded, Framing.Parse, Journey, Dropped, Stream, Others, Forwarded, AllMatch;
    hide Lost, Playing, OthersRx, LiveSet, Quiet, Fall, SameTables;
    ghost var before := server.Snapshot();
    bodies := [];
    if e.ci >= MAX_CLIENTS || !server.clients[e.ci].inUse || server.clients[e.ci].dead {
      NothingHappened(before, e, r, m);
      return;
    }
    match e
    case Outgoing(ci) =>
      ghost var D := server.Flush(ci);
      Flushed(before, server.Snapshot(), ci, D, r, m);
    case Incoming(ci, data) =>
      ghost var log, last, fall;
      bodies, log, last, fall := server.Feed(ci, data);
      ghost var now := server.Snapshot();
      FedRests(before, now, ci);
      if LiveSet(now) == LiveSet(before) {
        StillLive(before, now, ci);
        FedSaid(before, now, ci, data, bodies);
        if Playing(before, r, m) && (ci in m ==> AllMatch(bodies)) {
          if ci in m {
            MemberReaches(before, now, ci, bodies, log, server.Terms(), r, m);
          } else {
            OutsiderPasses(before, now, ci, bodies, log, server.Terms(), r, m);
            PassedIsReached(before, now, r, m, ci, Forwarded(bodies));
          }
        }
      }
  }

  lemma NothingHappened(s: Snap, e: Event, r: nat, m: seq<nat>)
    requires Sized(s) && Rested(s) && !Live(s, e.ci)
    ensures Said(s, s, e, [])
    ensures Playing(s, r, m) ==> Reached(s, s, r, m, e.ci, Forwarded([]))
  {
    forall i: nat | i < MAX_CLIENTS && Live(s, i)
      ensures Framing.Parse(s.clients[i].rx + Brought(e, i)) == Framing.Fed([], s.clients[i].rx, false)
    {
      assert s.clients[i].rx + [] == s.clients[i].rx;
    }
    hide Stream, Framing.Parse;
  }

  lemma PassedIsReached(s: Snap, t: Snap, r: nat, m: seq<nat>, ci: nat, bytes: seq<byte>)
    requires Sized(s) && Sized(t) && Passed(s, t, r, m) && ci !in m
    ensures Reached(s, t, r, m, ci, bytes)
  {
    hide Stream;
  }

  lemma SameLive(s: Snap, t: Snap, i: nat)
    requires Sized(s) && Sized(t) && LiveSet(t) <= LiveSet(s) && Live(t, i)
    ensures Live(s, i)
  {
    assert i in LiveSet(t);
  }

  lemma StillLive(s: Snap, t: Snap, i: nat)
    requires Sized(s) && Sized(t) && LiveSet(t) == LiveSet(s) && Live(s, i)
    ensures Live(t, i)
  {
    assert i in LiveSet(s);
  }

  lemma Flushed(s: Snap, t: Snap, ci: nat, D: set<nat>, r: nat, m: seq<nat>)
    requires Sized(s) && Sized(t) && Rested(s) && Lost(s, t, D)
    requires D == {} ==> Quiet(s, t) && forall i :: 0 <= i < MAX_CLIENTS ==> Stream(t, i) == Stream(s, i)
    ensures Rested(t) && LiveSet(t) <= LiveSet(s)
    ensures LiveSet(t) == LiveSet(s) ==>
              Said(s, t, Outgoing(ci), []) && (Playing(s, r, m) ==> Reached(s, t, r, m, ci, Forwarded([])))
  {
    hide Stream, Framing.Parse;
    assert LiveSet(t) == LiveSet(s) - D;
    forall i: nat | i < MAX_CLIENTS && Live(t, i) ensures Unread(t.clients[i].rx) {
      SameLive(s, t, i);
    }
    if LiveSet(t) == LiveSet(s) {
      NobodyFell(s, t, D);
      forall i: nat | i < MAX_CLIENTS && Live(s, i)
        ensures Framing.Parse(s.clients[i].rx + Brought(Outgoing(ci), i)) == Framing.Fed([], t.clients[i].rx, false)
      {
        assert s.clients[i].rx + [] == s.clients[i].rx;
      }
    }
  }

  lemma FedRests(s: Snap, t: Snap, ci: nat)
    requires Sized(s) && Sized(t) && Rested(s) && OthersRx(s, t, ci) && LiveSet(t) <= LiveSet(s) && ci < MAX_CLIENTS
    requires Live(t, ci) ==> Unread(t.clients[ci].rx)
    ensures Rested(t)
  {
    hide Framing.Parse;
    forall i: nat | i < MAX_CLIENTS && Live(t, i) ensures Unread(t.clients[i].rx) {
      SameLive(s, t, i);
    }
  }

  lemma FedSaid(s: Snap, t: Snap, ci: nat, data: seq<byte>, bodies: seq<seq<byte>>)
    requires Sized(s) && Sized(t) && Rested(s) && OthersRx(s, t, ci) && ci < MAX_CLIENTS
    requires Framing.Parse(s.clients[ci].rx + data) == Framing.Fed(bodies, t.clients[ci].rx, false)
    ensures Said(s, t, Incoming(ci, data), bodies)
  {
    hide Framing.Parse;
    forall i: nat | i < MAX_CLIENTS && Live(s, i) && i != ci
      ensures Framing.Parse(s.clients[i].rx + Brought(Incoming(ci, data), i)) == Framing.Fed([], t.clients[i].rx, false)
    {
      assert s.clients[i].rx + [] == s.clients[i].rx;
    }
  }

  // ---- a run of the loop ---------------------------------------------------

  /** Who said what, in order. */
  datatype Talk = Talk(ci: nat, bodies: seq<seq<byte>>)

  /** Everything a client's socket delivered. */
  function Delivered(events: seq<Event>, ci: nat): seq<byte> {
    if events == [] then [] else Delivered(events[..|events| - 1], ci) + Brought(events[|events| - 1], ci)
  }

  /** Everything a client said. */
  function Speech(said: seq<Talk>, ci: nat): seq<seq<byte>> {
    if said == [] then []
    else
      var last := said[|said| - 1];
      Speech(said[..|said| - 1], ci) + if last.ci == ci then last.bodies else []
  }

  /** What the other members of a room said, as it goes to member i. */
  function Relayed(said: seq<Talk>, m: seq<nat>, i: nat): seq<byte> {
    if said == [] then []
    else
      var last := said[|said| - 1];
      Relayed(said[..|said| - 1], m, i) + if last.ci in m && i != last.ci then Forwarded(last.bodies) else []
  }

  /** The members of a room say nothing but match frames. */
  predicate OnlyPlay(said: seq<Talk>, m: seq<nat>) {
    forall k :: 0 <= k < |said| && said[k].ci in m ==> AllMatch(said[k].bodies)
  }

  /** From s to t every live client said what the pure parser finds in what its
      socket delivered. */
  ghost predicate Heard(s: Snap, t: Snap, events: seq<Event>, said: seq<Talk>)
    requires Sized(s) && Sized(t)
  {
    forall i: nat :: i < MAX_CLIENTS && Live(s, i) ==>
      Framing.Parse(s.clients[i].rx + Delivered(events, i))
      == Framing.Fed(Speech(said, i), t.clients[i].rx, false)
  }

  /** A room's members were sent exactly what the others said. */
  ghost predicate Shared(s: Snap, t: Snap, r: nat, m: seq<nat>, said: seq<Talk>)
    requires Sized(s) && Sized(t)
  {
    && Playing(t, r, m)
    && forall i: nat :: i in m && i < MAX_CLIENTS ==> Stream(t, i) == Stream(s, i) + Relayed(said, m, i)
  }

  /** The event loop over any list of ready sockets.  As long as nobody is lost,
      what each client said is what its bytes parse to however they came; and in
      every match whose members say nothing but match frames, each of them is
      sent exactly what the others said, in the order it was handled, whatever
      the rest of the lobby does. */
  method Serve(server: Server, events: seq<Event>, ghost r: nat, ghost m: seq<nat>) returns (ghost said: seq<Talk>)
    requires server.Settled() && Rested(server.Snapshot())
    modifies server
    ensures server.Settled() && Rested(server.Snapshot())
    ensures LiveSet(server.Snapshot()) <= LiveSet(old(server.Snapshot()))
    ensures LiveSet(server.Snapshot()) == LiveSet(old(server.Snapshot())) ==>
              && Heard(old(server.Snapshot()), server.Snapshot(), events, said)
              && (Playing(old(server.Snapshot()), r, m) && OnlyPlay(said, m) ==>
                    Shared(old(server.Snapshot()), server.Snapshot(), r, m, said))
  {
    hide Reached, Said, Rested, LiveSet, Playing, Heard, Shared, OnlyPlay;
    ghost var before := server.Snapshot();
    said := [];
    NobodySpoke(before, r, m);
    var k := 0;
    while k < |events|
      invariant 0 <= k <= |events| && server.Settled() && Rested(server.Snapshot())
      invariant LiveSet(server.Snapshot()) <= LiveSet(before)
      invariant LiveSet(server.Snapshot()) == LiveSet(before) ==>
                  && Heard(before, server.Snapshot(), events[..k], said)
                  && (Playing(before, r, m) && OnlyPlay(said, m) ==> Shared(before, server.Snapshot(), r, m, said))
    {
      ghost var s := server.Snapshot();
      ghost var bodies := Turn(server, events[k], r, m);
      ghost var t := server.Snapshot();
      ghost var talk := Talk(events[k].ci, bodies);
      if LiveSet(t) == LiveSet(before) {
        assert LiveSet(s) == LiveSet(before);
        assert events[..k + 1] == events[..k] + [events[k]];
        HeardMore(before, s, t, events[..k], said, events[k], bodies);
        if Playing(before, r, m) && OnlyPlay(said + [talk], m) {
          PlayedOn(said, talk, m);
          SharedPlays(before, s, r, m, said);
          SharedMore(before, s, t, r, m, said, talk);
        }
      }
      said := said + [talk];
      k := k + 1;
    }
    assert events[..k] == events;
  }

  lemma NobodySpoke(s: Snap, r: nat, m: seq<nat>)
    requires Sized(s) && Rested(s)
    ensures Heard(s, s, [], []) && OnlyPlay([], m) && (Playing(s, r, m) ==> Shared(s, s, r, m, []))
  {
    forall i: nat | i < MAX_CLIENTS && Live(s, i)
      ensures Framing.Parse(s.clients[i].rx + Delivered([], i)) == Framing.Fed([], s.clients[i].rx, false)
    {
      assert s.clients[i].rx + [] == s.clients[i].rx;
    }
    hide Framing.Parse, Stream;
  }

  lemma HeardMore(s: Snap, t: Snap, u: Snap, events: seq<Event>, said: seq<Talk>, e: Event, bodies: seq<seq<byte>>)
    requires Sized(s) && Sized(t) && Sized(u) && LiveSet(t) == LiveSet(s)
    requires Heard(s, t, events, said) && Said(t, u, e, bodies)
    ensures Heard(s, u, events + [e], said + [Talk(e.ci, bodies)])
  {
    hide Framing.Parse;
    forall i: nat | i < MAX_CLIENTS && Live(s, i)
      ensures Framing.Parse(s.clients[i].rx + Delivered(events + [e], i))
              == Framing.Fed(Speech(said + [Talk(e.ci, bodies)], i), u.clients[i].rx, false)
    {
      StillLive(s, t, i);
      var a := s.clients[i].rx + Delivered(events, i);
      assert (events + [e])[..|events|] == events && (said + [Talk(e.ci, bodies)])[..|said|] == said;
      Framing.SplitParse(a, Brought(e, i));
      assert s.clients[i].rx + Delivered(events + [e], i) == a + Brought(e, i);
      assert Speech(said, i) + [] == Speech(said, i);
    }
  }

  lemma PlayedOn(said: seq<Talk>, talk: Talk, m: seq<nat>)
    requires OnlyPlay(said + [talk], m)
    ensures OnlyPlay(said, m) && (talk.ci in m ==> AllMatch(talk.bodies))
  {
    assert (said + [talk])[|said|] == talk;
    forall k | 0 <= k < |said| && said[k].ci in m ensures AllMatch(said[k].bodies) {
      assert (said + [talk])[k] == said[k];
    }
    hide AllMatch;
  }

  lemma SharedPlays(s: Snap, t: Snap, r: nat, m: seq<nat>, said: seq<Talk>)
    requires Sized(s) && Sized(t) && Shared(s, t, r, m, said)
    ensures Playing(t, r, m)
  {
  }

  lemma SharedMore(s: Snap, t: Snap, u: Snap, r: nat, m: seq<nat>, said: seq<Talk>, talk: Talk)
    requires Sized(s) && Sized(t) && Sized(u) && Shared(s, t, r, m, said)
    requires Reached(t, u, r, m, talk.ci, Forwarded(talk.bodies))
    ensures Shared(s, u, r, m, said + [talk])
  {
    hide Forwarded, Stream;
    assert (said + [talk])[..|said|] == said;
  }

  /** In a room of two, each is sent what the other said. */
  lemma {:induction false} RelayedToOther(said: seq<Talk>, a: nat, b: nat)
    requires a != b
    ensures Relayed(said, [a, b], b) == Forwarded(Speech(said, a))
    ensures Relayed(said, [b, a], b) == Forwarded(Speech(said, a))
    decreases |said|
  {
    if said != [] {
      var n := |said| - 1;
      RelayedToOther(said[..n], a, b);
      ForwardedAppend(Speech(said[..n], a), if said[n].ci == a then said[n].bodies else []);
    }
    hide Forwarded;
  }
}
