/** The relay's tables as one value: clients, rooms, the name list, and what
    each connection has been sent. */
module RelayState {
  import opened Words
  import opened Lobby

  const TX_CAP := 0x1_0000
  const RX_CAP := 256

  datatype Client = Client(inUse: bool, dead: bool, name: Name, room: int, rx: seq<byte>, tx: seq<byte>)

  datatype RoomSlot = RoomSlot(used: bool, started: bool, members: seq<nat>)

  /** `wire` is what each connection's socket has accepted; `leaving` the rooms
      whose dissolution is under way; `dying` the clients whose drop is. */
  datatype Snap = Snap(clients: seq<Client>, rooms: seq<RoomSlot>, byName: seq<Entry>, wire: seq<seq<byte>>,
                       leaving: set<nat>, dying: set<nat>)

  predicate Live(s: Snap, i: int) {
    0 <= i < |s.clients| && s.clients[i].inUse && !s.clients[i].dead
  }

  ghost function LiveSet(s: Snap): set<nat> {
    set i: nat | i < |s.clients| && s.clients[i].inUse && !s.clients[i].dead
  }

  ghost function RoomAt(s: Snap, r: nat): Option<Room>
    requires r < |s.rooms|
  {
    if s.rooms[r].used && r !in s.leaving then Some(Room(s.rooms[r].started, s.rooms[r].members)) else None
  }

  ghost function ViewOf(s: Snap): View {
    View(seq(|s.rooms|, r requires 0 <= r < |s.rooms| => RoomAt(s, r)), s.byName, LiveSet(s))
  }

  /** Everything a connection was sent: what its socket took and what is still
      queued. */
  function Stream(s: Snap, i: nat): seq<byte>
    requires i < |s.clients| && i < |s.wire|
  {
    s.wire[i] + s.clients[i].tx
  }

  ghost predicate Sized(s: Snap) {
    |s.clients| == MAX_CLIENTS && |s.rooms| == MAX_ROOMS && |s.wire| == MAX_CLIENTS
  }

  /** Room links and member lists agree both ways. */
  ghost predicate Linked(s: Snap)
    requires Sized(s)
  {
    && (forall i: nat :: Live(s, i) && s.clients[i].room != -1 ==>
          && 0 <= s.clients[i].room < MAX_ROOMS && RoomAt(s, s.clients[i].room).Some?
          && i in s.rooms[s.clients[i].room].members && s.clients[i].name != [])
    && (forall r: nat, k: nat :: r < MAX_ROOMS && RoomAt(s, r).Some? && k < |s.rooms[r].members| ==>
          Live(s, s.rooms[r].members[k]) && s.clients[s.rooms[r].members[k]].room == r)
  }

  /** Each live named client has exactly one entry, under its own name. */
  ghost predicate Named(s: Snap)
    requires Sized(s)
  {
    && (forall j :: 0 <= j < |s.byName| ==>
          Live(s, s.byName[j].ci) && s.clients[s.byName[j].ci].name == s.byName[j].name)
    && (forall i: nat :: Live(s, i) && s.clients[i].name != [] ==> Entry(s.clients[i].name, i) in s.byName)
  }

  ghost predicate Bounded(s: Snap) {
    && (forall i :: 0 <= i < |s.clients| ==> |s.clients[i].tx| <= TX_CAP && |s.clients[i].rx| <= RX_CAP)
    && (forall i: nat :: i < |s.clients| ==> (s.clients[i].inUse && s.clients[i].dead <==> i in s.dying))
    && (forall i :: i in s.dying ==> i < |s.clients|)
    && (forall r: nat :: r < |s.rooms| && !s.rooms[r].used ==> s.rooms[r].members == [])
  }

  ghost predicate Ok(s: Snap, maxSeats: nat) {
    && Sized(s) && 2 <= maxSeats <= 4
    && Linked(s) && Named(s) && Bounded(s) && Sound(ViewOf(s), maxSeats)
  }

  // ---- what a cascade does -----------------------------------------------

  /** Everything but the fallen clients' own records: streams only grow, and
      survivors keep their names and unread bytes. */
  ghost predicate Grown(s: Snap, t: Snap, D: set<nat>)
    requires Sized(s) && Sized(t)
  {
    forall i: nat :: i < MAX_CLIENTS ==>
      && s.wire[i] <= t.wire[i]
      && t.clients[i].name == s.clients[i].name && t.clients[i].rx == s.clients[i].rx
      && (i !in D ==> t.clients[i].inUse == s.clients[i].inUse && t.clients[i].dead == s.clients[i].dead
                      && Stream(s, i) <= Stream(t, i))
      && (i in D ==> t.clients[i].dead)
  }

  /** Only queues and sockets differ. */
  ghost predicate Quiet(s: Snap, t: Snap)
    requires Sized(s) && Sized(t)
  {
    && t == s.(clients := t.clients, wire := t.wire)
    && forall i :: 0 <= i < MAX_CLIENTS ==> t.clients[i].(tx := s.clients[i].tx) == s.clients[i]
  }

  /** From s to t exactly the clients D were lost. */
  ghost predicate Lost(s: Snap, t: Snap, D: set<nat>) {
    && Sized(s) && Sized(t) && D <= LiveSet(s)
    && ViewOf(t) == Fall(ViewOf(s), D)
    && Grown(s, t, D)
  }

  /** ... and every drop and dissolution begun on the way is done. */
  ghost predicate Fell(s: Snap, t: Snap, D: set<nat>) {
    Lost(s, t, D) && t.leaving == s.leaving && t.dying == s.dying
  }

  lemma FellNobody(s: Snap)
    requires Sized(s)
    ensures Fell(s, s, {})
  {
    FallNobody(ViewOf(s));
  }

  lemma LostTwice(s: Snap, t: Snap, u: Snap, D: set<nat>, E: set<nat>)
    requires Lost(s, t, D) && Lost(t, u, E)
    ensures Lost(s, u, D + E)
  {
    FallTwice(ViewOf(s), D, E);
    assert LiveSet(t) == LiveSet(s) - D;
    hide Fall;
    GrownTwice(s, t, u, D, E);
  }

  lemma GrownTwice(s: Snap, t: Snap, u: Snap, D: set<nat>, E: set<nat>)
    requires Sized(s) && Sized(t) && Sized(u) && Grown(s, t, D) && Grown(t, u, E)
    ensures Grown(s, u, D + E)
  {
    forall i: nat | i < MAX_CLIENTS
      ensures s.wire[i] <= u.wire[i] && (i !in D + E ==> Stream(s, i) <= Stream(u, i))
    {
      assert s.wire[i] <= t.wire[i] <= u.wire[i];
      assert i !in D + E ==> Stream(s, i) <= Stream(t, i) <= Stream(u, i);
    }
  }

  lemma FellTwice(s: Snap, t: Snap, u: Snap, D: set<nat>, E: set<nat>)
    requires Fell(s, t, D) && Fell(t, u, E)
    ensures Fell(s, u, D + E)
  {
    LostTwice(s, t, u, D, E);
  }

  // ---- one client leaving ------------------------------------------------

  /** The clients with the given members sent back to solo. */
  function Solo(clients: seq<Client>, members: seq<nat>, k: nat): (r: seq<Client>)
    requires k <= |members| && forall m :: m in members ==> m < |clients|
    ensures |r| == |clients|
    ensures forall i :: 0 <= i < |clients| ==>
              r[i] == if i in members[..k] then clients[i].(room := -1) else clients[i]
  {
    if k == 0 then clients
    else
      assert members[..k] == members[..k - 1] + [members[k - 1]];
      assert members[k - 1] in members;
      var r := Solo(clients, members, k - 1);
      r[members[k - 1] := r[members[k - 1]].(room := -1)]
  }

  /** Members without the one at a seat. */
  function Unseat(members: seq<nat>, seat: nat): (r: seq<nat>)
    requires seat < |members|
    ensures |r| == |members| - 1 && forall m :: m in r ==> m in members
  {
    members[..seat] + members[seat + 1..]
  }

  lemma {:induction false} UnseatIsKeep(members: seq<nat>, seat: nat)
    requires Distinct(members) && seat < |members|
    ensures Keep(members, {members[seat]}) == Unseat(members, seat)
    decreases |members|
  {
    var D, rest := {members[seat]}, members[1..];
    if seat == 0 {
      KeepAll(rest, D);
    } else {
      assert rest[seat - 1] == members[seat] && members[0] !in D;
      UnseatIsKeep(rest, seat - 1);
      assert Unseat(members, seat) == [members[0]] + Unseat(rest, seat - 1);
    }
  }

  /** Whether a room ends when the member at a seat goes. */
  predicate Ends(r: RoomSlot, seat: nat) {
    r.started || seat == 0 || |r.members| - 1 < 2
  }

  /** The tables once client ci is marked dead, struck from the name list and,
      when it was in a room, from its room; a room that ends is left to its
      dissolution. */
  ghost function Detached(s: Snap, ci: nat): Snap
    requires Sized(s) && ci < MAX_CLIENTS
    requires s.clients[ci].room != -1 ==>
               && 0 <= s.clients[ci].room < MAX_ROOMS && ci in s.rooms[s.clients[ci].room].members
               && forall m :: m in s.rooms[s.clients[ci].room].members ==> m < MAX_CLIENTS
  {
    var clients := s.clients[ci := s.clients[ci].(dead := true, room := -1)];
    var byName := Without(s.byName, {ci});
    var r := s.clients[ci].room;
    if r == -1 then s.(clients := clients, byName := byName, dying := s.dying + {ci})
    else
      var seat := SeatOf(s.rooms[r].members, ci);
      var rest := Unseat(s.rooms[r].members, seat);
      var rooms := s.rooms[r := s.rooms[r].(members := rest)];
      if Ends(s.rooms[r], seat) then
        s.(clients := Solo(clients, rest, |rest|), rooms := rooms, byName := byName,
           leaving := s.leaving + {r}, dying := s.dying + {ci})
      else s.(clients := clients, rooms := rooms, byName := byName, dying := s.dying + {ci})
  }

  function SeatOf(members: seq<nat>, ci: nat): (seat: nat)
    requires ci in members
    ensures seat < |members| && members[seat] == ci && ci !in members[..seat]
  {
    if members[0] == ci then 0 else 1 + SeatOf(members[1..], ci)
  }

  lemma RoomMembers(s: Snap, r: nat, maxSeats: nat)
    requires Ok(s, maxSeats) && r < MAX_ROOMS && RoomAt(s, r).Some?
    ensures Distinct(s.rooms[r].members) && 2 <= |s.rooms[r].members| <= maxSeats
    ensures forall m :: m in s.rooms[r].members ==> Live(s, m) && s.clients[m].room == r
  {
    assert RoomOk(ViewOf(s), r, maxSeats);
    assert ViewOf(s).rooms[r] == RoomAt(s, r);
  }

  /** What Detached does to each room. */
  lemma DetachedSlots(s: Snap, ci: nat, q: nat, maxSeats: nat)
    requires Ok(s, maxSeats) && Live(s, ci) && q < MAX_ROOMS
    ensures var t := Detached(s, ci);
            && |t.rooms| == MAX_ROOMS
            && (s.clients[ci].room != q ==> t.rooms[q] == s.rooms[q] && (q in t.leaving <==> q in s.leaving))
            && (s.clients[ci].room == q ==>
                  && RoomAt(s, q).Some? && ci in s.rooms[q].members
                  && var seat := SeatOf(s.rooms[q].members, ci);
                     && t.rooms[q] == s.rooms[q].(members := Unseat(s.rooms[q].members, seat))
                     && (q in t.leaving <==> Ends(s.rooms[q], seat)))
  {
  }

  /** A room loses exactly the client who left. */
  lemma UnseatedRoom(m: seq<nat>, started: bool, ci: nat)
    requires Distinct(m) && ci in m
    ensures var seat := SeatOf(m, ci);
            Left(Some(Room(started, m)), {ci})
            == if Ends(RoomSlot(true, started, m), seat) then None else Some(Room(started, Unseat(m, seat)))
  {
    var seat := SeatOf(m, ci);
    UnseatIsKeep(m, seat);
    assert m[seat] == ci;
    KeepAll(m, {ci});
    hide Keep;
  }

  lemma DetachedRoom(s: Snap, ci: nat, q: nat, maxSeats: nat)
    requires Ok(s, maxSeats) && Live(s, ci) && q < MAX_ROOMS
    ensures |Detached(s, ci).rooms| == MAX_ROOMS
    ensures RoomAt(Detached(s, ci), q) == Left(RoomAt(s, q), {ci})
  {
    DetachedSlots(s, ci, q, maxSeats);
    if RoomAt(s, q).Some? {
      RoomMembers(s, q, maxSeats);
      var m := s.rooms[q].members;
      if q == s.clients[ci].room {
        UnseatedRoom(m, s.rooms[q].started, ci);
      } else {
        KeepAll(m, {ci});
      }
    }
    hide Detached, Ok, Left, Linked;
  }

  lemma DetachedNames(s: Snap, ci: nat)
    requires Sized(s) && Linked(s) && Live(s, ci)
    ensures Detached(s, ci).byName == Without(s.byName, {ci}) && |Detached(s, ci).wire| == MAX_CLIENTS
  {
  }

  lemma DetachedView(s: Snap, ci: nat, maxSeats: nat)
    requires Ok(s, maxSeats) && Live(s, ci)
    ensures Sized(Detached(s, ci)) && ViewOf(Detached(s, ci)) == Fall(ViewOf(s), {ci})
  {
    var t := Detached(s, ci);
    forall q: nat | q < MAX_ROOMS ensures RoomAt(t, q) == Left(RoomAt(s, q), {ci}) {
      DetachedRoom(s, ci, q, maxSeats);
    }
    DetachedClients(s, ci);
    hide Left, RoomAt, Detached, Ok;
    assert LiveSet(t) == LiveSet(s) - {ci};
    DetachedNames(s, ci);
  }

  lemma DetachedClients(s: Snap, ci: nat)
    requires Sized(s) && Linked(s) && Live(s, ci)
    ensures var t := Detached(s, ci);
            && |t.clients| == MAX_CLIENTS
            && forall i: nat :: i < MAX_CLIENTS ==>
                 && t.clients[i].(room := s.clients[i].room, dead := s.clients[i].dead) == s.clients[i]
                 && t.clients[i].dead == (s.clients[i].dead || i == ci)
                 && (t.clients[i].room == s.clients[i].room || t.clients[i].room == -1)
  {
  }

  lemma DetachedGrown(s: Snap, ci: nat)
    requires Sized(s) && Linked(s) && Live(s, ci)
    ensures Sized(Detached(s, ci)) && Grown(s, Detached(s, ci), {ci})
  {
    DetachedClients(s, ci);
  }

  /** Room links after a client left, for every client still there. */
  lemma DetachedLinked(s: Snap, ci: nat, maxSeats: nat)
    requires Ok(s, maxSeats) && Live(s, ci)
    ensures Sized(Detached(s, ci)) && Linked(Detached(s, ci))
  {
    var t, r := Detached(s, ci), s.clients[ci].room;
    DetachedClients(s, ci);
    forall i: nat | Live(t, i) && t.clients[i].room != -1
      ensures 0 <= t.clients[i].room < MAX_ROOMS && RoomAt(t, t.clients[i].room).Some?
              && i in t.rooms[t.clients[i].room].members && t.clients[i].name != []
    {
      var q := s.clients[i].room;
      assert t.clients[i].room == q && Live(s, i) && i != ci;
      DetachedRoom(s, ci, q, maxSeats);
      KeepAll(s.rooms[q].members, {ci});
      KeepMembers(s.rooms[q].members, {ci}, i);
      StillThere(s, ci, i, maxSeats);
    }
    forall q: nat, k: nat | q < MAX_ROOMS && RoomAt(t, q).Some? && k < |t.rooms[q].members|
      ensures Live(t, t.rooms[q].members[k]) && t.clients[t.rooms[q].members[k]].room == q
    {
      DetachedRoom(s, ci, q, maxSeats);
      StillLinked(s, ci, q, t.rooms[q].members[k], maxSeats);
    }
  }

  lemma StillThere(s: Snap, ci: nat, i: nat, maxSeats: nat)
    requires Ok(s, maxSeats) && Live(s, ci) && Live(s, i) && i != ci
    requires s.clients[i].room != -1 && Detached(s, ci).clients[i].room == s.clients[i].room
    ensures var t := Detached(s, ci);
            RoomAt(t, s.clients[i].room).Some? && i in t.rooms[s.clients[i].room].members
  {
    var q := s.clients[i].room;
    RoomMembers(s, q, maxSeats);
    OwnRoomListed(s, i);
    DetachedSlots(s, ci, q, maxSeats);
    if q == s.clients[ci].room {
      var m := s.rooms[q].members;
      UnseatIsKeep(m, SeatOf(m, ci));
      KeepMembers(m, {ci}, i);
      SentHome(s, ci, i, maxSeats);
    }
    hide Detached, Ok, Linked, Keep;
  }

  lemma OwnRoomListed(s: Snap, i: nat)
    requires Sized(s) && Linked(s) && Live(s, i) && s.clients[i].room != -1
    ensures var q := s.clients[i].room; 0 <= q < MAX_ROOMS && RoomAt(s, q).Some? && i in s.rooms[q].members
  {
  }

  /** A leaver's mate that is still in the room was not sent home: the room did
      not end. */
  lemma SentHome(s: Snap, ci: nat, i: nat, maxSeats: nat)
    requires Ok(s, maxSeats) && Live(s, ci) && Live(s, i) && i != ci && s.clients[i].room == s.clients[ci].room != -1
    requires Detached(s, ci).clients[i].room == s.clients[i].room
    ensures var r := s.clients[ci].room;
            0 <= r < MAX_ROOMS && ci in s.rooms[r].members && !Ends(s.rooms[r], SeatOf(s.rooms[r].members, ci))
  {
    hide Detached, Keep, Named, Sound, ViewOf, Bounded, Linked, LiveSet;
    OwnRoomListed(s, i);
    OwnRoomListed(s, ci);
    RoomMembers(s, s.clients[ci].room, maxSeats);
    DetachedIs(s, ci);
    var m := s.rooms[s.clients[ci].room].members;
    UnseatIsKeep(m, SeatOf(m, ci));
    KeepMembers(m, {ci}, i);
    if Ends(s.rooms[s.clients[ci].room], SeatOf(m, ci)) {
      InSolo(Unlinked(s, ci).clients, Unseat(m, SeatOf(m, ci)), i);
    }
  }

  lemma InSolo(clients: seq<Client>, members: seq<nat>, i: nat)
    requires i in members && forall m :: m in members ==> m < |clients|
    ensures Solo(clients, members, |members|)[i].room == -1
  {
    assert members[..|members|] == members;
  }

  lemma StillLinked(s: Snap, ci: nat, q: nat, m: nat, maxSeats: nat)
    requires Ok(s, maxSeats) && Live(s, ci) && q < MAX_ROOMS
    requires var t := Detached(s, ci); RoomAt(t, q).Some? && m in t.rooms[q].members
    ensures var t := Detached(s, ci); Live(t, m) && t.clients[m].room == q
  {
    var t := Detached(s, ci);
    DetachedSlots(s, ci, q, maxSeats);
    RoomMembers(s, q, maxSeats);
    if q == s.clients[ci].room {
      UnseatIsKeep(s.rooms[q].members, SeatOf(s.rooms[q].members, ci));
      KeepMembers(s.rooms[q].members, {ci}, m);
    }
    DetachedClients(s, ci);
    StaysInRoom(s, ci, m, maxSeats);
    hide Detached, Ok;
  }

  /** Only the members of a room that ends are sent back to solo. */
  lemma StaysInRoom(s: Snap, ci: nat, m: nat, maxSeats: nat)
    requires Ok(s, maxSeats) && Live(s, ci) && Live(s, m) && m != ci
    ensures var t, r := Detached(s, ci), s.clients[ci].room;
            t.clients[m].room == s.clients[m].room || (r != -1 && m in s.rooms[r].members && r in t.leaving)
  {
    hide Named, Bounded, Sound, Solo, Unseat, Without;
    var r := s.clients[ci].room;
    if r != -1 {
      var rest := Unseat(s.rooms[r].members, SeatOf(s.rooms[r].members, ci));
      OutsideSolo(s.clients[ci := s.clients[ci].(dead := true, room := -1)], rest, m);
    }
  }

  lemma OutsideSolo(clients: seq<Client>, members: seq<nat>, i: nat)
    requires i < |clients| && forall m :: m in members ==> m < |clients|
    ensures i in members || Solo(clients, members, |members|)[i] == clients[i]
  {
    assert members[..|members|] == members;
  }

  lemma DetachedNamed(s: Snap, ci: nat)
    requires Sized(s) && Linked(s) && Named(s) && Live(s, ci)
    ensures Sized(Detached(s, ci)) && Named(Detached(s, ci))
  {
    var t := Detached(s, ci);
    DetachedClients(s, ci);
    forall j | 0 <= j < |t.byName|
      ensures Live(t, t.byName[j].ci) && t.clients[t.byName[j].ci].name == t.byName[j].name
    {
      WithoutHas(s.byName, {ci}, t.byName[j]);
    }
    forall i: nat | Live(t, i) && t.clients[i].name != [] ensures Entry(t.clients[i].name, i) in t.byName {
      WithoutHas(s.byName, {ci}, Entry(s.clients[i].name, i));
    }
    hide Detached;
  }

  lemma DetachedOk(s: Snap, ci: nat, maxSeats: nat)
    requires Ok(s, maxSeats) && Live(s, ci)
    ensures var t := Detached(s, ci);
            && Ok(t, maxSeats) && ViewOf(t) == Fall(ViewOf(s), {ci}) && Grown(s, t, {ci})
  {
    DetachedView(s, ci, maxSeats);
    FallSound(ViewOf(s), {ci}, maxSeats);
    DetachedLinked(s, ci, maxSeats);
    DetachedNamed(s, ci);
    DetachedGrown(s, ci);
    DetachedBounded(s, ci);
    hide Detached, Linked, Named, Bounded, Sound, Fall, ViewOf, Grown, Live;
  }

  lemma DetachedBounded(s: Snap, ci: nat)
    requires Sized(s) && Linked(s) && Bounded(s) && Live(s, ci)
    ensures Bounded(Detached(s, ci))
  {
    DetachedClients(s, ci);
    assert Detached(s, ci).dying == s.dying + {ci};
    hide Detached;
  }

  /** Freeing a dropped client's slot is seen by nobody else. */
  lemma FreedClient(s: Snap, ci: nat, maxSeats: nat)
    requires Ok(s, maxSeats) && ci in s.dying
    ensures var t := s.(clients := s.clients[ci := s.clients[ci].(inUse := false)], dying := s.dying - {ci});
            && Ok(t, maxSeats) && ViewOf(t) == ViewOf(s) && Grown(s, t, {ci})
  {
    var t := s.(clients := s.clients[ci := s.clients[ci].(inUse := false)], dying := s.dying - {ci});
    assert LiveSet(t) == LiveSet(s);
    assert ViewOf(t).rooms == ViewOf(s).rooms;
    assert forall i :: Live(t, i) <==> Live(s, i);
    assert Linked(t) && Named(t) && Bounded(t);
  }

  /** Nor is freeing the slot of a room whose members were sent home. */
  lemma FreedRoom(s: Snap, r: nat, maxSeats: nat)
    requires Ok(s, maxSeats) && r < MAX_ROOMS && r in s.leaving
    ensures var t := s.(rooms := s.rooms[r := RoomSlot(false, s.rooms[r].started, [])], leaving := s.leaving - {r});
            && Ok(t, maxSeats) && ViewOf(t) == ViewOf(s) && Grown(s, t, {})
  {
    var t := s.(rooms := s.rooms[r := RoomSlot(false, s.rooms[r].started, [])], leaving := s.leaving - {r});
    assert LiveSet(t) == LiveSet(s);
    assert ViewOf(t).rooms == ViewOf(s).rooms;
    assert forall i :: Live(t, i) <==> Live(s, i);
    assert Linked(t) && Named(t) && Bounded(t);
  }

  /** A room's members sent home, its dissolution under way. */
  ghost function HomeSent(s: Snap, r: nat): Snap
    requires Sized(s) && r < MAX_ROOMS && forall m :: m in s.rooms[r].members ==> m < MAX_CLIENTS
  {
    s.(clients := Solo(s.clients, s.rooms[r].members, |s.rooms[r].members|), leaving := s.leaving + {r})
  }

  /** Client ci dead, struck from the names and unseated. */
  ghost function Unlinked(s: Snap, ci: nat): Snap
    requires Sized(s) && Linked(s) && Live(s, ci)
  {
    var r := s.clients[ci].room;
    s.(clients := s.clients[ci := s.clients[ci].(dead := true, room := -1)], byName := Without(s.byName, {ci}),
       rooms := if r == -1 then s.rooms
                else s.rooms[r := s.rooms[r].(members := Unseat(s.rooms[r].members, SeatOf(s.rooms[r].members, ci)))],
       dying := s.dying + {ci})
  }

  lemma DetachedIs(s: Snap, ci: nat)
    requires Sized(s) && Linked(s) && Live(s, ci)
    ensures var r, t := s.clients[ci].room, Unlinked(s, ci);
            if r == -1 then Detached(s, ci) == t
            else
              && 0 <= r < MAX_ROOMS && ci in s.rooms[r].members
              && (forall m :: m in t.rooms[r].members ==> m < MAX_CLIENTS)
              && Detached(s, ci) == if Ends(s.rooms[r], SeatOf(s.rooms[r].members, ci)) then HomeSent(t, r) else t
  {
  }

  // ---- queues ------------------------------------------------------------

  /** Nothing in the tables depends on queues or sockets. */
  lemma QuietOk(s: Snap, t: Snap, maxSeats: nat)
    requires Ok(s, maxSeats) && Sized(t) && Quiet(s, t)
    requires forall i :: 0 <= i < MAX_CLIENTS ==> |t.clients[i].tx| <= TX_CAP
    ensures Ok(t, maxSeats) && ViewOf(t) == ViewOf(s) && LiveSet(t) == LiveSet(s)
  {
    assert LiveSet(t) == LiveSet(s);
    assert forall i :: Live(t, i) <==> Live(s, i);
    assert ViewOf(t).rooms == ViewOf(s).rooms;
    assert Linked(t) && Named(t) && Bounded(t);
  }

  /** Moving queued bytes to the socket. */
  lemma TookBytes(s: Snap, ci: nat, k: nat, maxSeats: nat)
    requires Ok(s, maxSeats) && Live(s, ci) && k <= |s.clients[ci].tx|
    ensures var c := s.clients[ci];
            var t := s.(clients := s.clients[ci := c.(tx := c.tx[k..])], wire := s.wire[ci := s.wire[ci] + c.tx[..k]]);
            && Ok(t, maxSeats) && Fell(s, t, {}) && Quiet(s, t) && LiveSet(t) == LiveSet(s)
            && (forall i :: 0 <= i < MAX_CLIENTS ==> Stream(t, i) == Stream(s, i))
  {
    var c := s.clients[ci];
    var t := s.(clients := s.clients[ci := c.(tx := c.tx[k..])], wire := s.wire[ci := s.wire[ci] + c.tx[..k]]);
    assert Stream(t, ci) == Stream(s, ci) by {
      assert c.tx == c.tx[..k] + c.tx[k..];
    }
    QuietOk(s, t, maxSeats);
    FallNobody(ViewOf(s));
    hide Ok, Fall;
  }

  /** Queueing bytes. */
  lemma Queued(s: Snap, ci: nat, data: seq<byte>, maxSeats: nat)
    requires Ok(s, maxSeats) && Live(s, ci) && |s.clients[ci].tx| + |data| <= TX_CAP
    ensures var c := s.clients[ci];
            var t := s.(clients := s.clients[ci := c.(tx := c.tx + data)]);
            && Ok(t, maxSeats) && Fell(s, t, {}) && Quiet(s, t) && LiveSet(t) == LiveSet(s)
            && (forall i :: 0 <= i < MAX_CLIENTS ==> Stream(t, i) == Stream(s, i) + if i == ci then data else [])
  {
    var c := s.clients[ci];
    var t := s.(clients := s.clients[ci := c.(tx := c.tx + data)]);
    assert s.wire[ci] + (c.tx + data) == s.wire[ci] + c.tx + data;
    QuietOk(s, t, maxSeats);
    FallNobody(ViewOf(s));
    hide Ok, Fall;
  }

  // ---- steps of a drop ---------------------------------------------------

  lemma HomeSentLive(s: Snap, r: nat)
    requires Sized(s) && r < MAX_ROOMS && forall m :: m in s.rooms[r].members ==> m < MAX_CLIENTS
    ensures Sized(HomeSent(s, r)) && LiveSet(HomeSent(s, r)) == LiveSet(s)
    ensures forall i: nat :: Live(HomeSent(s, r), i) <==> Live(s, i)
    ensures forall i: nat :: i < MAX_CLIENTS ==> Stream(HomeSent(s, r), i) == Stream(s, i)
  {
  }

  /** Those who stay behind in a leaver's room. */
  lemma Survivors(s: Snap, ci: nat, maxSeats: nat)
    requires Ok(s, maxSeats) && Live(s, ci) && s.clients[ci].room != -1
    ensures var r := s.clients[ci].room;
            && 0 <= r < MAX_ROOMS && RoomAt(s, r).Some? && ci in s.rooms[r].members
            && var rest := Unseat(s.rooms[r].members, SeatOf(s.rooms[r].members, ci));
               && |rest| + 1 == |s.rooms[r].members| <= 4
               && forall m :: m in rest ==> Live(Unlinked(s, ci), m)
  {
    var r := s.clients[ci].room;
    var m := s.rooms[r].members;
    RoomMembers(s, r, maxSeats);
    UnseatIsKeep(m, SeatOf(m, ci));
    forall x | x in Unseat(m, SeatOf(m, ci)) ensures Live(Unlinked(s, ci), x) {
      KeepMembers(m, {ci}, x);
    }
  }

  lemma NobodyLost(s: Snap, t: Snap)
    requires Lost(s, t, {})
    ensures LiveSet(t) == LiveSet(s) && forall i: nat :: Live(t, i) <==> Live(s, i)
  {
    assert LiveSet(t) == LiveSet(s) - {};
    assert forall i: nat :: Live(t, i) <==> i in LiveSet(t);
    assert forall i: nat :: Live(s, i) <==> i in LiveSet(s);
  }

  /** Losses leave fewer clients live. */
  lemma LostFewer(s: Snap, t: Snap, D: set<nat>)
    requires Lost(s, t, D)
    ensures |LiveSet(t)| <= |LiveSet(s)|
  {
    assert LiveSet(t) == LiveSet(s) - D;
  }

  /** A client that was live is live or known dead after any losses. */
  lemma StillKnown(s: Snap, t: Snap, D: set<nat>, m: nat)
    requires Lost(s, t, D) && Live(s, m)
    ensures Live(t, m) || (t.clients[m].dead && m in D)
  {
    assert LiveSet(t) == LiveSet(s) - D;
    assert m in LiveSet(s);
    hide Fall;
  }

  /** The whole of a drop. */
  lemma DropDone(s: Snap, t: Snap, ci: nat, E: set<nat>, maxSeats: nat)
    requires Ok(s, maxSeats) && Live(s, ci)
    requires Lost(Detached(s, ci), t, E) && Ok(t, maxSeats) && ci in t.dying
    requires t.leaving == s.leaving && t.dying == s.dying + {ci} && ci !in s.dying
    ensures var u := t.(clients := t.clients[ci := t.clients[ci].(inUse := false)], dying := t.dying - {ci});
            Ok(u, maxSeats) && Fell(s, u, {ci} + E)
  {
    hide Grown, Fall, Named, Detached;
    var u := t.(clients := t.clients[ci := t.clients[ci].(inUse := false)], dying := t.dying - {ci});
    DetachedOk(s, ci, maxSeats);
    FreedClient(t, ci, maxSeats);
    assert u.dying == s.dying;
    Lost3(s, Detached(s, ci), t, u, ci, E);
  }

  lemma Lost3(s: Snap, d: Snap, t: Snap, u: Snap, ci: nat, E: set<nat>)
    requires Sized(s) && Sized(d) && Sized(u) && ci in LiveSet(s)
    requires ViewOf(d) == Fall(ViewOf(s), {ci}) && Grown(s, d, {ci})
    requires Lost(d, t, E) && ViewOf(u) == ViewOf(t) && Grown(t, u, {ci})
    ensures Lost(s, u, {ci} + E)
  {
    hide Grown;
    assert LiveSet(d) == LiveSet(s) - {ci};
    hide Fall;
    FallTwice(ViewOf(s), {ci}, E);
    GrownTwice(s, d, t, {ci}, E);
    GrownTwice(s, t, u, {ci} + E, {ci});
    assert {ci} + E + {ci} == {ci} + E;
  }

  // ---- names, joins and starts -------------------------------------------

  /** The name list after client ci takes a name: its old entry goes when the
      name is new to it. */
  function Renamed(names: seq<Entry>, ci: nat, former: Name, name: Name): seq<Entry> {
    Put(if former != [] && former != name then Without(names, {ci}) else names, name, ci)
  }

  lemma {:induction false} FindEntry(names: seq<Entry>, e: Entry)
    requires Unique(names) && e in names
    ensures Find(names, e.name).Some? && names[Find(names, e.name).value] == e
  {
    var i :| 0 <= i < |names| && names[i] == e;
    FindUnique(names, i);
  }

  /** Renaming keeps names unique, and everyone else's entry. */
  lemma RenamedUnique(names: seq<Entry>, ci: nat, former: Name, name: Name)
    requires Unique(names)
    requires forall e :: e in names ==> (e.ci == ci ==> e.name == former) && (e.name == name ==> e.ci == ci)
    requires former == [] ==> forall e :: e in names ==> e.ci != ci
    ensures var r := Renamed(names, ci, former, name);
            && Unique(r) && Entry(name, ci) in r
            && (forall e :: e in r ==> e == Entry(name, ci) || (e in names && e.ci != ci))
            && (forall e :: e in names && e.ci != ci ==> e in r)
  {
    var kept := if former != [] && former != name then Without(names, {ci}) else names;
    WithoutUnique(names, {ci});
    forall e ensures e in kept ==> e in names && (e.ci == ci ==> e.name == name) {
      WithoutHas(names, {ci}, e);
    }
    forall e | e in names && e.ci != ci ensures e in kept {
      WithoutHas(names, {ci}, e);
    }
    PutHas(kept, name, ci);
  }

  lemma PutHas(names: seq<Entry>, name: Name, ci: nat)
    requires Unique(names)
    requires forall e :: e in names ==> (e.ci == ci <==> e.name == name)
    ensures var r := Put(names, name, ci);
            && Unique(r) && Entry(name, ci) in r
            && (forall e :: e in r ==> e == Entry(name, ci) || (e in names && e.ci != ci))
            && (forall e :: e in names && e.ci != ci ==> e in r)
  {
    var r, f := Put(names, name, ci), Find(names, name);
    forall i | 0 <= i < |names| ensures names[i].ci == ci <==> names[i].name == name {
      assert names[i] in names;
    }
    assert Unique(r);
    if f.Some? {
      assert r[f.value] == Entry(name, ci);
      forall e | e in names && e.ci != ci ensures e in r {
        var i :| 0 <= i < |names| && names[i] == e;
        assert r[i] == e;
      }
    } else {
      assert r[|names|] == Entry(name, ci);
    }
  }

  /** A client takes a name nobody else has. */
  lemma HelloOk(s: Snap, ci: nat, name: Name, maxSeats: nat)
    requires Ok(s, maxSeats) && Live(s, ci) && name != []
    requires forall e :: e in s.byName && e.name == name ==> e.ci == ci
    ensures var t := s.(clients := s.clients[ci := s.clients[ci].(name := name)],
                        byName := Renamed(s.byName, ci, s.clients[ci].name, name));
            Ok(t, maxSeats) && ViewOf(t) == ViewOf(s).(names := t.byName)
  {
    var former := s.clients[ci].name;
    var t := s.(clients := s.clients[ci := s.clients[ci].(name := name)], byName := Renamed(s.byName, ci, former, name));
    forall e | e in s.byName ensures e.ci == ci ==> e.name == former && former != [] {
      OwnEntry(s, e, maxSeats);
    }
    RenamedUnique(s.byName, ci, former, name);
    HelloTables(s, t, ci, name, maxSeats);
    hide Linked, Bounded, LiveSet, Renamed;
    HelloNamed(s, t, ci, name);
    HelloSound(s, t, ci, name, maxSeats);
  }

  lemma OwnEntry(s: Snap, e: Entry, maxSeats: nat)
    requires Ok(s, maxSeats) && e in s.byName
    ensures Live(s, e.ci) && s.clients[e.ci].name == e.name && e.name != []
  {
    var j :| 0 <= j < |s.byName| && s.byName[j] == e;
    assert ViewOf(s).names[j].name != [];
  }

  lemma HelloTables(s: Snap, t: Snap, ci: nat, name: Name, maxSeats: nat)
    requires Ok(s, maxSeats) && Live(s, ci) && name != []
    requires t == s.(clients := s.clients[ci := s.clients[ci].(name := name)], byName := t.byName)
    ensures Sized(t) && Linked(t) && Bounded(t) && LiveSet(t) == LiveSet(s) && ViewOf(t) == ViewOf(s).(names := t.byName)
  {
    assert LiveSet(t) == LiveSet(s);
    assert ViewOf(t).rooms == ViewOf(s).rooms;
  }

  lemma HelloNamed(s: Snap, t: Snap, ci: nat, name: Name)
    requires Sized(s) && Named(s) && Live(s, ci) && Unique(s.byName)
    requires t == s.(clients := s.clients[ci := s.clients[ci].(name := name)], byName := t.byName)
    requires Entry(name, ci) in t.byName
    requires forall e :: e in t.byName ==> e == Entry(name, ci) || (e in s.byName && e.ci != ci)
    requires forall e :: e in s.byName && e.ci != ci ==> e in t.byName
    ensures Named(t)
  {
    forall j | 0 <= j < |t.byName|
      ensures Live(t, t.byName[j].ci) && t.clients[t.byName[j].ci].name == t.byName[j].name
    {
      var e := t.byName[j];
      assert e in t.byName;
      if e != Entry(name, ci) {
        var k :| 0 <= k < |s.byName| && s.byName[k] == e;
      }
    }
  }

  lemma HelloSound(s: Snap, t: Snap, ci: nat, name: Name, maxSeats: nat)
    requires Sized(s) && Sized(t) && Sound(ViewOf(s), maxSeats) && name != [] && ci in LiveSet(s)
    requires ViewOf(t).rooms == ViewOf(s).rooms && LiveSet(t) == LiveSet(s) && Unique(t.byName)
    requires forall e :: e in t.byName ==> e == Entry(name, ci) || (e in s.byName && e.ci != ci)
    ensures Sound(ViewOf(t), maxSeats)
  {
    var v, w := ViewOf(s), ViewOf(t);
    forall r | 0 <= r < |w.rooms| ensures RoomOk(w, r, maxSeats) {
      assert RoomOk(v, r, maxSeats);
    }
    forall j | 0 <= j < |w.names| ensures w.names[j].ci in w.live && w.names[j].name != [] {
      assert w.names[j] in t.byName;
      if w.names[j] != Entry(name, ci) {
        var k :| 0 <= k < |s.byName| && s.byName[k] == w.names[j];
        assert v.names[k] == w.names[j];
      }
    }
  }

  /** A room seated anew: its members all live, named and linked to it. */
  function Seated(v: View, r: nat, room: Room): View
    requires r < |v.rooms|
  {
    v.(rooms := v.rooms[r := Some(room)])
  }

  /** Client ci joins room r, or founds it with a target. */
  lemma JoinOk(s: Snap, r: nat, was: seq<nat>, ci: nat, maxSeats: nat, t: Snap)
    requires Ok(s, maxSeats) && r < MAX_ROOMS && Live(s, ci) && s.clients[ci].room == -1 && s.clients[ci].name != []
    requires r !in s.leaving
    requires if s.rooms[r].used then was == s.rooms[r].members && !s.rooms[r].started && |was| < maxSeats
             else |was| == 1 && was[0] != ci && Live(s, was[0]) && s.clients[was[0]].room == -1
                  && s.clients[was[0]].name != []
    requires t == s.(clients := t.clients, rooms := s.rooms[r := RoomSlot(true, false, was + [ci])])
    requires |t.clients| == MAX_CLIENTS
    requires forall i: nat :: i < MAX_CLIENTS ==>
               t.clients[i] == if i == ci || i in was then s.clients[i].(room := r) else s.clients[i]
    ensures Ok(t, maxSeats) && ViewOf(t) == Seated(ViewOf(s), r, Room(false, was + [ci]))
  {
    JoinMembers(s, r, was, ci, maxSeats);
    var m := was + [ci];
    assert LiveSet(t) == LiveSet(s);
    assert forall i :: Live(t, i) <==> Live(s, i);
    forall q: nat | q < MAX_ROOMS ensures RoomAt(t, q) == Seated(ViewOf(s), r, Room(false, m)).rooms[q] {
    }
    assert ViewOf(t) == Seated(ViewOf(s), r, Room(false, m));
    JoinLinked(s, r, was, ci, maxSeats, t);
    JoinSound(s, r, was, ci, maxSeats, t);
    assert Named(t) && Bounded(t);
  }

  lemma JoinMembers(s: Snap, r: nat, was: seq<nat>, ci: nat, maxSeats: nat)
    requires Ok(s, maxSeats) && r < MAX_ROOMS && s.clients[ci % MAX_CLIENTS].room == -1 && ci < MAX_CLIENTS
    requires r !in s.leaving
    requires if s.rooms[r].used then was == s.rooms[r].members && |was| < maxSeats
             else |was| == 1 && was[0] != ci && Live(s, was[0])
    ensures Distinct(was + [ci]) && 2 <= |was + [ci]| <= maxSeats && ci !in was
    ensures forall x :: x in was ==> Live(s, x) && (s.rooms[r].used ==> s.clients[x].room == r)
  {
    assert ci % MAX_CLIENTS == ci;
    if s.rooms[r].used {
      RoomMembers(s, r, maxSeats);
    }
  }

  lemma JoinLinked(s: Snap, r: nat, was: seq<nat>, ci: nat, maxSeats: nat, t: Snap)
    requires Sized(s) && Linked(s) && r < MAX_ROOMS && Live(s, ci) && s.clients[ci].room == -1 && s.clients[ci].name != []
    requires r !in s.leaving && (s.rooms[r].used ==> was == s.rooms[r].members)
    requires forall x :: x in was ==> Live(s, x) && s.clients[x].name != [] 
                                      && (s.clients[x].room == if s.rooms[r].used then r else -1)
    requires t == s.(clients := t.clients, rooms := s.rooms[r := RoomSlot(true, false, was + [ci])])
    requires |t.clients| == MAX_CLIENTS
    requires forall i: nat :: i < MAX_CLIENTS ==>
               t.clients[i] == if i == ci || i in was then s.clients[i].(room := r) else s.clients[i]
    ensures Linked(t)
  {
    forall i: nat | Live(t, i) && t.clients[i].room != -1
      ensures 0 <= t.clients[i].room < MAX_ROOMS && RoomAt(t, t.clients[i].room).Some?
              && i in t.rooms[t.clients[i].room].members && t.clients[i].name != []
    {
      assert Live(s, i);
    }
    forall q: nat, k: nat | q < MAX_ROOMS && RoomAt(t, q).Some? && k < |t.rooms[q].members|
      ensures Live(t, t.rooms[q].members[k]) && t.clients[t.rooms[q].members[k]].room == q
    {
      if q != r {
        assert RoomAt(s, q).Some? && Live(s, s.rooms[q].members[k]) && s.clients[s.rooms[q].members[k]].room == q;
      } else if k < |was| {
        assert t.rooms[q].members[k] == was[k] && was[k] in was;
        assert Live(s, was[k]);
      } else {
        assert t.rooms[q].members[k] == ci;
      }
    }
  }

  lemma JoinSound(s: Snap, r: nat, was: seq<nat>, ci: nat, maxSeats: nat, t: Snap)
    requires Sized(s) && Sized(t) && Sound(ViewOf(s), maxSeats) && Linked(t) && r < MAX_ROOMS
    requires ViewOf(t) == Seated(ViewOf(s), r, Room(false, was + [ci]))
    requires Distinct(was + [ci]) && 2 <= |was + [ci]| <= maxSeats
    ensures Sound(ViewOf(t), maxSeats)
  {
    var v, w := ViewOf(s), ViewOf(t);
    forall q | 0 <= q < |w.rooms| ensures RoomOk(w, q, maxSeats) {
      assert RoomOk(v, q, maxSeats);
      assert w.rooms[q] == RoomAt(t, q);
      if q == r {
        forall i | 0 <= i < |was + [ci]| ensures (was + [ci])[i] in w.live {
          assert Live(t, t.rooms[r].members[i]);
        }
      }
    }
    LinkedDisjoint(t);
    assert w.names == v.names && w.live == v.live;
  }

  /** Links keep rooms apart. */
  lemma LinkedDisjoint(s: Snap)
    requires Sized(s) && Linked(s)
    ensures Disjoint(ViewOf(s))
  {
    var v := ViewOf(s);
    forall r, q, i, j | 0 <= r < q < |v.rooms| && v.rooms[r].Some? && v.rooms[q].Some?
      && 0 <= i < |v.rooms[r].value.members| && 0 <= j < |v.rooms[q].value.members|
      ensures v.rooms[r].value.members[i] != v.rooms[q].value.members[j]
    {
      assert v.rooms[r] == RoomAt(s, r) && v.rooms[q] == RoomAt(s, q);
      assert s.clients[s.rooms[r].members[i]].room == r && s.clients[s.rooms[q].members[j]].room == q;
    }
  }

  lemma StartOk(s: Snap, r: nat, maxSeats: nat)
    requires Ok(s, maxSeats) && r < MAX_ROOMS && RoomAt(s, r).Some?
    ensures var t := s.(rooms := s.rooms[r := s.rooms[r].(started := true)]);
            Ok(t, maxSeats) && ViewOf(t) == Seated(ViewOf(s), r, Room(true, s.rooms[r].members))
  {
    var t := s.(rooms := s.rooms[r := s.rooms[r].(started := true)]);
    var v, w := ViewOf(s), ViewOf(t);
    assert LiveSet(t) == LiveSet(s);
    assert forall i :: Live(t, i) <==> Live(s, i);
    forall q: nat | q < MAX_ROOMS ensures w.rooms[q] == Seated(v, r, Room(true, s.rooms[r].members)).rooms[q] {
    }
    assert Linked(t) && Named(t) && Bounded(t);
    forall q | 0 <= q < |w.rooms| ensures RoomOk(w, q, maxSeats) {
      assert RoomOk(v, q, maxSeats);
    }
    LinkedDisjoint(t);
  }

  /** A started room is never touched but to be dissolved. */
  ghost predicate Frozen(v: View, w: View) {
    && |v.rooms| == |w.rooms|
    && forall r :: 0 <= r < |v.rooms| && v.rooms[r].Some? && v.rooms[r].value.started ==>
                     w.rooms[r] == v.rooms[r] || w.rooms[r].None?
  }

  lemma FallFrozen(v: View, D: set<nat>)
    ensures Frozen(v, Fall(v, D))
  {
  }

  lemma FrozenTwice(u: View, v: View, w: View)
    requires Frozen(u, v) && Frozen(v, w) && forall r :: 0 <= r < |v.rooms| && v.rooms[r].None? ==> w.rooms[r].None?
    ensures Frozen(u, w)
  {
  }

  // ---- how far a cascade reaches -----------------------------------------

  /** A client and those who share its room. */
  ghost function Mates(s: Snap, i: nat): set<nat>
    requires Sized(s) && i < MAX_CLIENTS
  {
    var r := s.clients[i].room;
    {i} + if 0 <= r < MAX_ROOMS && RoomAt(s, r).Some? then Elements(s.rooms[r].members) else {}
  }

  ghost function MatesOfAll(s: Snap, to: seq<nat>, k: nat): set<nat>
    requires Sized(s) && k <= |to| && forall m :: m in to ==> m < MAX_CLIENTS
  {
    if k == 0 then {} else assert to[k - 1] in to; MatesOfAll(s, to, k - 1) + Mates(s, to[k - 1])
  }

  lemma InElements(m: seq<nat>, x: nat)
    ensures x in Elements(m) <==> x in m
  {
  }

  /** What losses leave of a room is among what it had. */
  lemma RoomShrinks(s: Snap, t: Snap, D: set<nat>, r: nat)
    requires Lost(s, t, D) && r < MAX_ROOMS && RoomAt(t, r).Some?
    ensures RoomAt(s, r).Some? && forall m :: m in t.rooms[r].members ==> m in s.rooms[r].members
  {
    assert ViewOf(t).rooms[r] == Left(ViewOf(s).rooms[r], D);
    forall m | m in t.rooms[r].members ensures m in s.rooms[r].members {
      KeepMembers(s.rooms[r].members, D, m);
    }
  }

  /** A live client's mates only get fewer. */
  lemma MatesShrink(s: Snap, t: Snap, D: set<nat>, i: nat, maxSeats: nat)
    requires Ok(s, maxSeats) && Ok(t, maxSeats) && Lost(s, t, D) && Live(t, i)
    ensures Mates(t, i) <= Mates(s, i)
  {
    var r := t.clients[i].room;
    if r != -1 {
      assert RoomAt(t, r).Some? && i in t.rooms[r].members;
      RoomShrinks(s, t, D, r);
      RoomMembers(s, r, maxSeats);
      forall x | x in Elements(t.rooms[r].members) ensures x in Elements(s.rooms[r].members) {
        InElements(t.rooms[r].members, x);
        InElements(s.rooms[r].members, x);
      }
    }
    hide Lost, Elements;
  }

  /** Once a client has left its room, those it left are its old mates, and so
      are theirs. */
  lemma MatesOfLeft(s: Snap, ci: nat, m: nat, maxSeats: nat)
    requires Ok(s, maxSeats) && Live(s, ci) && s.clients[ci].room != -1
    requires m in s.rooms[s.clients[ci].room].members && m != ci
    ensures m < MAX_CLIENTS && Sized(Detached(s, ci)) && Mates(Detached(s, ci), m) <= Mates(s, ci)
  {
    var r, d := s.clients[ci].room, Detached(s, ci);
    DetachedOk(s, ci, maxSeats);
    RoomMembers(s, r, maxSeats);
    DetachedClients(s, ci);
    DetachedSlots(s, ci, r, maxSeats);
    InElements(s.rooms[r].members, m);
    forall x | x in Mates(d, m) ensures x in Mates(s, ci) {
      if x != m {
        InElements(d.rooms[r].members, x);
        InElements(s.rooms[r].members, x);
      }
    }
    hide Detached, Elements, Ok;
  }

  lemma {:induction false} AllMatesOfLeft(s: Snap, ci: nat, to: seq<nat>, k: nat, maxSeats: nat)
    requires Ok(s, maxSeats) && Live(s, ci) && s.clients[ci].room != -1 && k <= |to|
    requires forall m :: m in to ==> m < MAX_CLIENTS && m in s.rooms[s.clients[ci].room].members && m != ci
    ensures Sized(Detached(s, ci)) && MatesOfAll(Detached(s, ci), to, k) <= Mates(s, ci)
    decreases k
  {
    hide Detached, Mates, Named, Grown, Fall, ViewOf, Live;
    DetachedOk(s, ci, maxSeats);
    if k > 0 {
      assert to[k - 1] in to;
      AllMatesOfLeft(s, ci, to, k - 1, maxSeats);
      MatesOfLeft(s, ci, to[k - 1], maxSeats);
    }
  }

  lemma QuietMates(s: Snap, t: Snap, i: nat)
    requires Sized(s) && Sized(t) && Quiet(s, t) && i < MAX_CLIENTS
    ensures Mates(t, i) == Mates(s, i)
  {
  }

  // ---- room for names ----------------------------------------------------

  lemma {:induction false} OwnersCount(names: seq<Entry>, k: nat)
    requires Unique(names) && k <= |names|
    ensures |set i | 0 <= i < k :: names[i].ci| == k
    decreases k
  {
    if k > 0 {
      OwnersCount(names, k - 1);
      assert (set i | 0 <= i < k :: names[i].ci) == (set i | 0 <= i < k - 1 :: names[i].ci) + {names[k - 1].ci};
    }
  }

  /** The list has room for the name of a client that has no entry. */
  lemma OwnersFit(names: seq<Entry>, ci: nat)
    requires Unique(names) && ci < MAX_CLIENTS
    requires forall e :: e in names ==> e.ci < MAX_CLIENTS && e.ci != ci
    ensures |names| < MAX_CLIENTS
  {
    var owners := set i | 0 <= i < |names| :: names[i].ci;
    OwnersCount(names, |names|);
    forall x | x in owners ensures x < MAX_CLIENTS && x != ci {
      var i :| 0 <= i < |names| && names[i].ci == x;
      assert names[i] in names;
    }
    Below(MAX_CLIENTS, owners + {ci});
    assert |owners + {ci}| == |owners| + 1;
  }

  /** Putting a name never meets a full list. */
  lemma NameFits(s: Snap, ci: nat, name: Name, maxSeats: nat)
    requires Ok(s, maxSeats) && Live(s, ci)
    requires forall e :: e in s.byName && e.name == name ==> e.ci == ci
    ensures var former := s.clients[ci].name;
            var names := if former != [] && former != name then Without(s.byName, {ci}) else s.byName;
            Find(names, name).Some? || |names| < MAX_CLIENTS
  {
    var former := s.clients[ci].name;
    var names := if former != [] && former != name then Without(s.byName, {ci}) else s.byName;
    assert Unique(ViewOf(s).names);
    WithoutUnique(s.byName, {ci});
    forall e | e in names ensures e.ci < MAX_CLIENTS && (e.ci == ci ==> former == name && name != []) {
      WithoutHas(s.byName, {ci}, e);
      OwnEntry(s, e, maxSeats);
    }
    if former == name && name != [] {
      FindEntry(s.byName, Entry(name, ci));
    } else {
      OwnersFit(names, ci);
    }
  }
}
