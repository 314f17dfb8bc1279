/** The bytes of the relay's announcements, position by position, and who is sent
    which. */
module Wording {
  import opened Words
  import opened Lobby
  import opened RelayState
  import opened Effects

  /** A name in eight bytes, NUL-padded. */
  predicate NameAt(f: seq<byte>, at: nat, name: Name) {
    at + 8 <= |f| && forall j :: 0 <= j < 8 ==> f[at + j] == if j < |name| then name[j] else 0
  }

  /** Four roster slots: the members' names in seat order, the rest NUL. */
  predicate RosterAt(f: seq<byte>, at: nat, clients: seq<Client>, m: seq<nat>) {
    && at + 32 <= |f|
    && (forall k :: 0 <= k < |m| && k < 4 ==> m[k] < |clients| && NameAt(f, at + 8 * k, clients[m[k]].name))
    && (forall j :: at + 8 * |m| <= j < at + 32 ==> f[j] == 0)
  }

  /** START: seat, count, seed low byte first, delay, roster. */
  predicate IsStart(f: seq<byte>, clients: seq<Client>, m: seq<nat>, seat: nat, seed: word, delay: byte) {
    && |f| == 39 && f[0] == 38 && f[1] == 5
    && f[2] == seat && f[3] == |m| && f[4] == seed % 0x100 && f[5] == seed / 0x100 && f[6] == delay
    && RosterAt(f, 7, clients, m)
  }

  /** ROOM: count, roster. */
  predicate IsRoom(f: seq<byte>, clients: seq<Client>, m: seq<nat>) {
    |f| == 35 && f[0] == 34 && f[1] == 14 && f[2] == |m| && RosterAt(f, 3, clients, m)
  }

  /** ROOM with nobody in it. */
  predicate IsDissolution(f: seq<byte>) {
    |f| == 35 && f[0] == 34 && f[1] == 14 && forall j :: 2 <= j < 35 ==> f[j] == 0
  }

  /** PEER_LEFT: seat, name. */
  predicate IsPeerLeft(f: seq<byte>, seat: nat, name: Name) {
    |f| == 11 && f[0] == 10 && f[1] == 11 && f[2] == seat && NameAt(f, 3, name)
  }

  /** A lobby line's status: 1 for a client in no room, else how many share its
      room, with the top bit when that room is started or full. */
  predicate IsStatus(b: byte, s: Snap, i: nat, maxSeats: nat) {
    i < |s.clients| &&
    var r := s.clients[i].room;
    if r == -1 then b == 1
    else
      && 0 <= r < |s.rooms|
      && b % 0x80 == |s.rooms[r].members|
      && (b >= 0x80 <==> s.rooms[r].started || |s.rooms[r].members| == maxSeats)
  }

  /** LOBBY for a client whose own entry, if any, is at position p of the list:
      the others in order, eight at most, each name with its status. */
  ghost predicate IsLobby(f: seq<byte>, s: Snap, ci: nat, p: nat, maxSeats: nat) {
    && p <= |s.byName| && (forall j :: 0 <= j < |s.byName| ==> (s.byName[j].ci == ci <==> j == p))
    && var others := |s.byName| - if p < |s.byName| then 1 else 0;
       && |f| >= 3 && f[2] == (if others < 8 then others else 8) && |f| == 3 + 9 * f[2] && f[0] == |f| - 1 && f[1] == 3
       && forall j :: 0 <= j < f[2] ==>
            var e := s.byName[if j < p then j else j + 1];
            NameAt(f, 3 + 9 * j, e.name) && IsStatus(f[11 + 9 * j], s, e.ci, maxSeats)
  }

  /** What a stream has grown by. */
  function Added(s: Snap, t: Snap, i: nat): seq<byte>
    requires i < |s.clients| && i < |s.wire| && i < |t.clients| && i < |t.wire|
  {
    if Stream(s, i) <= Stream(t, i) then Stream(t, i)[|Stream(s, i)|..] else []
  }

  // ---- the frames --------------------------------------------------------

  lemma {:induction false} RosterNames(clients: seq<Client>, m: seq<nat>, n: nat, k: nat)
    requires k < n <= |m| <= ROSTER_SLOTS && forall x :: x in m ==> x < |clients|
    ensures m[k] in m && Roster(clients, m, n)[8 * k..8 * k + 8] == PadName(clients[m[k]].name)
    decreases n
  {
    hide PadName;
    if k < n - 1 {
      RosterNames(clients, m, n - 1, k);
      var r := Roster(clients, m, n - 1);
      assert Roster(clients, m, n)[8 * k..8 * k + 8] == r[8 * k..8 * k + 8];
    }
  }

  lemma PaddedIsRoster(f: seq<byte>, at: nat, clients: seq<Client>, m: seq<nat>)
    requires |m| <= ROSTER_SLOTS && forall x :: x in m ==> x < |clients|
    requires at + 32 <= |f| && f[at..at + 32] == PaddedRoster(clients, m)
    ensures RosterAt(f, at, clients, m)
  {
    hide Roster, NameAt;
    var p := PaddedRoster(clients, m);
    forall j | at <= j < at + 32 ensures f[j] == p[j - at] {
      assert f[at..at + 32][j - at] == p[j - at];
    }
    forall k | 0 <= k < |m| ensures m[k] < |clients| && NameAt(f, at + 8 * k, clients[m[k]].name) {
      RosterNames(clients, m, |m|, k);
      assert f[at + 8 * k..at + 8 * k + 8] == p[8 * k..8 * k + 8] == Roster(clients, m, |m|)[8 * k..8 * k + 8];
      NameIs(f, at + 8 * k, clients[m[k]].name);
    }
  }

  lemma NameIs(f: seq<byte>, at: nat, name: Name)
    requires at + 8 <= |f| && f[at..at + 8] == PadName(name)
    ensures NameAt(f, at, name)
  {
    forall j | 0 <= j < 8 ensures f[at + j] == if j < |name| then name[j] else 0 {
      assert f[at..at + 8][j] == PadName(name)[j];
    }
  }

  lemma StartSays(clients: seq<Client>, m: seq<nat>, seat: nat, seed: word, delay: byte)
    requires |m| <= ROSTER_SLOTS && seat < |m| && forall x :: x in m ==> x < |clients|
    ensures IsStart(StartFrame(clients, m, seat, seed, delay), clients, m, seat, seed, delay)
  {
    var f := StartFrame(clients, m, seat, seed, delay);
    hide PaddedRoster, RosterAt;
    assert f[7..39] == PaddedRoster(clients, m);
    PaddedIsRoster(f, 7, clients, m);
  }

  lemma RoomSays(clients: seq<Client>, m: seq<nat>)
    requires |m| <= ROSTER_SLOTS && forall x :: x in m ==> x < |clients|
    ensures IsRoom(RoomFrame(clients, m), clients, m)
  {
    var f := RoomFrame(clients, m);
    hide PaddedRoster, RosterAt;
    assert f[3..35] == PaddedRoster(clients, m);
    PaddedIsRoster(f, 3, clients, m);
  }

  lemma DissolutionSays()
    ensures IsDissolution(Dissolution())
  {
  }

  lemma PeerLeftSays(seat: byte, name: Name)
    ensures IsPeerLeft(PeerLeft(seat, name), seat, name)
  {
    var f := PeerLeft(seat, name);
    forall j | 0 <= j < 8 ensures f[3 + j] == PadName(name)[j] {
    }
  }

  lemma PongSays()
    ensures FrameOf(T_PONG, []) == [1, 13]
  {
  }

  // ---- the listing -------------------------------------------------------

  lemma {:induction false} LineAt(clients: seq<Client>, rooms: seq<RoomSlot>, names: seq<Entry>, n: nat, k: nat, maxSeats: nat)
    requires k < n <= |names| && names[k].ci < |clients|
    ensures Lines(clients, rooms, names, n, maxSeats)[9 * k..9 * k + 9]
            == PadName(clients[names[k].ci].name) + [Status(clients, rooms, names[k].ci, maxSeats)]
    decreases n
  {
    hide PadName, Status;
    if k < n - 1 {
      LineAt(clients, rooms, names, n - 1, k, maxSeats);
      var r := Lines(clients, rooms, names, n - 1, maxSeats);
      assert Lines(clients, rooms, names, n, maxSeats)[9 * k..9 * k + 9] == r[9 * k..9 * k + 9];
    }
  }

  lemma StatusSays(s: Snap, i: nat, maxSeats: nat)
    requires Ok(s, maxSeats) && Live(s, i)
    ensures IsStatus(Status(s.clients, s.rooms, i, maxSeats), s, i, maxSeats)
  {
    if s.clients[i].room != -1 {
      RoomMembers(s, s.clients[i].room, maxSeats);
    }
    hide Named, Bounded, Sound;
  }

  /** Where a client's own entry is: nowhere, or at one place. */
  lemma {:induction false} OwnPlace(names: seq<Entry>, ci: nat) returns (p: nat)
    requires Unique(names)
    ensures p <= |names| && forall j :: 0 <= j < |names| ==> (names[j].ci == ci <==> j == p)
    ensures Without(names, {ci}) == if p < |names| then names[..p] + names[p + 1..] else names
    decreases |names|
  {
    if names == [] {
      p := 0;
    } else if names[0].ci == ci {
      p := 0;
      WithoutNone(names[1..], {ci});
      assert names[..0] + names[1..] == names[1..];
    } else {
      var q := OwnPlace(names[1..], ci);
      p := q + 1;
      assert forall j :: 0 < j < |names| ==> names[j] == names[1..][j - 1];
      if q < |names[1..]| {
        assert names[..p] + names[p + 1..] == [names[0]] + (names[1..][..q] + names[1..][q + 1..]);
      } else {
        assert names == [names[0]] + names[1..];
      }
    }
  }

  lemma ListingSays(s: Snap, ci: nat, maxSeats: nat) returns (p: nat)
    requires Ok(s, maxSeats)
    ensures IsLobby(Listing(s, ci, maxSeats), s, ci, p, maxSeats)
  {
    hide Lines, Status, PadName, IsStatus, NameAt, Without, Linked, Named, Bounded, Sound, ViewOf, Listing, Unique;
    NamesUnique(s, maxSeats);
    p := OwnPlace(s.byName, ci);
    var others := Without(s.byName, {ci});
    var n := if |others| < LOBBY_ENTRIES then |others| else LOBBY_ENTRIES;
    var lines := Lines(s.clients, s.rooms, others, n, maxSeats);
    var f := Listing(s, ci, maxSeats);
    ListingFrame(s, ci, n, lines, maxSeats);
    forall j | 0 <= j < n
      ensures var e := s.byName[if j < p then j else j + 1];
              NameAt(f, 3 + 9 * j, e.name) && IsStatus(f[11 + 9 * j], s, e.ci, maxSeats)
    {
      var i := if j < p then j else j + 1;
      assert others[j] == s.byName[i];
      EntryLive(s, i, maxSeats);
      LineAt(s.clients, s.rooms, others, n, j, maxSeats);
      LineSays(s, f, j, s.byName[i], lines, maxSeats);
    }
  }

  lemma ListingFrame(s: Snap, ci: nat, n: nat, lines: seq<byte>, maxSeats: nat)
    requires Sized(s)
    requires var others := Without(s.byName, {ci});
             && n == (if |others| < LOBBY_ENTRIES then |others| else LOBBY_ENTRIES)
             && lines == Lines(s.clients, s.rooms, others, n, maxSeats)
    ensures var f := Listing(s, ci, maxSeats);
            |f| == 3 + 9 * n && |lines| == 9 * n && f[0] == 2 + 9 * n && f[1] == 3 && f[2] == n && f[3..] == lines
  {
    hide Lines, Without;
  }

  lemma LineSays(s: Snap, f: seq<byte>, j: nat, e: Entry, lines: seq<byte>, maxSeats: nat)
    requires Ok(s, maxSeats) && Live(s, e.ci) && s.clients[e.ci].name == e.name
    requires 9 * j + 9 <= |lines| && |f| == 3 + |lines| && f[3..] == lines
    requires lines[9 * j..9 * j + 9] == PadName(s.clients[e.ci].name) + [Status(s.clients, s.rooms, e.ci, maxSeats)]
    ensures NameAt(f, 3 + 9 * j, e.name) && IsStatus(f[11 + 9 * j], s, e.ci, maxSeats)
  {
    hide Status, IsStatus, PadName, NameAt, Linked, Named, Bounded, Sound, ViewOf;
    StatusSays(s, e.ci, maxSeats);
    var line := lines[9 * j..9 * j + 9];
    assert f[3 + 9 * j..12 + 9 * j] == f[3..][9 * j..9 * j + 9] == line;
    assert f[3 + 9 * j..11 + 9 * j] == line[..8];
    assert f[11 + 9 * j] == f[3 + 9 * j..12 + 9 * j][8];
    NameIs(f, 3 + 9 * j, e.name);
  }

  lemma NamesUnique(s: Snap, maxSeats: nat)
    requires Ok(s, maxSeats)
    ensures Unique(s.byName)
  {
  }

  lemma EntryLive(s: Snap, i: nat, maxSeats: nat)
    requires Ok(s, maxSeats) && i < |s.byName|
    ensures Live(s, s.byName[i].ci) && s.clients[s.byName[i].ci].name == s.byName[i].name
  {
  }

  // ---- who is sent what --------------------------------------------------

  lemma AddedIs(s: Snap, t: Snap, i: nat, f: seq<byte>)
    requires i < |s.clients| && i < |s.wire| && i < |t.clients| && i < |t.wire| && Stream(t, i) == Stream(s, i) + f
    ensures Added(s, t, i) == f
  {
    hide Stream;
    assert (Stream(s, i) + f)[|Stream(s, i)|..] == f;
  }

  /** Each member of a list is sent the frame of its place, and nobody else is
      sent anything. */
  ghost predicate SeatStarted(s: Snap, t: Snap, m: seq<nat>, seed: word, delay: byte)
    requires Sized(s) && Sized(t)
  {
    && (forall k :: 0 <= k < |m| ==> m[k] < MAX_CLIENTS && IsStart(Added(s, t, m[k]), s.clients, m, k, seed, delay))
    && (forall i: nat :: i < MAX_CLIENTS && i !in m ==> Stream(t, i) == Stream(s, i))
  }

  /** The member at each seat is addressed the frame of its seat. */
  lemma {:induction false} SeatTold(m: seq<nat>, data: seq<seq<byte>>, k: nat, seat: nat)
    requires Distinct(m) && k <= |m| == |data| && seat < |m|
    ensures Addressed(m, data, k, m[seat]) == if seat < k then data[seat] else []
    decreases k
  {
    if k > 0 {
      SeatTold(m, data, k - 1, seat);
    }
  }

  lemma StartsSay(s: Snap, t: Snap, m: seq<nat>, seed: word, delay: byte)
    requires Sized(s) && Sized(t) && Distinct(m) && |m| <= ROSTER_SLOTS && forall x :: x in m ==> x < MAX_CLIENTS
    requires var fs := StartFrames(s.clients, m, seed, delay);
             forall i: nat :: i < MAX_CLIENTS ==> Stream(t, i) == Stream(s, i) + Addressed(m, fs, |m|, i)
    ensures SeatStarted(s, t, m, seed, delay)
  {
    hide Stream, Addressed, IsStart, StartFrame, Added;
    var fs := StartFrames(s.clients, m, seed, delay);
    forall k | 0 <= k < |m|
      ensures m[k] < MAX_CLIENTS && IsStart(Added(s, t, m[k]), s.clients, m, k, seed, delay)
    {
      assert m[k] in m;
      SeatTold(m, fs, |m|, k);
      AddedIs(s, t, m[k], fs[k]);
      StartSays(s.clients, m, k, seed, delay);
    }
    forall i: nat | i < MAX_CLIENTS && i !in m ensures Stream(t, i) == Stream(s, i) {
      NotAddressed(m, fs, |m|, i);
      assert Stream(s, i) + [] == Stream(s, i);
    }
  }

  /** The members of a list are sent a frame each, and nobody else anything. */
  lemma ToldAdded(s: Snap, t: Snap, to: seq<nat>, f: seq<byte>)
    requires Sized(s) && Sized(t) && Distinct(to) && Told(s, t, to, f)
    ensures forall i: nat :: i < MAX_CLIENTS && i in to ==> Added(s, t, i) == f
    ensures forall i: nat :: i < MAX_CLIENTS && i !in to ==> Stream(t, i) == Stream(s, i)
  {
    hide Stream, Told, Added;
    ToldEach(s, t, to, f);
    forall i: nat | i < MAX_CLIENTS && i in to ensures Added(s, t, i) == f {
      AddedIs(s, t, i, f);
    }
    forall i: nat | i < MAX_CLIENTS && i !in to ensures Stream(t, i) == Stream(s, i) {
      assert Stream(s, i) + [] == Stream(s, i);
    }
  }

  /** A room's members are told who is in it now. */
  ghost predicate RosterSent(s: Snap, t: Snap, m: seq<nat>)
    requires Sized(s) && Sized(t)
  {
    && (forall i: nat :: i < MAX_CLIENTS && i in m ==> IsRoom(Added(s, t, i), s.clients, m))
    && (forall i: nat :: i < MAX_CLIENTS && i !in m ==> Stream(t, i) == Stream(s, i))
  }

  lemma RosterSays(s: Snap, t: Snap, m: seq<nat>)
    requires Sized(s) && Sized(t) && Distinct(m) && |m| <= ROSTER_SLOTS && forall x :: x in m ==> x < |s.clients|
    requires Told(s, t, m, RoomFrame(s.clients, m))
    ensures RosterSent(s, t, m)
  {
    hide Stream, Told, Added, IsRoom, RoomFrame;
    ToldAdded(s, t, m, RoomFrame(s.clients, m));
    RoomSays(s.clients, m);
  }

  /** What a client alone is sent when it asks for the lobby. */
  ghost predicate LobbySent(s: Snap, t: Snap, ci: nat, maxSeats: nat)
    requires Sized(s) && Sized(t)
  {
    && ci < MAX_CLIENTS && (exists p: nat :: IsLobby(Added(s, t, ci), s, ci, p, maxSeats))
    && (forall i: nat :: i < MAX_CLIENTS && i != ci ==> Stream(t, i) == Stream(s, i))
  }

  lemma LobbySays(s: Snap, t: Snap, ci: nat, maxSeats: nat)
    requires Ok(s, maxSeats) && Sized(t) && ci < MAX_CLIENTS && Told(s, t, [ci], Listing(s, ci, maxSeats))
    ensures LobbySent(s, t, ci, maxSeats)
  {
    hide Stream, Told, Added, IsLobby, Listing;
    var to := [ci];
    ToldAdded(s, t, to, Listing(s, ci, maxSeats));
    assert to[0] == ci && ci in to && forall i: nat :: i in to ==> i == ci;
    var p := ListingSays(s, ci, maxSeats);
    assert IsLobby(Added(s, t, ci), s, ci, p, maxSeats);
  }

  /** What a room is told when client ci alone is gone: the others learn who left
      a started match; that a forming room is over, when ci was its host or only
      one is left; or who is left in it.  Nobody else is told anything. */
  ghost predicate GoneTold(s: Snap, t: Snap, ci: nat)
    requires Sized(s) && Sized(t) && ci < MAX_CLIENTS
  {
    var r := s.clients[ci].room;
    if r == -1 then forall i: nat :: i < MAX_CLIENTS ==> Stream(t, i) == Stream(s, i)
    else
      && 0 <= r < MAX_ROOMS
      && var m := s.rooms[r].members;
         exists seat: nat :: seat < |m| && m[seat] == ci && Survived(s, t, r, m, seat)
  }

  ghost predicate Survived(s: Snap, t: Snap, r: nat, m: seq<nat>, seat: nat)
    requires Sized(s) && Sized(t) && r < MAX_ROOMS && seat < |m|
  {
    && (forall i: nat :: i < MAX_CLIENTS && (i !in m || i == m[seat]) ==> Stream(t, i) == Stream(s, i))
    && (forall i: nat :: i < MAX_CLIENTS && i in m && i != m[seat] ==>
          var f := Added(s, t, i);
          if s.rooms[r].started then m[seat] < MAX_CLIENTS && IsPeerLeft(f, seat, s.clients[m[seat]].name)
          else if seat == 0 || |m| == 2 then IsDissolution(f)
          else IsRoom(f, s.clients, m[..seat] + m[seat + 1..]))
  }

  lemma GoneSays(s: Snap, t: Snap, ci: nat, maxSeats: nat)
    requires Ok(s, maxSeats) && Live(s, ci) && Sized(t) && Notified(s, t, ci, maxSeats)
    ensures GoneTold(s, t, ci)
  {
    hide Stream, Told, Added, IsRoom, IsDissolution, IsPeerLeft, RoomFrame, Dissolution, PeerLeft;
    var r := s.clients[ci].room;
    if r == -1 {
      ToldAdded(s, t, [], []);
    } else {
      RoomMembers(s, r, maxSeats);
      var m := s.rooms[r].members;
      var seat := SeatOf(m, ci);
      RestOf(m, seat);
      Survivors(s, ci, maxSeats);
      var rest := Unseat(m, seat);
      FarewellSays(s, ci, maxSeats);
      ToldAdded(s, t, rest, Farewell(s, ci, maxSeats));
      assert Survived(s, t, r, m, seat) by {
        hide Ok, Farewell;
      }
    }
  }

  lemma RestOf(m: seq<nat>, seat: nat)
    requires Distinct(m) && seat < |m|
    ensures Distinct(Unseat(m, seat)) && Unseat(m, seat) == m[..seat] + m[seat + 1..]
    ensures forall x :: x in Unseat(m, seat) <==> x in m && x != m[seat]
  {
    forall x ensures x in Unseat(m, seat) <==> x in m && x != m[seat] {
      if x in m && x != m[seat] {
        var k :| 0 <= k < |m| && m[k] == x;
        assert Unseat(m, seat)[if k < seat then k else k - 1] == x;
      }
    }
  }

  lemma FarewellSays(s: Snap, ci: nat, maxSeats: nat)
    requires Ok(s, maxSeats) && Live(s, ci) && s.clients[ci].room != -1
    ensures var r := s.clients[ci].room;
            && 0 <= r < MAX_ROOMS && ci in s.rooms[r].members
            && var m := s.rooms[r].members;
               var seat := SeatOf(m, ci);
               var f := Farewell(s, ci, maxSeats);
               if s.rooms[r].started then IsPeerLeft(f, seat, s.clients[ci].name)
               else if seat == 0 || |m| == 2 then IsDissolution(f)
               else IsRoom(f, s.clients, m[..seat] + m[seat + 1..])
  {
    hide IsRoom, IsDissolution, IsPeerLeft, RoomFrame, Dissolution, PeerLeft;
    Survivors(s, ci, maxSeats);
    RoomMembers(s, s.clients[ci].room, maxSeats);
    var m := s.rooms[s.clients[ci].room].members;
    var seat := SeatOf(m, ci);
    PeerLeftSays(seat, s.clients[ci].name);
    DissolutionSays();
    if |m| > 2 {
      RoomSays(s.clients, Unseat(m, seat));
    }
  }

  // ---- the handlers' decisions -------------------------------------------

  /** A HELLO that asks for a name: version 2, two to eight capitals and digits,
      then nothing but NULs and spaces. */
  predicate Greets(payload: seq<byte>, name: Name) {
    && 3 <= |payload| && payload[0] == 2 && 2 <= |name| <= 8 && name <= payload[1..]
    && (forall b :: b in name ==> 0x41 <= b <= 0x5A || 0x30 <= b <= 0x39)
    && (forall i :: |name| < i < |payload| ==> payload[i] == 0 || payload[i] == 0x20)
  }

  lemma {:induction false} Stripped(s: seq<byte>)
    ensures forall i :: |RStrip(s)| <= i < |s| ==> s[i] == 0 || s[i] == 0x20
    decreases |s|
  {
    if s != [] && (s[|s| - 1] == 0 || s[|s| - 1] == 0x20) {
      Stripped(s[..|s| - 1]);
    }
  }

  lemma HelloNameSays(payload: seq<byte>)
    ensures forall n: Name :: HelloName(payload) == Some(n) <==> Greets(payload, n)
  {
    hide RStrip;
    if 3 <= |payload| && payload[0] == 2 {
      var r := RStrip(payload[1..]);
      Stripped(payload[1..]);
      forall i | |r| < i < |payload| ensures payload[i] == 0 || payload[i] == 0x20 {
        assert payload[1..][i - 1] == payload[i];
      }
      forall n: Name | Greets(payload, n) ensures n == r && forall i :: 0 <= i < |n| ==> NameChar(n[i]) {
        StrippedOnce(payload, n, r);
        assert forall i :: 0 <= i < |n| ==> n[i] in n;
      }
      if HelloName(payload) == Some(r) {
        assert Greets(payload, r);
      }
    }
  }

  /** The stripped bytes are all there is to strip to. */
  lemma StrippedOnce(payload: seq<byte>, n: Name, r: seq<byte>)
    requires Greets(payload, n) && r <= payload[1..] && (r != [] ==> r[|r| - 1] != 0 && r[|r| - 1] != 0x20)
    requires forall i :: |r| < i < |payload| ==> payload[i] == 0 || payload[i] == 0x20
    ensures n == r
  {
    assert r != [] ==> payload[|r|] == payload[1..][|r| - 1] == r[|r| - 1];
    assert payload[|n|] == payload[1..][|n| - 1] == n[|n| - 1] && n[|n| - 1] in n;
    assert |n| == |r|;
  }

  /** A client that a JOIN by name may be joined to: somebody else's entry, in no
      room or in a forming room with a seat free. */
  ghost predicate MayJoin(s: Snap, ci: nat, name: Name, target: nat, maxSeats: nat) {
    && |name| <= 8 && Entry(CString(name), target) in s.byName && target != ci && target < |s.clients|
    && var r := s.clients[target].room;
       0 <= r < |s.rooms| ==> !s.rooms[r].started && |s.rooms[r].members| < maxSeats
  }

  lemma WantedSays(s: Snap, ci: nat, name: Name, maxSeats: nat)
    requires Ok(s, maxSeats)
    ensures forall t: nat :: Wanted(s, ci, name, maxSeats) == Some(t) <==> MayJoin(s, ci, name, t, maxSeats)
  {
    hide CString, Find, Linked, Named, Bounded;
    NamesUnique(s, maxSeats);
    forall t: nat | Entry(CString(name), t) in s.byName
      ensures Find(s.byName, CString(name)).Some? && s.byName[Find(s.byName, CString(name)).value].ci == t
    {
      FindEntry(s.byName, Entry(CString(name), t));
    }
    var f := Find(s.byName, CString(name));
    if f.Some? {
      assert s.byName[f.value] == Entry(CString(name), s.byName[f.value].ci);
    }
  }

  /** A name taken: nothing changes for the client's own name; otherwise its old
      entry goes, the rest closes up, and the new one comes last. */
  ghost predicate NameTaken(was: seq<Entry>, now: seq<Entry>, ci: nat, former: Name, name: Name) {
    if former == name then now == was
    else exists p: nat :: p <= |was| && Taken(was, now, ci, name, p)
  }

  ghost predicate Taken(was: seq<Entry>, now: seq<Entry>, ci: nat, name: Name, p: nat)
    requires p <= |was|
  {
    && (forall j :: 0 <= j < |was| ==> (was[j].ci == ci <==> j == p))
    && now == (if p < |was| then was[..p] + was[p + 1..] else was) + [Entry(name, ci)]
  }

  lemma RenamedSays(s: Snap, ci: nat, name: Name, maxSeats: nat)
    requires Ok(s, maxSeats) && Live(s, ci) && name != []
    requires forall e :: e in s.byName && e.name == name ==> e.ci == ci
    ensures NameTaken(s.byName, Renamed(s.byName, ci, s.clients[ci].name, name), ci, s.clients[ci].name, name)
  {
    hide Without, Find, Linked, Named, Bounded, Sound, ViewOf, Unique, Taken;
    var former := s.clients[ci].name;
    NamesUnique(s, maxSeats);
    OwnEntries(s, ci, maxSeats);
    if former == name {
      FindEntry(s.byName, Entry(name, ci));
    } else {
      RenamedAfresh(s.byName, ci, former, name);
    }
  }

  lemma RenamedAfresh(names: seq<Entry>, ci: nat, former: Name, name: Name)
    requires Unique(names) && former != name
    requires forall e :: e in names ==> (e.ci == ci ==> e.name == former != []) && (e.name == name ==> e.ci == ci)
    ensures exists p: nat :: p <= |names| && Taken(names, Renamed(names, ci, former, name), ci, name, p)
  {
    hide Without, Find, Unique;
    var p := OwnPlace(names, ci);
    assert p < |names| ==> names[p] in names;
    var kept := if p < |names| then names[..p] + names[p + 1..] else names;
    forall e | e in kept ensures e.name != name {
      assert e in names;
    }
    assert Find(kept, name).None?;
    assert former == [] ==> p == |names|;
    assert Renamed(names, ci, former, name) == kept + [Entry(name, ci)];
    TakenLast(names, kept, ci, name, p);
    assert Taken(names, Renamed(names, ci, former, name), ci, name, p);
  }

  lemma TakenLast(was: seq<Entry>, kept: seq<Entry>, ci: nat, name: Name, p: nat)
    requires p <= |was| && forall j :: 0 <= j < |was| ==> (was[j].ci == ci <==> j == p)
    requires kept == if p < |was| then was[..p] + was[p + 1..] else was
    ensures Taken(was, kept + [Entry(name, ci)], ci, name, p)
  {
  }

  lemma OwnEntries(s: Snap, ci: nat, maxSeats: nat)
    requires Ok(s, maxSeats) && Live(s, ci)
    ensures forall e :: e in s.byName && e.ci == ci ==> e.name == s.clients[ci].name != []
    ensures s.clients[ci].name != [] ==> Entry(s.clients[ci].name, ci) in s.byName
  {
    forall e | e in s.byName && e.ci == ci ensures e.name == s.clients[ci].name != [] {
      OwnEntry(s, e, maxSeats);
    }
  }

  /** GO: the host of a forming room starts it, all its members told their seats;
      anybody else's changes nothing. */
  ghost predicate GoSays(s: Snap, t: Snap, ci: nat, seed: word, delay: byte)
    requires Sized(s) && Sized(t) && ci < MAX_CLIENTS
  {
    var r := s.clients[ci].room;
    if 0 <= r < MAX_ROOMS && !s.rooms[r].started && s.rooms[r].members != [] && s.rooms[r].members[0] == ci then
      && t.rooms[r] == s.rooms[r].(used := true, started := true) && seed != 0
      && SeatStarted(s, t, s.rooms[r].members, seed, delay)
    else t == s
  }

  /** A match frame: in a started room every other member is sent the same bytes;
      outside one nobody is sent anything. */
  ghost predicate MatchRelayed(s: Snap, t: Snap, ci: nat, body: seq<byte>)
    requires Sized(s) && Sized(t) && ci < MAX_CLIENTS
  {
    var r := s.clients[ci].room;
    forall i: nat :: i < MAX_CLIENTS ==>
      if 0 <= r < MAX_ROOMS && s.rooms[r].started && i in s.rooms[r].members && i != ci then
        |body| < 0x100 && Added(s, t, i) == [|body|] + body
      else Stream(t, i) == Stream(s, i)
  }

  lemma MatchSays(s: Snap, t: Snap, ci: nat, body: seq<byte>, maxSeats: nat)
    requires Ok(s, maxSeats) && Live(s, ci) && Sized(t) && 1 <= |body| <= 200
    requires Told(s, t, Others(s, ci), [|body|] + body)
    ensures MatchRelayed(s, t, ci, body)
  {
    hide Stream, Told, Added, Named, Bounded, Sound;
    var f: seq<byte> := [|body|] + body;
    var r := s.clients[ci].room;
    if r != -1 && s.rooms[r].started {
      RoomMembers(s, r, maxSeats);
      RestOf(s.rooms[r].members, SeatOf(s.rooms[r].members, ci));
    }
    ToldAdded(s, t, Others(s, ci), f);
  }

  /** PING: one PONG, to the client alone. */
  lemma PingAnswered(s: Snap, t: Snap, ci: nat, body: seq<byte>, o: Outcome, c: Rules)
    requires Ok(s, c.maxSeats) && Sized(t) && Live(s, ci) && 1 <= |body| <= 200 && body[0] == 12
    requires HandleDone(s, t, ci, body, o, c) && o.D == {}
    ensures Added(s, t, ci) == [1, 13] && forall i: nat :: i < MAX_CLIENTS && i != ci ==> Stream(t, i) == Stream(s, i)
  {
    hide Stream, Told, Added, Lost, Quiet, Linked, Named, Bounded, Sound, ViewOf;
    PongSays();
    var to := [ci];
    ToldAdded(s, t, to, [1, 13]);
    assert to[0] == ci && ci in to && forall i: nat :: i in to ==> i == ci;
  }

  /** A JOIN that may join, nobody lost: the joiner is the last member of the
      target's room, which was the target's alone when it had none; the match has
      started if and only if the automatic start is on and the room that large. */
  lemma JoinMeans(s: Snap, t: Snap, ci: nat, payload: seq<byte>, o: Outcome, c: Rules, target: nat)
    requires Ok(s, c.maxSeats) && Ok(t, c.maxSeats) && t.leaving == {} && Live(s, ci)
    requires JoinDone(s, t, ci, payload, o.D, o.E, o.r, c.maxSeats, c.autoGo) && o.D == {} && o.E == {}
    requires s.clients[ci].name != [] && s.clients[ci].room == -1
    requires MayJoin(s, ci, RStrip(payload), target, c.maxSeats)
    ensures o.r < MAX_ROOMS && t.clients[ci].room == o.r
    ensures target < MAX_CLIENTS && (s.clients[target].room != -1 ==> s.clients[target].room == o.r)
    ensures t.rooms[o.r].members == (if s.clients[target].room == -1 then [target] else s.rooms[o.r].members) + [ci]
    ensures t.rooms[o.r].started <==> c.autoGo > 0 && |t.rooms[o.r].members| >= c.autoGo
  {
    hide MayJoin, Wanted, RStrip, Linked, Named, Bounded, Fall, Joinable;
    WantedSays(s, ci, RStrip(payload), c.maxSeats);
    assert Wanted(s, ci, RStrip(payload), c.maxSeats) == Some(target);
    var m := Seats(s, target) + [ci];
    var v := Seated(ViewOf(s), o.r, Room(false, m));
    FallNobody(v);
    FallNobody(Seated(v, o.r, Room(true, m)));
    assert ViewOf(t).rooms[o.r] == RoomAt(t, o.r);
    assert m[|m| - 1] == ci;
    RoomMembers(t, o.r, c.maxSeats);
  }
}
