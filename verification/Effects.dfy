/** What the relay's frames carry, and what handling a frame does to its tables
    and to what each connection is sent. */
module Effects {
  import opened Words
  import opened Lobby
  import opened RelayState
  import Framing

  const T_HELLO: byte := 1
  const T_LIST: byte := 2
  const T_LOBBY: byte := 3
  const T_JOIN: byte := 4
  const T_START: byte := 5
  const T_INPUT: byte := 6
  const T_CRC: byte := 7
  const T_STATE: byte := 8
  const T_RESYNC: byte := 9
  const T_BYE: byte := 10
  const T_PEER_LEFT: byte := 11
  const T_PING: byte := 12
  const T_PONG: byte := 13
  const T_ROOM: byte := 14
  const T_GO: byte := 15

  const ROSTER_SLOTS := 4
  const LOBBY_ENTRIES := 8

  const MAX_CONNECTIONS_PER_IP := 8

  /** The longest frame: a length byte and 200 more. */
  const LONGEST_FRAME := 201

  /** How many of the first k slots are in use from an address. */
  function FromAddress(clients: seq<Client>, ips: seq<nat>, ip: nat, k: nat): (n: nat)
    requires k <= |clients| == |ips|
    ensures n <= k
  {
    if k == 0 then 0
    else FromAddress(clients, ips, ip, k - 1) + if clients[k - 1].inUse && ips[k - 1] == ip then 1 else 0
  }

  /** frame_build. */
  function FrameOf(ftype: byte, payload: seq<byte>): (f: seq<byte>)
    requires |payload| <= 200
    ensures |f| == |payload| + 2
  {
    [|payload| + 1, ftype] + payload
  }

  /** A name in eight bytes, NUL-padded. */
  function PadName(name: Name): (r: seq<byte>)
    ensures |r| == 8
  {
    seq(8, i requires 0 <= i => if i < |name| then name[i] else 0)
  }

  /** Four padded names, unused slots NUL, whatever the room's capacity. */
  function Roster(clients: seq<Client>, members: seq<nat>, k: nat): (r: seq<byte>)
    requires k <= |members| <= ROSTER_SLOTS && forall m :: m in members ==> m < |clients|
    ensures |r| == 8 * k
  {
    if k == 0 then []
    else assert members[k - 1] in members; Roster(clients, members, k - 1) + PadName(clients[members[k - 1]].name)
  }

  function PaddedRoster(clients: seq<Client>, members: seq<nat>): (r: seq<byte>)
    requires |members| <= ROSTER_SLOTS && forall m :: m in members ==> m < |clients|
    ensures |r| == 32
  {
    Roster(clients, members, |members|) + seq(32 - 8 * |members|, i => 0)
  }

  /** The bytes a send list addresses to client i. */
  function Addressed(to: seq<nat>, data: seq<seq<byte>>, k: nat, i: nat): seq<byte>
    requires k <= |to| == |data|
  {
    if k == 0 then []
    else Addressed(to, data, k - 1, i) + if to[k - 1] == i then data[k - 1] else []
  }

  /** ROOM with count 0. */
  function Dissolution(): (f: seq<byte>)
    ensures |f| == 35
  {
    FrameOf(T_ROOM, [0] + seq(32, i => 0))
  }

  /** PEER_LEFT: who left, by seat and name. */
  function PeerLeft(seat: byte, name: Name): (f: seq<byte>)
    ensures |f| == 11
  {
    FrameOf(T_PEER_LEFT, [seat] + PadName(name))
  }

  function RoomFrame(clients: seq<Client>, members: seq<nat>): (f: seq<byte>)
    requires |members| <= ROSTER_SLOTS && forall m :: m in members ==> m < |clients|
    ensures |f| == 35
  {
    FrameOf(T_ROOM, [|members|] + PaddedRoster(clients, members))
  }

  /** Those told when client ci leaves its room, and what they are told: who
      left a started match; that a forming room is dissolved; or the room's new
      roster. */
  ghost function ToldOf(s: Snap, ci: nat): seq<nat>
    requires Sized(s) && Linked(s) && Live(s, ci)
  {
    var r := s.clients[ci].room;
    if r == -1 then [] else Unseat(s.rooms[r].members, SeatOf(s.rooms[r].members, ci))
  }

  ghost function Farewell(s: Snap, ci: nat, maxSeats: nat): seq<byte>
    requires Ok(s, maxSeats) && Live(s, ci)
  {
    var r := s.clients[ci].room;
    if r == -1 then []
    else
      Survivors(s, ci, maxSeats);
      var seat := SeatOf(s.rooms[r].members, ci);
      if s.rooms[r].started then PeerLeft(seat, s.clients[ci].name)
      else if seat == 0 || |ToldOf(s, ci)| < 2 then Dissolution()
      else RoomFrame(s.clients, ToldOf(s, ci))
  }

  /** The streams of s, each with what a send list addressed to it. */
  ghost predicate Told(s: Snap, t: Snap, to: seq<nat>, f: seq<byte>)
    requires Sized(s) && Sized(t)
  {
    forall i: nat :: i < MAX_CLIENTS ==> Stream(t, i) == Stream(s, i) + Addressed(to, Same(|to|, f), |to|, i)
  }

  /** When nobody but ci fell, exactly its room was told. */
  ghost predicate Notified(s: Snap, t: Snap, ci: nat, maxSeats: nat)
    requires Ok(s, maxSeats) && Live(s, ci) && Sized(t)
  {
    Told(s, t, ToldOf(s, ci), Farewell(s, ci, maxSeats))
  }

  /** The status byte: 1 when solo; otherwise the member count, with bit 7 when
      the room is started or full. */
  function Status(clients: seq<Client>, rooms: seq<RoomSlot>, i: nat, maxSeats: nat): byte
    requires i < |clients|
  {
    var r := clients[i].room;
    if !(0 <= r < |rooms|) then 1
    else
      var n := |rooms[r].members|;
      (if rooms[r].started || n >= maxSeats then 0x80 else 0) + (if n < 0x80 then n else 0)
  }

  /** The first k entries of a list, as the lobby shows them. */
  function Lines(clients: seq<Client>, rooms: seq<RoomSlot>, names: seq<Entry>, k: nat, maxSeats: nat): (r: seq<byte>)
    requires k <= |names|
    ensures |r| == 9 * k
  {
    if k == 0 then []
    else
      var e := names[k - 1];
      Lines(clients, rooms, names, k - 1, maxSeats)
      + if e.ci < |clients| then PadName(clients[e.ci].name) + [Status(clients, rooms, e.ci, maxSeats)]
        else seq(9, i => 0)
  }

  /** The LOBBY frame for client ci: everyone else in list order, eight at
      most. */
  ghost function Listing(s: Snap, ci: nat, maxSeats: nat): seq<byte>
    requires Sized(s)
  {
    var others := Without(s.byName, {ci});
    var n := if |others| < LOBBY_ENTRIES then |others| else LOBBY_ENTRIES;
    FrameOf(T_LOBBY, [n] + Lines(s.clients, s.rooms, others, n, maxSeats))
  }

  /** The same frame for everyone. */
  function Same(n: nat, f: seq<byte>): (r: seq<seq<byte>>)
    ensures |r| == n && forall i :: 0 <= i < n ==> r[i] == f
  {
    seq(n, i => f)
  }

  predicate NameChar(b: byte) {
    0x41 <= b <= 0x5A || 0x30 <= b <= 0x39
  }

  /** Trailing NULs and spaces removed. */
  function RStrip(s: seq<byte>): (r: seq<byte>)
    ensures r <= s && (r != [] ==> r[|r| - 1] != 0 && r[|r| - 1] != 0x20)
  {
    if s != [] && (s[|s| - 1] == 0 || s[|s| - 1] == 0x20) then RStrip(s[..|s| - 1]) else s
  }

  /** The name a HELLO asks for: protocol version 2, two to eight capitals and
      digits. */
  function HelloName(payload: seq<byte>): Option<Name> {
    if |payload| < 3 || payload[0] != 2 then None
    else
      var n := RStrip(payload[1..]);
      if 2 <= |n| <= 8 && forall i :: 0 <= i < |n| ==> NameChar(n[i]) then Some(n) else None
  }

  /** Another client holding a name. */
  function Holder(names: seq<Entry>, ci: nat, name: Name): Option<nat> {
    var r := Find(names, name);
    if r.Some? && names[r.value].ci != ci then Some(names[r.value].ci) else None
  }

  /** Another client holds a name and shares client ci's room. */
  ghost predicate Shares(s: Snap, ci: nat, name: Name)
    requires Sized(s)
  {
    var other := Holder(s.byName, ci, name);
    other.Some? && other.value < MAX_CLIENTS && ci in Mates(s, other.value)
  }

  /** Unread bytes are untouched, nobody comes alive, and who is gone is marked
      dead. */
  ghost predicate Onward(s: Snap, t: Snap)
    requires Sized(s) && Sized(t)
  {
    forall i: nat :: i < MAX_CLIENTS ==>
      && t.clients[i].rx == s.clients[i].rx
      && (Live(t, i) ==> Live(s, i)) && (Live(s, i) ==> Live(t, i) || t.clients[i].dead)
      && (s.clients[i].dead ==> t.clients[i].dead)
  }

  /** The outcome of a HELLO. */
  ghost predicate HelloDone(s: Snap, t: Snap, ci: nat, name: Option<Name>, D: set<nat>, E: set<nat>)
    requires Sized(s) && Sized(t) && Live(s, ci)
  {
    D <= LiveSet(s) && E <= LiveSet(s) &&
    if name.None? then ci in D && E == {} && ViewOf(t) == Fall(ViewOf(s), D)
    else
      var other := Holder(s.byName, ci, name.value);
      var w := Fall(ViewOf(s), D);
      && (other.None? ==> D == {})
      && (other.Some? ==> other.value < MAX_CLIENTS && other.value in D && D <= Mates(s, other.value))
      && (if ci in D then E == {} && ViewOf(t) == w
          else
            && ViewOf(t) == Fall(w.(names := Renamed(w.names, ci, s.clients[ci].name, name.value)), E)
            && t.clients[ci].name == name.value && (E == {} || ci in E))
  }

  /** The members client i's room has, or the founder's seat alone. */
  function Seats(s: Snap, i: nat): seq<nat>
    requires i < |s.clients|
  {
    var r := s.clients[i].room;
    if 0 <= r < |s.rooms| then s.rooms[r].members else [i]
  }

  /** Client i's room, if any, takes another member. */
  predicate Joinable(s: Snap, i: nat, maxSeats: nat)
    requires i < |s.clients|
  {
    var r := s.clients[i].room;
    0 <= r < |s.rooms| ==> !s.rooms[r].started && |s.rooms[r].members| < maxSeats
  }

  /** A name as strcmp reads it: up to its first NUL. */
  function CString(s: seq<byte>): (r: seq<byte>)
    ensures r <= s && 0 !in r && (r == s || s[|r|] == 0)
  {
    if s == [] || s[0] == 0 then [] else [s[0]] + CString(s[1..])
  }

  /** Whom a JOIN by name means, if it can be joined. */
  function Wanted(s: Snap, ci: nat, name: Name, maxSeats: nat): Option<nat> {
    var f := Find(s.byName, CString(name));
    if |name| > 8 || f.None? then None
    else
      var t := s.byName[f.value].ci;
      if t == ci || t >= |s.clients| || !Joinable(s, t, maxSeats) then None else Some(t)
  }

  /** The room a join lands in: the target's, or one that was free. */
  ghost predicate JoinedRoom(s: Snap, ci: nat, target: nat, r: nat)
    requires Sized(s) && target < MAX_CLIENTS
  {
    r < MAX_ROOMS && if s.clients[target].room == -1 then !s.rooms[r].used else s.clients[target].room == r
  }

  /** A room starts, and the sends of START take the clients E. */
  ghost predicate Started(s: Snap, t: Snap, r: nat, E: set<nat>)
    requires Sized(s) && Sized(t) && r < MAX_ROOMS
  {
    ViewOf(t) == Fall(Seated(ViewOf(s), r, Room(true, s.rooms[r].members)), E) && E <= LiveSet(s)
  }

  ghost predicate JoinDone(s: Snap, t: Snap, ci: nat, payload: seq<byte>, D: set<nat>, E: set<nat>, r: nat,
                           maxSeats: nat, autoGo: nat)
    requires Sized(s) && Sized(t) && Live(s, ci)
  {
    var want := Wanted(s, ci, RStrip(payload), maxSeats);
    D <= LiveSet(s) && E <= LiveSet(s) &&
    if s.clients[ci].name == [] then ci in D && E == {} && ViewOf(t) == Fall(ViewOf(s), D)
    else if s.clients[ci].room != -1 then t == s
    else if want.None? then (D == {} || ci in D) && E == {} && ViewOf(t) == Fall(ViewOf(s), D)
    else
      && want.value < MAX_CLIENTS && JoinedRoom(s, ci, want.value, r)
      && var v := Fall(Seated(ViewOf(s), r, Room(false, Seats(s, want.value) + [ci])), D);
         if autoGo > 0 && v.rooms[r].Some? && |v.rooms[r].value.members| >= autoGo then
           ViewOf(t) == Fall(Seated(v, r, Room(true, v.rooms[r].value.members)), E)
         else E == {} && ViewOf(t) == v
  }

  /** What a server runs under. */
  datatype Rules = Rules(maxSeats: nat, autoGo: nat, delay: byte)

  /** Whom a frame's handling took, before and after its change of the tables;
      the room joined; the seed drawn. */
  datatype Outcome = Outcome(D: set<nat>, E: set<nat>, r: nat, seed: word)

  /** A greeting as the streams tell it: the lobby to the client, on top of
      whatever the older holder's end told it. */
  ghost predicate Greeted(s: Snap, t: Snap, ci: nat, name: Option<Name>, D: set<nat>, E: set<nat>, maxSeats: nat)
    requires Ok(s, maxSeats) && Sized(t) && Live(s, ci)
  {
    && (name.None? && D == {ci} ==> Notified(s, t, ci, maxSeats))
    && (name.Some? && ci !in D && E == {} ==>
          var f := Listing(t, ci, maxSeats);
          && (D == {} ==> Told(s, t, [ci], f))
          && EndsWith(Stream(s, ci), Stream(t, ci), f))
  }

  /** A stream has grown, last by f. */
  predicate EndsWith(was: seq<byte>, now: seq<byte>, f: seq<byte>) {
    |was| + |f| <= |now| && was <= now[..|now| - |f|] && now[|now| - |f|..] == f
  }

  /** A join, or its refusal, as the streams tell it: the new roster to every
      member, then its START when the match starts; or the lobby to the
      joiner. */
  ghost predicate JoinTold(s: Snap, t: Snap, ci: nat, payload: seq<byte>, o: Outcome, c: Rules)
    requires Sized(s) && Sized(t) && Live(s, ci)
  {
    var want := Wanted(s, ci, RStrip(payload), c.maxSeats);
    o.D == {} && o.E == {} && s.clients[ci].name != [] && s.clients[ci].room == -1 ==>
      if want.None? then Told(s, t, [ci], Listing(s, ci, c.maxSeats))
      else
        && want.value < MAX_CLIENTS
        && var m := Seats(s, want.value) + [ci];
           && |m| <= ROSTER_SLOTS && (forall x :: x in m ==> x < MAX_CLIENTS)
           && forall i: nat :: i < MAX_CLIENTS ==>
                Stream(t, i) == Stream(s, i) + Addressed(m, Same(|m|, RoomFrame(s.clients, m)), |m|, i)
                                + Starting(s, m, o.seed, c, i)
  }

  /** What an automatic start sends client i. */
  ghost function Starting(s: Snap, m: seq<nat>, seed: word, c: Rules, i: nat): seq<byte>
    requires Sized(s) && |m| <= ROSTER_SLOTS && forall x :: x in m ==> x < MAX_CLIENTS
  {
    if c.autoGo > 0 && |m| >= c.autoGo then Addressed(m, StartFrames(s.clients, m, seed, c.delay), |m|, i) else []
  }

  /** Names, queues and sockets are the same. */
  ghost predicate SameWire(s: Snap, t: Snap)
    requires Sized(s) && Sized(t)
  {
    t.wire == s.wire && forall i :: 0 <= i < MAX_CLIENTS ==>
      t.clients[i].tx == s.clients[i].tx && t.clients[i].name == s.clients[i].name
  }

  /** START for one seat: seat, count, seed, delay, roster. */
  function StartFrame(clients: seq<Client>, m: seq<nat>, seat: nat, seed: word, delay: byte): seq<byte>
    requires |m| <= ROSTER_SLOTS && seat < |m| && forall x :: x in m ==> x < |clients|
  {
    FrameOf(T_START, [seat, |m|, Lo(seed), Hi(seed), delay] + PaddedRoster(clients, m))
  }

  function StartFrames(clients: seq<Client>, m: seq<nat>, seed: word, delay: byte): (r: seq<seq<byte>>)
    requires |m| <= ROSTER_SLOTS && forall x :: x in m ==> x < |clients|
    ensures |r| == |m| && forall k :: 0 <= k < |m| ==> r[k] == StartFrame(clients, m, k, seed, delay)
  {
    seq(|m|, k requires 0 <= k < |m| && |m| <= ROSTER_SLOTS && (forall x :: x in m ==> x < |clients|) =>
      StartFrame(clients, m, k, seed, delay))
  }

  /** Client ci can start its room. */
  ghost predicate MayStart(s: Snap, ci: nat, maxSeats: nat)
    requires Sized(s) && Live(s, ci)
  {
    var r := s.clients[ci].room;
    && 0 <= r < MAX_ROOMS && !s.rooms[r].started && s.rooms[r].members != [] && s.rooms[r].members[0] == ci
    && 2 <= |s.rooms[r].members| <= maxSeats
  }

  ghost predicate GoDone(s: Snap, t: Snap, ci: nat, E: set<nat>, maxSeats: nat)
    requires Sized(s) && Sized(t) && Live(s, ci)
  {
    if MayStart(s, ci, maxSeats) then Started(s, t, s.clients[ci].room, E) else t == s
  }

  /** A start as the streams tell it: each member the START of its seat. */
  ghost predicate GoTold(s: Snap, t: Snap, ci: nat, o: Outcome, c: Rules)
    requires Sized(s) && Sized(t) && Live(s, ci)
  {
    MayStart(s, ci, c.maxSeats) && o.E == {} ==>
      var m := s.rooms[s.clients[ci].room].members;
      && o.seed != 0 && |m| <= ROSTER_SLOTS && (forall x :: x in m ==> x < MAX_CLIENTS)
      && var fs := StartFrames(s.clients, m, o.seed, c.delay);
         forall i: nat :: i < MAX_CLIENTS ==> Stream(t, i) == Stream(s, i) + Addressed(m, fs, |m|, i)
  }

  /** A match frame's other receivers. */
  ghost function Others(s: Snap, ci: nat): seq<nat>
    requires Sized(s) && Linked(s) && Live(s, ci)
  {
    var r := s.clients[ci].room;
    if r != -1 && s.rooms[r].started then ToldOf(s, ci) else []
  }

  /** The whole parse is what was handled and then the parse of what is left. */
  predicate Continues(whole: Framing.Fed, handled: seq<seq<byte>>, left: Framing.Fed) {
    whole == Framing.Fed(handled + left.bodies, left.rest, left.bad)
  }

  /** Bytes that hold no complete frame and no bad length. */
  ghost predicate Unread(rx: seq<byte>) {
    Framing.Parse(rx) == Framing.Fed([], rx, false)
  }

  ghost predicate OthersRx(s: Snap, t: Snap, ci: nat)
    requires Sized(s) && Sized(t)
  {
    forall i :: 0 <= i < MAX_CLIENTS && i != ci ==> t.clients[i].rx == s.clients[i].rx
  }

  // ---- one frame handled -------------------------------------------------

  predicate MatchType(ftype: byte) {
    ftype == T_INPUT || ftype == T_CRC || ftype == T_STATE || ftype == T_RESYNC
  }

  /** The clients D were lost; when nobody was, exactly the listed clients were
      sent the frame and nothing else changed. */
  ghost predicate SentOut(s: Snap, t: Snap, D: set<nat>, to: seq<nat>, f: seq<byte>)
    requires Sized(s) && Sized(t)
  {
    Lost(s, t, D) && (D == {} ==> Quiet(s, t) && Told(s, t, to, f))
  }

  /** What handling a frame body does to the tables and the streams. */
  ghost predicate HandleDone(s: Snap, t: Snap, ci: nat, body: seq<byte>, o: Outcome, c: Rules)
    requires Ok(s, c.maxSeats) && Sized(t) && Live(s, ci) && 1 <= |body| <= 200
  {
    var payload := body[1..];
    if MatchType(body[0]) then SentOut(s, t, o.D, Others(s, ci), [|body|] + body)
    else if body[0] == T_HELLO then
      HelloDone(s, t, ci, HelloName(payload), o.D, o.E) && Greeted(s, t, ci, HelloName(payload), o.D, o.E, c.maxSeats)
    else if body[0] == T_LIST then SentOut(s, t, o.D, [ci], Listing(s, ci, c.maxSeats))
    else if body[0] == T_JOIN then
      JoinDone(s, t, ci, payload, o.D, o.E, o.r, c.maxSeats, c.autoGo) && JoinTold(s, t, ci, payload, o, c)
    else if body[0] == T_GO then GoDone(s, t, ci, o.E, c.maxSeats) && GoTold(s, t, ci, o, c)
    else if body[0] == T_PING then SentOut(s, t, o.D, [ci], FrameOf(T_PONG, []))
    else Dropped(s, t, ci, o.D, c.maxSeats)
  }

  /** A client was dropped, with the clients D in all. */
  ghost predicate Dropped(s: Snap, t: Snap, ci: nat, D: set<nat>, maxSeats: nat) {
    && Ok(s, maxSeats) && Sized(t) && Live(s, ci)
    && Lost(s, t, D) && ci in D && (D == {ci} ==> Notified(s, t, ci, maxSeats))
  }

  // ---- a stretch of frames -----------------------------------------------

  datatype Handling = Handling(before: Snap, after: Snap, body: seq<byte>, outcome: Outcome)

  ghost predicate Served(h: Handling, ci: nat, c: Rules) {
    && Ok(h.before, c.maxSeats) && Sized(h.after) && Live(h.before, ci) && 1 <= |h.body| <= 200
    && HandleDone(h.before, h.after, ci, h.body, h.outcome, c) && Onward(h.before, h.after)
  }

  /** Only client ci's unread bytes differ. */
  ghost predicate Refilled(s: Snap, t: Snap, ci: nat) {
    && Sized(s) && Sized(t) && ci < MAX_CLIENTS
    && t == s.(clients := s.clients[ci := s.clients[ci].(rx := t.clients[ci].rx)])
  }

  /** Each handling starts where the one before ended. */
  ghost predicate Chained(s: Snap, log: seq<Handling>, t: Snap, ci: nat)
    decreases |log|
  {
    if log == [] then Refilled(s, t, ci)
    else
      var h := log[|log| - 1];
      Chained(s, log[..|log| - 1], h.before, ci) && Refilled(h.after, t, ci)
  }

  /** From s to t the bodies were handled, one after the other, and nothing else
      was done. */
  ghost predicate Journey(s: Snap, t: Snap, ci: nat, bodies: seq<seq<byte>>, log: seq<Handling>, c: Rules) {
    && |log| == |bodies|
    && (forall k :: 0 <= k < |log| ==> log[k].body == bodies[k] && Served(log[k], ci, c))
    && Chained(s, log, t, ci)
  }

  lemma JourneyStarts(s: Snap, ci: nat, c: Rules)
    requires Sized(s) && ci < MAX_CLIENTS
    ensures Journey(s, s, ci, [], [], c)
  {
  }

  lemma JourneyRefills(s: Snap, t: Snap, u: Snap, ci: nat, bodies: seq<seq<byte>>, log: seq<Handling>, c: Rules)
    requires Journey(s, t, ci, bodies, log, c) && Refilled(t, u, ci)
    ensures Journey(s, u, ci, bodies, log, c)
  {
    hide Served;
  }

  lemma JourneyGoes(s: Snap, ci: nat, bodies: seq<seq<byte>>, log: seq<Handling>, h: Handling, c: Rules)
    requires Journey(s, h.before, ci, bodies, log, c) && Served(h, ci, c)
    ensures Journey(s, h.after, ci, bodies + [h.body], log + [h], c)
  {
    hide Served, Refilled;
    var n := |log|;
    assert (log + [h])[..n] == log && (log + [h])[n] == h;
    ServedSized(h, ci, c);
    RefillsNothing(h.after, ci);
  }

  lemma RefillsNothing(s: Snap, ci: nat)
    requires Sized(s) && ci < MAX_CLIENTS
    ensures Refilled(s, s, ci)
  {
  }

  lemma ServedSized(h: Handling, ci: nat, c: Rules)
    requires Served(h, ci, c)
    ensures Sized(h.after) && ci < MAX_CLIENTS
  {
  }

  /** A journey cut short by one. */
  lemma JourneyBefore(s: Snap, t: Snap, ci: nat, bodies: seq<seq<byte>>, log: seq<Handling>, c: Rules)
    requires Journey(s, t, ci, bodies, log, c) && log != []
    ensures var n := |log| - 1;
            && |bodies| == |log| && Journey(s, log[n].before, ci, bodies[..n], log[..n], c)
            && Served(log[n], ci, c) && log[n].body == bodies[n] && Refilled(log[n].after, t, ci)
  {
    hide Served;
  }

  // ---- what a stretch of match frames sends ------------------------------

  /** The bytes the relay queues for the other members. */
  function Forwarded(bodies: seq<seq<byte>>): seq<byte> {
    if bodies == [] then [] else [|bodies[0]| % 0x100] + bodies[0] + Forwarded(bodies[1..])
  }

  lemma {:induction false} ForwardedAppend(a: seq<seq<byte>>, b: seq<seq<byte>>)
    ensures Forwarded(a + b) == Forwarded(a) + Forwarded(b)
    decreases |a|
  {
    if a == [] {
      assert a + b == b;
    } else {
      assert (a + b)[0] == a[0] && (a + b)[1..] == a[1..] + b;
      ForwardedAppend(a[1..], b);
    }
  }

  lemma ForwardedOne(body: seq<byte>)
    requires |body| <= 200
    ensures Forwarded([body]) == [|body|] + body
  {
    assert [body][1..] == [];
  }

  predicate AllMatch(bodies: seq<seq<byte>>) {
    forall k :: 0 <= k < |bodies| ==> bodies[k] != [] && MatchType(bodies[k][0])
  }

  lemma {:induction false} NotAddressed(to: seq<nat>, data: seq<seq<byte>>, k: nat, i: nat)
    requires k <= |to| == |data| && i !in to
    ensures Addressed(to, data, k, i) == []
    decreases k
  {
    if k > 0 {
      NotAddressed(to, data, k - 1, i);
    }
  }

  lemma {:induction false} AddressedOnce(to: seq<nat>, f: seq<byte>, k: nat, i: nat)
    requires Distinct(to) && k <= |to|
    ensures Addressed(to, Same(|to|, f), k, i) == if i in to[..k] then f else []
    decreases k
  {
    hide Same, Distinct;
    if k > 0 {
      AddressedOnce(to, f, k - 1, i);
      NotTwice(to, k - 1);
      assert to[..k] == to[..k - 1] + [to[k - 1]];
    }
  }

  lemma NotTwice(to: seq<nat>, k: nat)
    requires Distinct(to) && k < |to|
    ensures to[k] !in to[..k]
  {
  }

  /** Each listed client is sent the frame, once. */
  lemma ToldEach(s: Snap, t: Snap, to: seq<nat>, f: seq<byte>)
    requires Sized(s) && Sized(t) && Distinct(to) && Told(s, t, to, f)
    ensures forall i: nat :: i < MAX_CLIENTS ==> Stream(t, i) == Stream(s, i) + if i in to then f else []
  {
    forall i: nat | i < MAX_CLIENTS ensures Stream(t, i) == Stream(s, i) + if i in to then f else [] {
      AddressedOnce(to, f, |to|, i);
      assert to[..|to|] == to;
    }
    hide Stream, Addressed;
  }

  lemma OthersDistinct(s: Snap, ci: nat, maxSeats: nat)
    requires Ok(s, maxSeats) && Live(s, ci)
    ensures Distinct(Others(s, ci))
  {
    var r := s.clients[ci].room;
    if r != -1 && s.rooms[r].started {
      RoomMembers(s, r, maxSeats);
      var m := s.rooms[r].members;
      UnseatIsKeep(m, SeatOf(m, ci));
      KeepDistinct(m, {ci});
    }
  }

  /** Neither queues nor unread bytes count for who is in a room. */
  ghost predicate SameTables(s: Snap, t: Snap)
    requires Sized(s) && Sized(t)
  {
    && t.rooms == s.rooms && t.byName == s.byName && t.leaving == s.leaving && t.dying == s.dying
    && forall i :: 0 <= i < MAX_CLIENTS ==>
         t.clients[i] == s.clients[i].(tx := t.clients[i].tx, rx := t.clients[i].rx)
  }

  lemma SameOthers(s: Snap, t: Snap, ci: nat)
    requires Sized(s) && Sized(t) && SameTables(s, t) && Linked(s) && Linked(t) && Live(s, ci)
    ensures Live(t, ci) && Others(t, ci) == Others(s, ci)
  {
  }

  lemma NobodyFell(s: Snap, t: Snap, D: set<nat>)
    requires Lost(s, t, D) && LiveSet(t) == LiveSet(s)
    ensures D == {}
  {
    assert ViewOf(t).live == LiveSet(s) - D;
    assert D == D * LiveSet(s) == D * LiveSet(t) == {};
  }

  lemma OnwardFewer(s: Snap, t: Snap)
    requires Sized(s) && Sized(t) && Onward(s, t)
    ensures LiveSet(t) <= LiveSet(s)
  {
  }

  lemma RefilledSame(s: Snap, t: Snap, ci: nat)
    requires Refilled(s, t, ci)
    ensures SameTables(s, t) && LiveSet(t) == LiveSet(s)
    ensures forall i: nat :: i < MAX_CLIENTS ==> Stream(t, i) == Stream(s, i)
  {
  }

  /** One match frame, nobody lost. */
  lemma ServedForwards(h: Handling, ci: nat, c: Rules)
    requires Served(h, ci, c) && MatchType(h.body[0]) && LiveSet(h.after) == LiveSet(h.before)
    ensures Sized(h.before) && Sized(h.after) && SameTables(h.before, h.after)
    ensures forall i: nat :: i < MAX_CLIENTS ==>
              Stream(h.after, i) == Stream(h.before, i) + if i in Others(h.before, ci) then Forwarded([h.body]) else []
  {
    NobodyFell(h.before, h.after, h.outcome.D);
    OthersDistinct(h.before, ci, c.maxSeats);
    ForwardedOne(h.body);
    ToldEach(h.before, h.after, Others(h.before, ci), [|h.body|] + h.body);
    hide Linked, Named, Sound, ViewOf, Fall, Told, Stream, Others, Distinct, Forwarded, LiveSet, Lost;
  }

  /** As long as nobody is lost, a stretch of match frames reaches every other
      member of the sender's room verbatim, in order, and nobody else. */
  lemma {:induction false} JourneyForwards(s: Snap, t: Snap, ci: nat, bodies: seq<seq<byte>>, log: seq<Handling>, c: Rules)
    requires Journey(s, t, ci, bodies, log, c) && AllMatch(bodies) && LiveSet(t) == LiveSet(s)
    requires Ok(s, c.maxSeats) && Live(s, ci)
    ensures SameTables(s, t)
    ensures forall i: nat :: i < MAX_CLIENTS ==>
              Stream(t, i) == Stream(s, i) + if i in Others(s, ci) then Forwarded(bodies) else []
    decreases |log|
  {
    hide Served, Others, Stream, Forwarded, Refilled, LiveSet, Journey, Ok;
    if log == [] {
      JourneyNone(s, t, ci, bodies, log, c);
    } else {
      var n := |log| - 1;
      var h := log[n];
      JourneyBefore(s, t, ci, bodies, log, c);
      JourneyFewer(s, h.before, ci, bodies[..n], log[..n], c);
      ServedFewer(h, ci, c);
      RefilledSame(h.after, t, ci);
      JourneyForwards(s, h.before, ci, bodies[..n], log[..n], c);
      ServedForwards(h, ci, c);
      ServedLinked(s, h, ci, c);
      SameOthers(s, h.before, ci);
      ForwardedAppend(bodies[..n], [h.body]);
      assert bodies == bodies[..n] + [h.body];
    }
  }

  lemma JourneyNone(s: Snap, t: Snap, ci: nat, bodies: seq<seq<byte>>, log: seq<Handling>, c: Rules)
    requires Journey(s, t, ci, bodies, log, c) && log == []
    ensures bodies == [] && Forwarded(bodies) == [] && Refilled(s, t, ci) && SameTables(s, t)
    ensures forall i: nat :: i < MAX_CLIENTS ==> Stream(t, i) == Stream(s, i)
  {
    RefilledSame(s, t, ci);
  }

  lemma ServedLinked(s: Snap, h: Handling, ci: nat, c: Rules)
    requires Served(h, ci, c) && Ok(s, c.maxSeats) && Live(s, ci)
    ensures Sized(s) && Linked(s) && Sized(h.before) && Linked(h.before) && Live(h.before, ci)
  {
  }

  lemma ServedFewer(h: Handling, ci: nat, c: Rules)
    requires Served(h, ci, c)
    ensures LiveSet(h.after) <= LiveSet(h.before)
  {
    OnwardFewer(h.before, h.after);
  }

  lemma {:induction false} JourneyFewer(s: Snap, t: Snap, ci: nat, bodies: seq<seq<byte>>, log: seq<Handling>, c: Rules)
    requires Journey(s, t, ci, bodies, log, c)
    ensures Sized(s) && Sized(t) && LiveSet(t) <= LiveSet(s)
    decreases |log|
  {
    hide Served, LiveSet, Journey, Refilled;
    if log == [] {
      JourneyNone(s, t, ci, bodies, log, c);
      RefilledSized(s, t, ci);
      RefilledSame(s, t, ci);
    } else {
      var n := |log| - 1;
      JourneyBefore(s, t, ci, bodies, log, c);
      JourneyFewer(s, log[n].before, ci, bodies[..n], log[..n], c);
      ServedFewer(log[n], ci, c);
      RefilledSized(log[n].after, t, ci);
      RefilledSame(log[n].after, t, ci);
    }
  }

  lemma RefilledSized(s: Snap, t: Snap, ci: nat)
    requires Refilled(s, t, ci)
    ensures Sized(s) && Sized(t) && ci < MAX_CLIENTS
  {
  }
}
