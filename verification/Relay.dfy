/** The relay server: connections, rooms and names in fixed tables, where any
    send may fail and drop its receiver in the middle of whatever was being
    announced. */
module Relay {
  import opened Words
  import opened Lobby
  import opened RelayState
  import opened Effects
  import opened Aftermath
  import opened Wording
  import Framing
  import Frames

  class Server {
    var clients: seq<Client>
    var rooms: seq<RoomSlot>
    var byName: seq<Entry>
    var wire: seq<seq<byte>>
    var net: seq<int>             // outcomes of the send calls to come
    var seeds: seq<word>          // draws of the seed generator to come
    ghost var leaving: set<nat>
    ghost var dying: set<nat>
    const ips: array<nat>         // the address each slot was last taken from
    const maxSeats: nat
    const autoGo: nat
    const delay: byte

    ghost function Snapshot(): Snap
      reads this
    {
      Snap(clients, rooms, byName, wire, leaving, dying)
    }

    ghost predicate Valid()
      reads this
    {
      Ok(Snapshot(), maxSeats) && autoGo <= maxSeats
    }

    ghost function Terms(): Rules {
      Rules(maxSeats, autoGo, delay)
    }

    /** Live clients, the measure every cascade consumes. */
    ghost function Alive(): nat
      reads this
    {
      |LiveSet(Snapshot())|
    }

    /** The next n sends all fail. */
    ghost predicate Failing(n: int)
      reads this`net
    {
      |net| >= n && forall i :: 0 <= i < |net| ==> net[i] == -2
    }

    /** No send to come fails: each would block or takes something. */
    ghost predicate Healthy()
      reads this`net
    {
      forall i :: 0 <= i < |net| ==> net[i] == -1 || net[i] >= 1
    }

    /** ... and no queue is near its end: a frame more fits in each. */
    ghost predicate Easy()
      reads this`net, this`clients
    {
      Healthy() && forall i :: 0 <= i < |clients| ==> |clients[i].tx| + LONGEST_FRAME <= TX_CAP
    }

    /** send(2) on len bytes: would block (-1), fails (-2), or takes k bytes. */
    method Transmit(len: nat) returns (k: int)
      requires len > 0
      modifies this`net
      ensures -2 <= k <= len
      ensures forall n :: 0 < n && old(Failing(n)) ==> k == -2 && Failing(n - 1)
      ensures old(Healthy()) ==> Healthy() && (k == -1 || k >= 1)
      ensures if old(net) == [] then k == -1 && net == []
              else net == old(net)[1..] && (old(net[0]) <= len ==> k == if old(net[0]) < -2 then -2 else old(net[0]))
                   && (old(net[0]) > len ==> k == len)
    {
      k := -1;
      if net != [] {
        k := if net[0] > len then len else if net[0] < -2 then -2 else net[0];
        net := net[1..];
      }
    }

    /** Write out as much of a client's queue as its socket takes. */
    method Flush(ci: nat) returns (ghost D: set<nat>)
      requires Valid() && Live(Snapshot(), ci)
      modifies this
      decreases Alive(), 1
      ensures Valid() && Fell(old(Snapshot()), Snapshot(), D) && (D == {} || ci in D)
      ensures D <= Mates(old(Snapshot()), ci)
      ensures D == {} ==>
                && Quiet(old(Snapshot()), Snapshot())
                && (forall i :: 0 <= i < MAX_CLIENTS ==> Stream(Snapshot(), i) == Stream(old(Snapshot()), i))
      ensures old(Failing(Alive())) && old(clients[ci].tx) != [] ==> ci in D && Failing(Alive())
      ensures old(Healthy()) ==> D == {} && Healthy()
      ensures D == {} ==>
                && Alone(old(Snapshot()), Snapshot(), ci)
                && Flushed(old(net), net, clients[ci].tx, |wire[ci]| - |old(wire[ci])|)
    {
      hide Linked, Named, Sound, ViewOf, Fall, Lost, Grown, Bounded, Mates, Flushed, Alone, Taking, Healthy, Failing;
      hide LiveSet, Stream, Quiet, Fell;
      ghost var before := Snapshot();
      D := {};
      FellNobody(before);
      Untouched(before, ci, net);
      while clients[ci].tx != []
        invariant Valid() && Live(Snapshot(), ci) && Fell(before, Snapshot(), {}) && Quiet(before, Snapshot())
        invariant forall i :: 0 <= i < MAX_CLIENTS ==> Stream(Snapshot(), i) == Stream(before, i)
        invariant LiveSet(Snapshot()) == LiveSet(before)
        invariant old(Failing(Alive())) && old(clients[ci].tx) != [] ==> Failing(Alive()) && clients[ci].tx != []
        invariant (old(Healthy()) ==> Healthy()) && Alone(before, Snapshot(), ci)
        invariant Taking(old(net), net, clients[ci].tx, |wire[ci]| - |before.wire[ci]|)
        decreases |clients[ci].tx|
      {
        LiveCounts(Snapshot(), ci);
        ghost var fails, queue, ahead := Failing(Alive()), clients[ci].tx, net;
        var k := Transmit(|clients[ci].tx|);
        assert fails ==> k == -2;
        if k == -1 {
          Blocked(old(net), ahead, net, queue, |wire[ci]| - |before.wire[ci]|);
          return;
        }
        ghost var s := Snapshot();
        if k == -2 || k == 0 {
          QuietMates(before, s, ci);
          D := Drop(ci);
          FellTwice(before, s, Snapshot(), {}, D);
          assert {} + D == D;
          return;
        }
        TookBytes(s, ci, k, maxSeats);
        TookAlone(before, s, ci, k);
        QuietOn(before, s, ci, k);
        wire := wire[ci := wire[ci] + clients[ci].tx[..k]];
        clients := clients[ci := clients[ci].(tx := clients[ci].tx[k..])];
        FellTwice(before, s, Snapshot(), {}, {});
        assert {} + {} == D;
        TakeOn(old(net), ahead, net, queue, |s.wire[ci]| - |before.wire[ci]|, k);
      }
      Emptied(old(net), net, |wire[ci]| - |before.wire[ci]|);
    }

    /** Queue bytes for a client and flush; a full queue drops it. */
    method SendRaw(ci: nat, data: seq<byte>) returns (ghost D: set<nat>)
      requires Valid() && ci < MAX_CLIENTS && (Live(Snapshot(), ci) || clients[ci].dead)
      modifies this
      decreases Alive(), 2
      ensures Valid() && Fell(old(Snapshot()), Snapshot(), D) && (D == {} || ci in D)
      ensures D <= Mates(old(Snapshot()), ci)
      ensures !old(Live(Snapshot(), ci)) ==> D == {}
      ensures D == {} ==>
                && Quiet(old(Snapshot()), Snapshot())
                && (forall i :: 0 <= i < MAX_CLIENTS ==>
                      Stream(Snapshot(), i)
                      == Stream(old(Snapshot()), i) + if i == ci && old(Live(Snapshot(), ci)) then data else [])
      ensures old(Failing(Alive())) && data != [] ==> Failing(Alive()) && (old(Live(Snapshot(), ci)) ==> ci in D)
      ensures old(Live(Snapshot(), ci)) && |old(clients[ci].tx)| + |data| > TX_CAP ==> ci in D
      ensures old(Healthy()) && |old(clients[ci].tx)| + |data| <= TX_CAP ==> D == {} && Healthy()
      ensures D == {} ==> Alone(old(Snapshot()), Snapshot(), ci)
    {
      hide Linked, Named, Sound, ViewOf, Fall, Lost, Grown, Mates, Flushed;
      ghost var before := Snapshot();
      FellNobody(before);
      D := {};
      if clients[ci].dead {
        return;
      }
      if |clients[ci].tx| + |data| > TX_CAP {
        D := Drop(ci);
        return;
      }
      Queued(before, ci, data, maxSeats);
      clients := clients[ci := clients[ci].(tx := clients[ci].tx + data)];
      ghost var s := Snapshot();
      QuietMates(before, s, ci);
      D := Flush(ci);
      FellTwice(before, s, Snapshot(), {}, D);
      assert {} + D == D;
    }

    /** Send each listed client its frame, whatever happens on the way. */
    method SendEach(to: seq<nat>, data: seq<seq<byte>>) returns (ghost D: set<nat>)
      requires Valid() && |to| == |data| && forall m :: m in to ==> Live(Snapshot(), m)
      modifies this
      decreases Alive(), 3
      ensures Valid() && Fell(old(Snapshot()), Snapshot(), D) && (to == [] ==> D == {})
      ensures D <= MatesOfAll(old(Snapshot()), to, |to|)
      ensures D == {} ==>
                && Quiet(old(Snapshot()), Snapshot())
                && (forall i :: 0 <= i < MAX_CLIENTS ==>
                      Stream(Snapshot(), i) == Stream(old(Snapshot()), i) + Addressed(to, data, |to|, i))
      ensures old(Failing(Alive())) && (forall f :: f in data ==> f != []) ==>
                Failing(Alive()) && forall m :: m in to ==> m in D
      ensures old(Easy()) && Distinct(to) && (forall f :: f in data ==> |f| <= LONGEST_FRAME) ==> D == {} && Healthy()
      ensures to == [] && old(Easy()) ==> Easy()
    {
      hide Linked, Named, Sound, ViewOf, Fall, Lost, Fell, Grown, Bounded, Stream, Mates, MatesOfAll, Quiet, Addressed;
      hide Spared, Alone, Distinct, Healthy, Failing, Sending, LiveSet;
      ghost var before := Snapshot();
      D := {};
      SendStarts(before, to, data);
      SparedAll(before, to);
      var k := 0;
      while k < |to|
        invariant 0 <= k <= |to| && Valid() && Sending(before, Snapshot(), to, data, k, D) && (to == [] ==> D == {})
        invariant old(Failing(Alive())) && (forall f :: f in data ==> f != []) ==>
                    Failing(Alive()) && forall j :: 0 <= j < k ==> to[j] in D
        invariant old(Easy()) && Distinct(to) && (forall f :: f in data ==> |f| <= LONGEST_FRAME) ==>
                    D == {} && Healthy() && Spared(before, Snapshot(), to, k)
        invariant to == [] && old(Easy()) ==> Easy()
      {
        ghost var s := Snapshot();
        SendKnown(before, s, to, data, k, D);
        assert data[k] in data;
        SparedNext(before, s, to, k);
        ghost var E := SendRaw(to[k], data[k]);
        SparedOn(before, s, Snapshot(), to, k);
        SendOn(before, s, Snapshot(), to, data, k, D, E, maxSeats);
        D := D + E;
        k := k + 1;
      }
      SendEnds(before, Snapshot(), to, data, D);
    }

    /** Strike every entry of a client from the name list. */
    method StrikeNames(ci: nat)
      modifies this`byName
      ensures byName == Without(old(byName), {ci})
    {
      var i := |byName|;
      assert byName[i..] == [];
      while i > 0
        invariant 0 <= i <= |byName| && i <= |old(byName)|
        invariant byName[..i] == old(byName)[..i] && byName[i..] == Without(old(byName)[i..], {ci})
      {
        i := i - 1;
        ghost var names := byName;
        assert old(byName)[i] == names[..i + 1][i] == names[i];
        assert old(byName)[i..] == [names[i]] + old(byName)[i + 1..];
        if byName[i].ci == ci {
          byName := byName[..i] + byName[i + 1..];
          assert byName[i..] == names[i + 1..];
        } else {
          assert byName[i..] == [names[i]] + names[i + 1..];
        }
        assert byName[..i] == names[..i] == old(byName)[..i];
      }
      assert byName == byName[0..] && old(byName) == old(byName)[0..];
    }

    /** The seat of a member. */
    method RoomSeat(members: seq<nat>, ci: nat) returns (seat: nat)
      requires ci in members
      ensures seat == SeatOf(members, ci)
    {
      seat := 0;
      while members[seat] != ci
        invariant 0 <= seat < |members| && ci in members[seat..]
        invariant SeatOf(members, ci) == seat + SeatOf(members[seat..], ci)
        decreases |members| - seat
      {
        assert members[seat..][1..] == members[seat + 1..];
        seat := seat + 1;
      }
    }

    /** Send a room's members home: the first loop of dissolve. */
    method SendHome(members: seq<nat>)
      requires forall m :: m in members ==> m < |clients|
      modifies this`clients
      ensures clients == Solo(old(clients), members, |members|)
      ensures old(Easy()) ==> Easy()
    {
      hide Healthy;
      var k := 0;
      while k < |members|
        invariant 0 <= k <= |members| && |clients| == |old(clients)|
        invariant clients == Solo(old(clients), members, k) && (old(Easy()) ==> Easy())
      {
        assert members[k] in members;
        clients := clients[members[k] := clients[members[k]].(room := -1)];
        k := k + 1;
      }
    }

    /** Return every member to solo and tell those to be notified. */
    method Dissolve(ri: nat, notify: seq<nat>) returns (ghost D: set<nat>)
      requires Sized(Snapshot()) && ri < MAX_ROOMS && (forall m :: m in rooms[ri].members ==> m < MAX_CLIENTS)
      requires Ok(HomeSent(Snapshot(), ri), maxSeats) && autoGo <= maxSeats && ri !in leaving
      requires forall m :: m in notify ==> Live(Snapshot(), m)
      modifies this
      decreases Alive(), 4
      ensures Valid() && Lost(old(HomeSent(Snapshot(), ri)), Snapshot(), D) && (notify == [] ==> D == {})
      ensures leaving == old(leaving) && dying == old(dying)
      ensures forall m :: m in notify ==> m < MAX_CLIENTS
      ensures D <= MatesOfAll(old(HomeSent(Snapshot(), ri)), notify, |notify|)
      ensures D == {} ==> Told(old(Snapshot()), Snapshot(), notify, Dissolution())
      ensures old(Failing(Alive())) ==> Failing(Alive()) && forall m :: m in notify ==> m in D
      ensures old(Easy()) && Distinct(notify) ==> D == {}
      ensures notify == [] && old(Easy()) ==> Easy()
    {
      hide Linked, Named, Sound, ViewOf, Fall, Grown, Bounded, Stream, Mates, MatesOfAll, FrameOf, Dissolution;
      hide Easy, Distinct;
      hide Failing, Addressed, Solo, Quiet, Lost, Told, LiveSet;
      ghost var before := Snapshot();
      HomeSentLive(before, ri);
      SendHome(rooms[ri].members);
      leaving := leaving + {ri};
      ghost var home := Snapshot();
      assert home == HomeSent(before, ri);
      assert forall m :: m in notify ==> Live(home, m);
      D := SendEach(notify, Same(|notify|, Dissolution()));
      ghost var s := Snapshot();
      RoomFreed(before, home, s, ri, notify, D, maxSeats);
      rooms := rooms[ri := RoomSlot(false, rooms[ri].started, [])];
      leaving := leaving - {ri};
    }

    /** Announce a room's roster to its members. */
    method RoomBroadcast(ri: nat) returns (ghost D: set<nat>)
      requires Valid() && ri < MAX_ROOMS && RoomAt(Snapshot(), ri).Some?
      modifies this
      decreases Alive(), 4
      ensures Valid() && Fell(old(Snapshot()), Snapshot(), D)
      ensures |old(rooms[ri].members)| <= ROSTER_SLOTS && forall m :: m in old(rooms[ri].members) ==> m < MAX_CLIENTS
      ensures D <= MatesOfAll(old(Snapshot()), old(rooms[ri].members), |old(rooms[ri].members)|)
      ensures D == {} ==>
                && Quiet(old(Snapshot()), Snapshot())
                && Told(old(Snapshot()), Snapshot(), old(rooms[ri].members), RoomFrame(old(clients), old(rooms[ri].members)))
                && RosterSent(old(Snapshot()), Snapshot(), old(rooms[ri].members))
      ensures old(Easy()) ==> D == {}
      ensures old(Failing(Alive())) ==> Failing(Alive()) && forall m :: m in old(rooms[ri].members) ==> m in D
    {
      hide Linked, Named, Sound, ViewOf, Fall, Lost, Grown, Bounded, Stream, Mates, MatesOfAll, Addressed, RoomFrame;
      hide RosterSent;
      RoomMembers(Snapshot(), ri, maxSeats);
      var m := rooms[ri].members;
      ghost var before := Snapshot();
      var f := RoomFrame(clients, m);
      D := SendEach(m, Same(|m|, f));
      if D == {} {
        RosterSays(before, Snapshot(), m);
      }
    }

    /** A started room ends: dissolve it, then tell everyone who left. */
    method EndMatch(ri: nat, survivors: seq<nat>, notice: seq<byte>) returns (ghost E: set<nat>)
      requires Sized(Snapshot()) && ri < MAX_ROOMS && (forall m :: m in rooms[ri].members ==> m < MAX_CLIENTS)
      requires Ok(HomeSent(Snapshot(), ri), maxSeats) && autoGo <= maxSeats && ri !in leaving
      requires forall m :: m in survivors ==> Live(Snapshot(), m)
      modifies this
      decreases Alive(), 5
      ensures Valid() && Lost(old(HomeSent(Snapshot(), ri)), Snapshot(), E)
      ensures leaving == old(leaving) && dying == old(dying)
      ensures forall m :: m in survivors ==> m < MAX_CLIENTS
      ensures E <= MatesOfAll(old(HomeSent(Snapshot(), ri)), survivors, |survivors|)
      ensures E == {} ==> Told(old(Snapshot()), Snapshot(), survivors, notice)
      ensures old(Failing(Alive())) && notice != [] ==> Failing(Alive()) && forall m :: m in survivors ==> m in E
      ensures old(Easy()) && Distinct(survivors) && |notice| <= LONGEST_FRAME ==> E == {}
    {
      hide Linked, Named, Sound, ViewOf, Fall, Lost, Grown, Bounded, Stream, Easy, Healthy, Distinct;
      ghost var home := HomeSent(Snapshot(), ri);
      HomeSentLive(Snapshot(), ri);
      E := Dissolve(ri, []);
      NobodyLost(home, Snapshot());
      ghost var s := Snapshot();
      LostNobodyMates(home, s, survivors, |survivors|, maxSeats);
      ToldNobody(old(Snapshot()), s, Dissolution());
      E := SendEach(survivors, Same(|survivors|, notice));
      LostTwice(home, s, Snapshot(), {}, E);
      assert {} + E == E;
    }

    /** The room half of drop. */
    method LeaveRoom(ci: nat, ri: nat, name: Name, ghost before: Snap) returns (ghost E: set<nat>)
      requires Ok(before, maxSeats) && autoGo <= maxSeats && Live(before, ci) && before.clients[ci].room == ri
      requires ri < MAX_ROOMS && ci in before.rooms[ri].members && ri !in before.leaving
      requires Snapshot() == Unlinked(before, ci).(rooms := before.rooms) && name == before.clients[ci].name
      modifies this
      decreases Alive(), 6
      ensures Valid() && Lost(Detached(before, ci), Snapshot(), E)
      ensures leaving == before.leaving && dying == before.dying + {ci}
      ensures E <= Mates(before, ci)
      ensures E == {} ==> Notified(before, Snapshot(), ci, maxSeats)
      ensures old(Failing(Alive())) ==> Failing(Alive()) && forall m :: m in ToldOf(before, ci) ==> m in E
      ensures old(Easy()) ==> E == {}
    {
      hide Linked, Named, Sound, ViewOf, Fall, Lost, Grown, Bounded, Stream, Told, Notified, Farewell;
      hide FrameOf, PeerLeft, Dissolution, RoomFrame, Mates, Healthy, Easy, Distinct;
      DetachedOk(before, ci, maxSeats);
      DetachedIs(before, ci);
      Survivors(before, ci, maxSeats);
      var r := rooms[ri];
      var seat := RoomSeat(r.members, ci);
      var rest := r.members[..seat] + r.members[seat + 1..];
      rooms := rooms[ri := r.(members := rest)];
      assert Snapshot() == Unlinked(before, ci);
      LeftBehind(before, ci, rest, maxSeats);
      RestDistinct(before, ci, maxSeats);
      if r.started {
        E := EndMatch(ri, rest, PeerLeft(seat, name));
      } else if seat == 0 {
        E := Dissolve(ri, rest);
      } else if |rest| < 2 {
        E := Dissolve(ri, rest);
      } else {
        E := RoomBroadcast(ri);
      }
      FarewellIs(before, Snapshot(), ci, rest, maxSeats);
    }

    /** Drop a client: the lobby is what is left without everyone the cascade
        took, and when nobody else fell, its room was told. */
    method Drop(ci: nat) returns (ghost D: set<nat>)
      requires Valid() && Live(Snapshot(), ci)
      modifies this
      decreases Alive(), 0
      ensures Valid() && Fell(old(Snapshot()), Snapshot(), D)
      ensures ci in D && D <= Mates(old(Snapshot()), ci)
      ensures After(old(Snapshot()), Snapshot(), D)
      ensures D == {ci} ==> Notified(old(Snapshot()), Snapshot(), ci, maxSeats) && GoneTold(old(Snapshot()), Snapshot(), ci)
      ensures old(Failing(Alive() - 1)) ==> Failing(Alive()) && forall m :: m in ToldOf(old(Snapshot()), ci) ==> m in D
      ensures old(Easy()) ==> D == {ci}
    {
      hide Healthy, Linked, Named, Sound, ViewOf, Fall, Lost, Fell, Grown, Bounded, Notified, LiveSet;
      hide ToldOf, Mates, After, GoneTold;
      ghost var before := Snapshot();
      NotDying(before, ci, maxSeats);
      DetachedOk(before, ci, maxSeats);
      DetachedIs(before, ci);
      OnlyMate(before, ci);
      var c := clients[ci];
      StrikeNames(ci);
      clients, dying := clients[ci := c.(dead := true, room := -1)], dying + {ci};
      OneFewer(before, Snapshot(), ci);
      ghost var E := {};
      if c.room != -1 {
        Survivors(before, ci, maxSeats);
        E := LeaveRoom(ci, c.room, c.name, before);
      } else {
        assert Snapshot() == Detached(before, ci);
        FellNobody(Snapshot());
        NobodyTold(before, Snapshot(), ci, maxSeats);
      }
      ghost var s := Snapshot();
      DyingDead(s, ci, maxSeats);
      Buried(before, s, ci, E, maxSeats);
      clients, dying := clients[ci := clients[ci].(inUse := false)], dying - {ci};
      SlotFreed(s, Snapshot(), ci);
      D := {ci} + E;
      DropSays(before, Snapshot(), ci, D, E, maxSeats);
    }

    // ---- handlers --------------------------------------------------------

    /** Between handlers no drop or dissolution is under way. */
    ghost predicate Settled()
      reads this
    {
      Valid() && leaving == {} && dying == {}
    }

    ghost function Lobby(): View
      reads this
    {
      ViewOf(Snapshot())
    }

    /** name_find: a name's position, or -1. */
    method NameFind(name: Name) returns (i: int)
      ensures Find(byName, name) == if i == -1 then None else Some(i)
      ensures -1 <= i < |byName|
    {
      i := 0;
      while i < |byName|
        invariant 0 <= i <= |byName|
        invariant forall j :: 0 <= j < i ==> byName[j].name != name
      {
        if byName[i].name == name {
          FirstFound(byName, name, i);
          return;
        }
        i := i + 1;
      }
      i := -1;
    }

    /** name_set: in place when the name is known, at the end otherwise. */
    method NameSet(name: Name, ci: nat)
      requires Find(byName, name).Some? || |byName| < MAX_CLIENTS
      modifies this`byName
      ensures byName == Put(old(byName), name, ci)
    {
      var i := NameFind(name);
      if i >= 0 {
        byName := byName[i := Entry(name, ci)];
      } else {
        byName := byName + [Entry(name, ci)];
      }
    }

    /** name_del_at: the rest close up. */
    method NameDelAt(i: nat)
      requires i < |byName|
      modifies this`byName
      ensures byName == Del(old(byName), i)
    {
      byName := byName[..i] + byName[i + 1..];
    }

    /** on_list: the first eight other names in order, each with its status. */
    method OnList(ci: nat) returns (ghost D: set<nat>)
      requires Settled() && Live(Snapshot(), ci)
      modifies this
      ensures Settled() && Fell(old(Snapshot()), Snapshot(), D) && (D == {} || ci in D)
      ensures D <= Mates(old(Snapshot()), ci)
      ensures D == {} ==> Quiet(old(Snapshot()), Snapshot())
      ensures D == {} ==> Told(old(Snapshot()), Snapshot(), [ci], Listing(old(Snapshot()), ci, maxSeats))
      ensures D == {} ==> LobbySent(old(Snapshot()), Snapshot(), ci, maxSeats)
      ensures old(Easy()) ==> D == {}
    {
      hide LobbySent;
      var f := BuildListing(ci);
      D := SendRaw(ci, f);
      if D == {} {
        ToldOne(old(Snapshot()), Snapshot(), ci, f);
        LobbySays(old(Snapshot()), Snapshot(), ci, maxSeats);
      }
    }

    method BuildListing(ci: nat) returns (f: seq<byte>)
      requires Settled() && Live(Snapshot(), ci)
      ensures f == Listing(Snapshot(), ci, maxSeats)
    {
      forall j | 0 <= j < |byName| ensures byName[j].ci < |clients| && clients[byName[j].ci].name != [] {
        LiveEntry(Snapshot(), j, maxSeats);
      }
      var count, payload := BuildLines(ci);
      f := FrameOf(T_LOBBY, [count] + payload);
    }

    method BuildLines(ci: nat) returns (count: nat, payload: seq<byte>)
      requires forall j :: 0 <= j < |byName| ==> byName[j].ci < |clients| && clients[byName[j].ci].name != []
      ensures var others := Without(byName, {ci});
              && count == (if |others| < LOBBY_ENTRIES then |others| else LOBBY_ENTRIES)
              && payload == Lines(clients, rooms, others, count, maxSeats)
    {
      hide Without, Lines, PadName, Status;
      payload, count := [], 0;
      var i := 0;
      ghost var others := [];
      NoLines(clients, rooms, byName[..0], ci, maxSeats);
      while i < |byName| && count < LOBBY_ENTRIES
        invariant 0 <= i <= |byName| && 0 <= count <= LOBBY_ENTRIES
        invariant others == Without(byName[..i], {ci}) && count == |others|
        invariant payload == Lines(clients, rooms, others, count, maxSeats)
      {
        assert byName[..i + 1] == byName[..i] + [byName[i]];
        WithoutSnoc(byName[..i], byName[i], {ci});
        var oc := byName[i].ci;
        if oc != ci && clients[oc].name != [] {
          LinesPrefix(clients, rooms, others, others + [byName[i]], count, maxSeats);
          LinesStep(clients, rooms, others + [byName[i]], count, maxSeats);
          payload := payload + PadName(clients[oc].name) + [Status(clients, rooms, oc, maxSeats)];
          count := count + 1;
          others := others + [byName[i]];
        }
        i := i + 1;
      }
      assert byName == byName[..i] + byName[i..];
      WithoutConcat(byName[..i], byName[i..], {ci});
      if i == |byName| {
        assert byName[..i] == byName;
      }
      LinesPrefix(clients, rooms, others, Without(byName, {ci}), count, maxSeats);
    }

    /** Strip trailing NULs and spaces. */
    method StripEnd(raw: seq<byte>) returns (r: seq<byte>)
      ensures r == RStrip(raw)
    {
      var n := |raw|;
      assert raw[..n] == raw;
      while n > 0 && (raw[n - 1] == 0 || raw[n - 1] == 0x20)
        invariant 0 <= n <= |raw| && RStrip(raw[..n]) == RStrip(raw)
      {
        assert raw[..n][..n - 1] == raw[..n - 1];
        n := n - 1;
      }
      r := raw[..n];
    }

    /** The name check of on_hello. */
    method CheckName(payload: seq<byte>) returns (name: Option<Name>)
      ensures name == HelloName(payload)
      ensures forall n: Name :: name == Some(n) <==> Greets(payload, n)
    {
      HelloNameSays(payload);
      if |payload| < 3 || payload[0] != 2 {
        return None;
      }
      var raw := StripEnd(payload[1..]);
      if |raw| < 2 || |raw| > 8 {
        return None;
      }
      var i := 0;
      while i < |raw|
        invariant 0 <= i <= |raw| && forall j :: 0 <= j < i ==> NameChar(raw[j])
      {
        if !NameChar(raw[i]) {
          return None;
        }
        i := i + 1;
      }
      return Some(raw);
    }

    /** on_hello: a client takes a name.  An older holder is dropped first, D
        being the cascade; when that spares the client, its old entry goes, the
        new one is kept in place or appended, and it is sent the lobby, E being
        the cascade of that send. */
    method OnHello(ci: nat, payload: seq<byte>) returns (ghost D: set<nat>, ghost E: set<nat>)
      requires Settled() && Live(Snapshot(), ci)
      modifies this
      ensures Settled() && Onward(old(Snapshot()), Snapshot())
      ensures HelloDone(old(Snapshot()), Snapshot(), ci, HelloName(payload), D, E)
      ensures Greeted(old(Snapshot()), Snapshot(), ci, HelloName(payload), D, E, maxSeats)
      ensures HelloName(payload).Some? ==>
                var shares := old(Shares(Snapshot(), ci, HelloName(payload).value));
                && (!shares ==> ci !in D)
                && (shares && old(Failing(Alive() - 1)) ==> ci in D)
    {
      hide Linked, Named, Sound, ViewOf, Fall, Lost, Grown, Bounded, HelloDone, Mates, HelloName, Onward, Renamed, Holder;
      hide Greeted, Shares, Told, Listing, LiveSet;
      ghost var before := Snapshot();
      D, E := {}, {};
      var checked := CheckName(payload);
      if checked.None? {
        D := Drop(ci);
        HelloRefused(before, Snapshot(), ci, D, maxSeats);
        return;
      }
      D := Replace(ci, checked.value);
      ghost var s := Snapshot();
      if clients[ci].dead {
        HelloDropped(before, s, ci, checked.value, D, maxSeats);
        return;
      }
      HelloNameLong(payload);
      TakeName(ci, checked.value);
      ghost var t := Snapshot();
      E := OnList(ci);
      HelloFinish(before, s, t, Snapshot(), ci, checked.value, D, E);
      HelloGreets(before, s, t, Snapshot(), ci, checked.value, D, E, maxSeats);
    }

    /** Drop another holder of a name. */
    method Replace(ci: nat, name: Name) returns (ghost D: set<nat>)
      requires Settled() && Live(Snapshot(), ci)
      modifies this
      ensures Settled() && Fell(old(Snapshot()), Snapshot(), D)
      ensures Holder(old(byName), ci, name).None? ==> D == {}
      ensures Holder(old(byName), ci, name).Some? ==>
                var other := Holder(old(byName), ci, name).value;
                other < MAX_CLIENTS && other in D && D <= Mates(old(Snapshot()), other)
      ensures D == {} ==> Snapshot() == old(Snapshot())
      ensures !old(Shares(Snapshot(), ci, name)) ==> ci !in D
      ensures old(Shares(Snapshot(), ci, name)) && old(Failing(Alive() - 1)) ==> ci in D
      ensures Live(Snapshot(), ci) || (clients[ci].dead && ci in D)
      ensures forall e :: e in byName && e.name == name ==> e.ci == ci
    {
      hide Linked, Named, Sound, ViewOf, Fall, Lost, Grown, Bounded, Mates, LiveSet, Find, ToldOf, Notified;
      ghost var before := Snapshot();
      FellNobody(before);
      D := {};
      var i := NameFind(name);
      if i >= 0 && byName[i].ci != ci {
        LiveEntry(before, i, maxSeats);
        MateTold(before, byName[i].ci, ci, maxSeats);
        D := Drop(byName[i].ci);
        StillKnown(before, Snapshot(), D, ci);
      }
      NobodyElse(before, Snapshot(), D, ci, name, maxSeats);
    }

    /** The rename half of on_hello. */
    method TakeName(ci: nat, name: Name)
      requires Settled() && Live(Snapshot(), ci) && name != []
      requires forall e :: e in byName && e.name == name ==> e.ci == ci
      modifies this
      ensures Settled() && Live(Snapshot(), ci)
      ensures Snapshot() == old(Snapshot()).(clients := old(clients)[ci := old(clients)[ci].(name := name)], byName := byName)
      ensures Lobby() == old(Lobby()).(names := Renamed(old(byName), ci, old(clients[ci].name), name))
      ensures NameTaken(old(byName), byName, ci, old(clients[ci].name), name)
    {
      hide Linked, Named, Sound, ViewOf, Bounded, Find, Del, Without, Put, Unique, LiveSet, NameTaken;
      ghost var before := Snapshot();
      RenamedSays(before, ci, name, maxSeats);
      HelloOk(before, ci, name, maxSeats);
      NameFits(before, ci, name, maxSeats);
      var c := clients[ci];
      if c.name != [] && c.name != name {
        OwnName(before, ci, maxSeats);
        var i := NameFind(c.name);
        if i >= 0 && byName[i].ci == ci {
          DelIsWithout(byName, i);
          NameDelAt(i);
        }
      }
      clients := clients[ci := c.(name := name)];
      NameSet(name, ci);
    }

    /** room_alloc's search: a free slot, which exists while two live clients
        are in no room. */
    method RoomAlloc(ghost a: nat, ghost b: nat) returns (r: nat)
      requires Settled() && Live(Snapshot(), a) && Live(Snapshot(), b) && a != b
      requires clients[a].room == -1 && clients[b].room == -1
      ensures r < MAX_ROOMS && !rooms[r].used
    {
      FreeSlot(Snapshot(), a, b, maxSeats);
      r := 0;
      while rooms[r].used
        invariant 0 <= r < MAX_ROOMS
        invariant exists q :: r <= q < MAX_ROOMS && !rooms[q].used
        decreases MAX_ROOMS - r
      {
        r := r + 1;
      }
    }

    /** Seat a client in the room of a live target, founding one if need be. */
    method Seat(ci: nat, target: nat) returns (r: nat)
      requires Settled() && Live(Snapshot(), ci) && Live(Snapshot(), target) && target != ci
      requires clients[ci].room == -1 && clients[ci].name != [] && clients[target].name != []
      requires Joinable(Snapshot(), target, maxSeats)
      modifies this
      ensures Settled() && r < MAX_ROOMS && JoinedRoom(old(Snapshot()), ci, target, r)
      ensures Lobby() == Seated(old(Lobby()), r, Room(false, Seats(old(Snapshot()), target) + [ci]))
      ensures Onward(old(Snapshot()), Snapshot()) && RoomAt(Snapshot(), r).Some?
      ensures SameWire(old(Snapshot()), Snapshot())
      ensures rooms[r].members == Seats(old(Snapshot()), target) + [ci] && LiveSet(Snapshot()) == old(LiveSet(Snapshot()))
      ensures clients[ci].room == r && clients[target].room == r && !rooms[r].started
      ensures rooms[r].members == (if old(clients[target].room) == -1 then [target] else old(rooms[r].members)) + [ci]
    {
      ghost var before := Snapshot();
      JoinableRoom(before, target, maxSeats);
      var ri := clients[target].room;
      if ri < 0 {
        r := RoomAlloc(ci, target);
        rooms := rooms[r := RoomSlot(true, false, [target])];
        clients := clients[target := clients[target].(room := r)];
      } else {
        r := ri;
      }
      rooms := rooms[r := rooms[r].(members := rooms[r].members + [ci])];
      clients := clients[ci := clients[ci].(room := r)];
      JoinOk(before, r, Seats(before, target), ci, maxSeats, Snapshot());
    }

    /** on_join: refused with a fresh lobby list, or seated and announced, D
        being the announcement's cascade; at the auto-start size the match
        starts, E being that cascade. */
    method OnJoin(ci: nat, payload: seq<byte>)
      returns (ghost D: set<nat>, ghost E: set<nat>, ghost r: nat, ghost seed: word)
      requires Settled() && Live(Snapshot(), ci)
      modifies this
      ensures Settled() && Onward(old(Snapshot()), Snapshot())
      ensures JoinDone(old(Snapshot()), Snapshot(), ci, payload, D, E, r, maxSeats, autoGo)
      ensures JoinTold(old(Snapshot()), Snapshot(), ci, payload, Outcome(D, E, r, seed), Terms())
    {
      hide Linked, Named, Sound, ViewOf, Fall, Lost, Grown, Bounded, Mates, Onward, Joinable, Told, RoomFrame, Listing;
      hide RosterSent, SeatStarted, LobbySent, MayJoin, Easy, After, GoneTold;
      hide StartFrames, Addressed, Stream, LiveSet, Starting;
      ghost var before := Snapshot();
      D, E, r, seed := {}, {}, 0, 0;
      if clients[ci].name == [] {
        D := Drop(ci);
        JoinRefused(before, Snapshot(), D);
        return;
      }
      if clients[ci].room >= 0 {
        FellNobody(before);
        JoinRefused(before, before, {});
        return;
      }
      OutsideRooms(before, ci, maxSeats);
      var name := StripEnd(payload);
      var ok, target := FindTarget(ci, name);
      if !ok {
        D := OnList(ci);
        JoinRefused(before, Snapshot(), D);
        return;
      }
      var ri := Seat(ci, target);
      r := ri;
      ghost var s := Snapshot();
      D := RoomBroadcast(ri);
      ghost var t := Snapshot();
      ghost var m := s.rooms[ri].members;
      RoomLater(s, t, D, ri, maxSeats);
      JoinAnnounced(before, s, t, D, ri);
      if D == {} {
        AnnouncedTo(before, s, t, m);
      }
      if autoGo > 0 && |rooms[ri].members| >= autoGo {
        E, seed := StartRoom(ri);
        JoinStarted(before, s, t, Snapshot(), D, E, ri, maxSeats);
        if D == {} && E == {} {
          JoinThenStart(before, s, t, Snapshot(), m, seed, Terms());
        }
      } else if D == {} {
        JoinWaits(before, t, m, Terms());
      }
    }

    /** A name copied and NUL-terminated, as strcmp reads it. */
    method Terminated(raw: seq<byte>) returns (r: seq<byte>)
      ensures r == CString(raw)
    {
      var n := 0;
      while n < |raw| && raw[n] != 0
        invariant 0 <= n <= |raw| && 0 !in raw[..n]
      {
        assert raw[..n + 1] == raw[..n] + [raw[n]];
        n := n + 1;
      }
      r := raw[..n];
      CStringIs(raw, n);
    }

    /** The join target: another named client in no room, or in one that is
        neither started nor full. */
    method FindTarget(ci: nat, name: Name) returns (ok: bool, target: nat)
      requires Settled() && Live(Snapshot(), ci)
      ensures Wanted(Snapshot(), ci, name, maxSeats) == if ok then Some(target) else None
      ensures ok ==> Live(Snapshot(), target) && target != ci && clients[target].name != []
                     && Joinable(Snapshot(), target, maxSeats)
      ensures forall t: nat :: (ok && t == target) <==> MayJoin(Snapshot(), ci, name, t, maxSeats)
    {
      WantedSays(Snapshot(), ci, name, maxSeats);
      ok, target := false, 0;
      if |name| > 8 {
        return;
      }
      var key := Terminated(name);
      var i := NameFind(key);
      if i < 0 {
        return;
      }
      LiveEntry(Snapshot(), i, maxSeats);
      target := byName[i].ci;
      var room := clients[target].room;
      ok := target != ci && !(room >= 0 && (rooms[room].started || |rooms[room].members| >= maxSeats));
    }

    /** next_seed: a non-zero 16-bit draw. */
    method NextSeed() returns (seed: word)
      modifies this`seeds
      ensures seed != 0
      ensures old(seeds) != [] && old(seeds[0]) != 0 ==> seed == old(seeds[0])
    {
      seed := 1;
      if seeds != [] {
        seed := if seeds[0] == 0 then 1 else seeds[0];
        seeds := seeds[1..];
      }
    }

    /** start_room: seats are fixed from here on; each member is told its own. */
    method StartRoom(ri: nat) returns (ghost E: set<nat>, ghost seed: word)
      requires Settled() && ri < MAX_ROOMS && RoomAt(Snapshot(), ri).Some?
      modifies this
      ensures Settled() && Onward(old(Snapshot()), Snapshot())
      ensures Started(old(Snapshot()), Snapshot(), ri, E)
      ensures |old(rooms[ri].members)| <= ROSTER_SLOTS && forall m :: m in old(rooms[ri].members) ==> m < MAX_CLIENTS
      ensures seed != 0
      ensures old(Easy()) ==> E == {}
      ensures E == {} ==>
                && SeatStarted(old(Snapshot()), Snapshot(), old(rooms[ri].members), seed, delay)
                && rooms[ri].used && rooms[ri].started && rooms[ri].members == old(rooms[ri].members)
      ensures E == {} ==>
                var m := old(rooms[ri].members);
                var fs := StartFrames(old(clients), m, seed, delay);
                forall i: nat :: i < MAX_CLIENTS ==>
                  Stream(Snapshot(), i) == Stream(old(Snapshot()), i) + Addressed(m, fs, |m|, i)
    {
      hide Linked, Named, Sound, ViewOf, Fall, Lost, Grown, Bounded, Mates, StartFrames, Addressed, Onward, SeatStarted;
      ghost var before := Snapshot();
      RoomMembers(before, ri, maxSeats);
      StartOk(before, ri, maxSeats);
      var m := rooms[ri].members;
      rooms := rooms[ri := rooms[ri].(started := true)];
      ghost var s := Snapshot();
      var drawn := NextSeed();
      seed := drawn;
      var fs := StartFrames(clients, m, drawn, delay);
      E := SendEach(m, fs);
      StartDone(before, s, Snapshot(), ri, E);
      if E == {} {
        StartsSay(before, Snapshot(), m, drawn, delay);
        RoomKept(s, Snapshot(), ri);
      }
    }

    /** on_go: only the host of a forming room starts it. */
    method OnGo(ci: nat) returns (ghost E: set<nat>, ghost seed: word)
      requires Settled() && Live(Snapshot(), ci)
      modifies this
      ensures Settled() && Onward(old(Snapshot()), Snapshot())
      ensures GoDone(old(Snapshot()), Snapshot(), ci, E, maxSeats)
      ensures GoTold(old(Snapshot()), Snapshot(), ci, Outcome({}, E, 0, seed), Terms())
      ensures E == {} ==> GoSays(old(Snapshot()), Snapshot(), ci, seed, delay)
    {
      hide StartFrames, Addressed, Stream, Started, SeatStarted;
      E, seed := {}, 0;
      var ri := clients[ci].room;
      if ri < 0 || rooms[ri].started {
        return;
      }
      RoomMembers(Snapshot(), ri, maxSeats);
      var seat := RoomSeat(rooms[ri].members, ci);
      SeatZero(rooms[ri].members, ci);
      if seat != 0 || |rooms[ri].members| < 2 || |rooms[ri].members| > maxSeats {
        return;
      }
      E, seed := StartRoom(ri);
    }

    /** The relay half of handle: a match frame goes verbatim to every other
        member, whoever else the sends take. */
    method Fanout(ci: nat, body: seq<byte>) returns (ghost D: set<nat>)
      requires Settled() && Live(Snapshot(), ci) && 1 <= |body| <= 200
      modifies this
      ensures Settled() && Fell(old(Snapshot()), Snapshot(), D)
      ensures D == {} ==> Quiet(old(Snapshot()), Snapshot())
      ensures D == {} ==> Told(old(Snapshot()), Snapshot(), Others(old(Snapshot()), ci), [|body|] + body)
      ensures D == {} ==> MatchRelayed(old(Snapshot()), Snapshot(), ci, body)
      ensures old(Easy()) ==> D == {}
    {
      hide Linked, Named, Sound, ViewOf, Fall, Lost, Grown, Bounded, Told, Stream, Addressed, MatchRelayed, Easy, Healthy;
      hide Distinct, Mates, MatesOfAll;
      ghost var before := Snapshot();
      FellNobody(before);
      D := {};
      var ri := clients[ci].room;
      OwnRoom(before, ci, maxSeats);
      if ri < 0 || !rooms[ri].started {
        NobodyAddressed(before, [|body|] + body);
        MatchSays(before, before, ci, body, maxSeats);
        return;
      }
      var seat := RoomSeat(rooms[ri].members, ci);
      var to := rooms[ri].members[..seat] + rooms[ri].members[seat + 1..];
      var f := FrameOf(body[0], body[1..]);
      assert f == [|body|] + body;
      OthersDistinct(before, ci, maxSeats);
      D := SendEach(to, Same(|to|, f));
      SentToAll(before, Snapshot(), to, f, D);
      if D == {} {
        MatchSays(before, Snapshot(), ci, body, maxSeats);
      }
    }

    /** handle: dispatch one frame body.  Whatever it is and whatever its sends
        take, the tables stay sound and every started room keeps its members in
        their seats or is dissolved. */
    method Handle(ci: nat, body: seq<byte>) returns (ghost o: Outcome)
      requires Settled() && Live(Snapshot(), ci) && 1 <= |body| <= 200
      modifies this
      ensures Settled() && Onward(old(Snapshot()), Snapshot())
      ensures Frozen(old(Lobby()), Lobby())
      ensures HandleDone(old(Snapshot()), Snapshot(), ci, body, o, Terms())
    {
      hide Linked, Named, Sound, ViewOf, Fall, Lost, Grown, Bounded, Told, Onward, Frozen, HelloDone, JoinDone, GoDone;
      hide Quiet, Greeted, JoinTold, GoTold, Notified, Listing, HelloName, LiveSet, Stream;
      ghost var before := Snapshot();
      ghost var D, E, r, seed: word := {}, {}, 0, 0;
      var payload := body[1..];
      if body[0] == T_INPUT || body[0] == T_CRC || body[0] == T_STATE || body[0] == T_RESYNC {
        D := Fanout(ci, body);
        LostFrozen(before, Snapshot(), D);
      } else if body[0] == T_HELLO {
        D, E := OnHello(ci, payload);
        HelloFrozen(before, Snapshot(), ci, HelloName(payload), D, E);
      } else if body[0] == T_LIST {
        D := OnList(ci);
        LostFrozen(before, Snapshot(), D);
      } else if body[0] == T_JOIN {
        D, E, r, seed := OnJoin(ci, payload);
        JoinFrozen(before, Snapshot(), ci, payload, D, E, r, maxSeats, autoGo);
      } else if body[0] == T_GO {
        E, seed := OnGo(ci);
        GoFrozen(before, Snapshot(), ci, E, maxSeats);
      } else if body[0] == T_PING {
        D := SendRaw(ci, FrameOf(T_PONG, []));
        PongSent(before, Snapshot(), ci, D);
        LostFrozen(before, Snapshot(), D);
      } else {
        // BYE, or an unknown type
        D := Drop(ci);
        LostFrozen(before, Snapshot(), D);
      }
      o := Outcome(D, E, r, seed);
    }

    /** Nothing on the wire moves when only unread bytes change. */
    method SetRx(ci: nat, rx: seq<byte>)
      requires Settled() && Live(Snapshot(), ci) && |rx| <= RelayState.RX_CAP
      modifies this`clients
      ensures Settled() && Live(Snapshot(), ci) && clients == old(clients)[ci := old(clients[ci]).(rx := rx)]
      ensures LiveSet(Snapshot()) == old(LiveSet(Snapshot()))
    {
      RxOk(Snapshot(), ci, rx, maxSeats);
      clients := clients[ci := clients[ci].(rx := rx)];
    }

    /** feed: the bodies handled, each with the effect of its handling and
        nothing done between them, are those of the pure parser on what was
        unread and what came: all of them while the client lives, and none after
        a bad length byte, which drops it, or after its drop; at most 200 bytes
        stay unread.  As long as the frames are a match's and nobody is lost,
        the other members of the room are sent exactly those frames. */
    method Feed(ci: nat, data: seq<byte>)
      returns (ghost handled: seq<seq<byte>>, ghost log: seq<Handling>, ghost last: Snap, ghost fall: set<nat>)
      requires Settled() && Live(Snapshot(), ci) && Unread(clients[ci].rx)
      modifies this
      ensures Settled() && OthersRx(old(Snapshot()), Snapshot(), ci) && LiveSet(Snapshot()) <= old(LiveSet(Snapshot()))
      ensures Journey(old(Snapshot()), last, ci, handled, log, Terms())
      ensures var p := Framing.Parse(old(clients[ci].rx) + data);
              && handled <= p.bodies
              && (Live(Snapshot(), ci) ==>
                    && last == Snapshot()
                    && handled == p.bodies && !p.bad && clients[ci].rx == p.rest && Unread(p.rest) && |p.rest| <= 200)
              && (!Live(Snapshot(), ci) ==>
                    && clients[ci].dead
                    && ((handled != [] && last == Snapshot())
                        || (handled == p.bodies && p.bad && Dropped(last, Snapshot(), ci, fall, maxSeats))))
      ensures AllMatch(handled) && LiveSet(Snapshot()) == old(LiveSet(Snapshot())) ==>
                && SameTables(old(Snapshot()), Snapshot())
                && forall i: nat :: i < MAX_CLIENTS ==>
                     Stream(Snapshot(), i)
                     == old(Stream(Snapshot(), i)) + if i in Others(old(Snapshot()), ci) then Forwarded(handled) else []
    {
      hide Linked, Named, Sound, ViewOf, Bounded, Frozen, Onward, LiveSet, Framing.Parse, Journey, Dropped, Stream, Others;
      hide SameTables, OthersRx, Forwarded, AllMatch;
      ghost var before := Snapshot();
      ghost var whole := Framing.Parse(clients[ci].rx + data);
      handled, log, last, fall := [], [], before, {};
      JourneyStarts(before, ci, Terms());
      NobodyMoved(before, ci);
      var n := 0;
      while n < |data|
        invariant 0 <= n <= |data| && Settled() && Live(Snapshot(), ci) && Unread(clients[ci].rx)
        invariant OthersRx(before, Snapshot(), ci)
        invariant Continues(whole, handled, Framing.Parse(clients[ci].rx + data[n..]))
        invariant last == Snapshot() && Journey(before, last, ci, handled, log, Terms())
      {
        UnreadShort(clients[ci].rx);
        var space := RelayState.RX_CAP - |clients[ci].rx|;  // never 0: at most 200 bytes are left
        var take := if |data| - n < space then |data| - n else space;
        assert clients[ci].rx + data[n..] == clients[ci].rx + data[n..n + take] + data[n + take..];
        SetRx(ci, clients[ci].rx + data[n..n + take]);
        OnlyOwnRx(before, last, Snapshot(), ci);
        JourneyRefills(before, last, Snapshot(), ci, handled, log, Terms());
        n := n + take;
        handled, log, last, fall := Consume(ci, data[n..], whole, before, handled, log);
        if clients[ci].dead {
          JourneyFewer(before, last, ci, handled, log, Terms());
          LostSome(before, last, Snapshot(), ci, fall, maxSeats);
          return;
        }
      }
      assert clients[ci].rx + data[n..] == clients[ci].rx;
      UnreadShort(clients[ci].rx);
      JourneyFewer(before, last, ci, handled, log, Terms());
      if AllMatch(handled) && LiveSet(last) == LiveSet(before) {
        JourneyForwards(before, last, ci, handled, log, Terms());
      }
    }

    /** The inner loop of feed: handle every complete frame that is buffered. */
    method Consume(ci: nat, ghost later: seq<byte>, ghost whole: Framing.Fed, ghost start: Snap,
                   ghost handled: seq<seq<byte>>, ghost log: seq<Handling>)
      returns (ghost handled': seq<seq<byte>>, ghost log': seq<Handling>, ghost last: Snap, ghost fall: set<nat>)
      requires Settled() && Live(Snapshot(), ci) && Sized(start) && OthersRx(start, Snapshot(), ci)
      requires Continues(whole, handled, Framing.Parse(clients[ci].rx + later))
      requires Journey(start, Snapshot(), ci, handled, log, Terms())
      modifies this
      ensures Settled() && OthersRx(start, Snapshot(), ci)
      ensures Live(Snapshot(), ci) || clients[ci].dead
      ensures Journey(start, last, ci, handled', log', Terms())
      ensures Live(Snapshot(), ci) ==>
                && last == Snapshot()
                && Continues(whole, handled', Framing.Parse(clients[ci].rx + later))
                && Unread(clients[ci].rx)
      ensures !Live(Snapshot(), ci) ==>
                && handled' <= whole.bodies
                && ((handled' != [] && last == Snapshot())
                    || (handled' == whole.bodies && whole.bad && Dropped(last, Snapshot(), ci, fall, maxSeats)))
    {
      hide Linked, Named, Sound, ViewOf, Bounded, Frozen, Onward, LiveSet, Framing.Parse, Unread, Continues, OthersRx;
      hide Journey, Dropped, HandleDone, Served;
      handled', log', fall := handled, log, {};
      while true
        invariant Settled() && Live(Snapshot(), ci) && OthersRx(start, Snapshot(), ci)
        invariant Continues(whole, handled', Framing.Parse(clients[ci].rx + later))
        invariant Journey(start, Snapshot(), ci, handled', log', Terms())
        decreases |clients[ci].rx|
      {
        var rx := clients[ci].rx;
        ghost var s := Snapshot();
        last := s;
        Framing.ParseStep(rx);
        Framing.ParseStep(rx + later);
        if rx == [] {
          NothingUnread(rx);
          break;
        }
        if Framing.BadLength(rx[0]) {
          BadEnds(whole, handled', rx, later);
          fall := Drop(ci);
          DropRx(s, Snapshot(), ci, fall);
          DropIs(s, Snapshot(), ci, fall, maxSeats);
          OthersLater(start, s, Snapshot(), ci);
          return;
        }
        if |rx| < 1 + rx[0] as int {
          NothingUnread(rx);
          break;
        }
        var need: int := 1 + rx[0] as int;
        var body := rx[1..need];
        OneMore(whole, handled', rx, later);
        RxBound(s, ci, maxSeats);
        SetRx(ci, rx[need..]);
        ghost var t := Snapshot();
        JourneyRefills(start, s, t, ci, handled', log', Terms());
        ghost var o := Handle(ci, body);
        last := Snapshot();
        HandledRx(s, t, last, ci, rx[need..]);
        OthersLater(start, s, last, ci);
        ghost var h := Handling(t, last, body, o);
        ServedIs(h, ci, Terms());
        JourneyGoes(start, ci, handled', log', h, Terms());
        handled', log' := handled' + [body], log' + [h];
        if clients[ci].dead {
          HandledSoFar(whole, handled', Framing.Parse(rx[need..] + later));
          return;
        }
      }
    }

    /** The number of slots in use: what n_clients counts. */
    method CountClients() returns (n: nat)
      requires Sized(Snapshot())
      ensures n <= MAX_CLIENTS
      ensures n < MAX_CLIENTS <==> exists i :: 0 <= i < MAX_CLIENTS && !clients[i].inUse
    {
      n := 0;
      var i := 0;
      while i < MAX_CLIENTS
        invariant 0 <= i <= MAX_CLIENTS && 0 <= n <= i
        invariant n < i <==> exists j :: 0 <= j < i && !clients[j].inUse
      {
        if clients[i].inUse {
          n := n + 1;
        }
        i := i + 1;
      }
    }

    /** The number of slots in use from an address. */
    method CountAddress(ip: nat) returns (n: nat)
      requires Sized(Snapshot()) && ips.Length == MAX_CLIENTS
      ensures n == FromAddress(clients, ips[..], ip, MAX_CLIENTS)
    {
      n := 0;
      var i := 0;
      while i < MAX_CLIENTS
        invariant 0 <= i <= MAX_CLIENTS && n == FromAddress(clients, ips[..], ip, i)
      {
        if clients[i].inUse && ips[i] == ip {
          n := n + 1;
        }
        i := i + 1;
      }
    }

    /** accept_client: refused exactly when all 64 slots are in use or the
        address has its share of them; otherwise a free slot is found and starts
        afresh. */
    method Accept(ip: nat) returns (r: int)
      requires Settled() && ips.Length == MAX_CLIENTS
      modifies this, ips
      ensures Settled() && -1 <= r < MAX_CLIENTS
      ensures r == -1 <==> (forall i :: 0 <= i < MAX_CLIENTS ==> old(clients[i].inUse))
                           || |set i: nat | i < MAX_CLIENTS && old(clients[i].inUse) && old(ips[i]) == ip| >= 8
      ensures r == -1 ==> Snapshot() == old(Snapshot()) && ips[..] == old(ips[..])
      ensures r != -1 ==>
                && !old(clients[r].inUse) && Live(Snapshot(), r)
                && Snapshot() == old(Snapshot()).(clients := old(clients)[r := Client(true, false, [], -1, [], [])],
                                                  wire := old(wire)[r := []])
                && Lobby() == old(Lobby()).(live := old(Lobby()).live + {r}) && ips[..] == old(ips[..])[r := ip]
    {
      r := -1;
      var n := CountClients();
      if n >= MAX_CLIENTS {
        return;
      }
      var share := CountAddress(ip);
      CountIs(clients, ips[..], ip, MAX_CLIENTS);
      assert AtAddress(clients, ips[..], ip, MAX_CLIENTS)
             == set i: nat | i < MAX_CLIENTS && old(clients[i].inUse) && old(ips[i]) == ip;
      if share >= MAX_CONNECTIONS_PER_IP {
        return;
      }
      r := 0;
      while clients[r].inUse
        invariant 0 <= r < MAX_CLIENTS && exists i :: r <= i < MAX_CLIENTS && !clients[i].inUse
        decreases MAX_CLIENTS - r
      {
        r := r + 1;
      }
      AcceptOk(Snapshot(), r, maxSeats);
      clients := clients[r := Client(true, false, [], -1, [], [])];
      wire := wire[r := []];
      ips[r] := ip;
    }

    /** An empty server. */
    constructor (seats: nat, auto: nat, inputDelay: byte, outcomes: seq<int>, draws: seq<word>)
      requires 2 <= seats <= 4 && auto <= seats
      ensures Settled() && maxSeats == seats && autoGo == auto && delay == inputDelay
      ensures LiveSet(Snapshot()) == {} && byName == [] && net == outcomes && fresh(ips) && ips.Length == MAX_CLIENTS
    {
      clients := seq(MAX_CLIENTS, i => Client(false, false, [], -1, [], []));
      rooms := seq(MAX_ROOMS, i => RoomSlot(false, false, []));
      byName, wire, net, seeds := [], seq(MAX_CLIENTS, i => []), outcomes, draws;
      ips := new nat[MAX_CLIENTS](i => 0);
      leaving, dying, maxSeats, autoGo, delay := {}, {}, seats, auto, inputDelay;
    }
  }

  ghost function AtAddress(clients: seq<Client>, ips: seq<nat>, ip: nat, k: nat): set<nat>
    requires k <= |clients| == |ips|
  {
    set i: nat | i < k && clients[i].inUse && ips[i] == ip
  }

  lemma {:induction false} CountIs(clients: seq<Client>, ips: seq<nat>, ip: nat, k: nat)
    requires k <= |clients| == |ips|
    ensures |AtAddress(clients, ips, ip, k)| == FromAddress(clients, ips, ip, k)
    decreases k
  {
    if k > 0 {
      CountIs(clients, ips, ip, k - 1);
      var fewer := AtAddress(clients, ips, ip, k - 1);
      assert AtAddress(clients, ips, ip, k)
             == if clients[k - 1].inUse && ips[k - 1] == ip then fewer + {k - 1} else fewer;
    }
  }

  lemma RoomKept(s: Snap, t: Snap, r: nat)
    requires Lost(s, t, {}) && r < MAX_ROOMS && RoomAt(s, r).Some?
    ensures RoomAt(t, r) == RoomAt(s, r)
  {
    FallNobody(ViewOf(s));
    hide Fall;
    assert ViewOf(t).rooms[r] == RoomAt(t, r) && ViewOf(s).rooms[r] == RoomAt(s, r);
  }

  /** Everybody but one client has its record and its socket untouched. */
  ghost predicate Alone(s: Snap, t: Snap, ci: nat)
    requires Sized(s) && Sized(t)
  {
    forall i: nat :: i < MAX_CLIENTS && i != ci ==> t.clients[i] == s.clients[i] && t.wire[i] == s.wire[i]
  }

  /** Those of a list still to be sent to are as they were. */
  ghost predicate Spared(s: Snap, t: Snap, to: seq<nat>, k: nat)
    requires Sized(s) && Sized(t)
  {
    forall j :: k <= j < |to| ==> to[j] < MAX_CLIENTS && t.clients[to[j]] == s.clients[to[j]]
  }

  lemma Untouched(s: Snap, ci: nat, net: seq<int>)
    requires Sized(s) && ci < MAX_CLIENTS
    ensures Quiet(s, s) && Alone(s, s, ci) && Taking(net, net, s.clients[ci].tx, 0)
  {
    assert net[..0] == [];
  }

  lemma TookAlone(s: Snap, t: Snap, ci: nat, k: nat)
    requires Sized(s) && Sized(t) && ci < MAX_CLIENTS && k <= |t.clients[ci].tx| && Alone(s, t, ci)
    ensures var c := t.clients[ci];
            Alone(s, t.(clients := t.clients[ci := c.(tx := c.tx[k..])], wire := t.wire[ci := t.wire[ci] + c.tx[..k]]), ci)
  {
  }

  lemma QuietOn(s: Snap, t: Snap, ci: nat, k: nat)
    requires Sized(s) && Sized(t) && ci < MAX_CLIENTS && k <= |t.clients[ci].tx| && Quiet(s, t)
    ensures var c := t.clients[ci];
            Quiet(s, t.(clients := t.clients[ci := c.(tx := c.tx[k..])], wire := t.wire[ci := t.wire[ci] + c.tx[..k]]))
  {
  }

  lemma SparedAll(s: Snap, to: seq<nat>)
    requires Sized(s) && forall m :: m in to ==> Live(s, m)
    ensures Spared(s, s, to, 0)
  {
    forall j | 0 <= j < |to| ensures to[j] < MAX_CLIENTS && s.clients[to[j]] == s.clients[to[j]] {
      assert to[j] in to && Live(s, to[j]);
    }
  }

  lemma SparedNext(s: Snap, t: Snap, to: seq<nat>, k: nat)
    requires Sized(s) && Sized(t) && k < |to|
    ensures Spared(s, t, to, k) ==> to[k] < MAX_CLIENTS && t.clients[to[k]] == s.clients[to[k]]
  {
  }

  lemma SparedOn(s: Snap, t: Snap, u: Snap, to: seq<nat>, k: nat)
    requires Sized(s) && Sized(t) && Sized(u) && k < |to|
    ensures Spared(s, t, to, k) && Distinct(to) && Alone(t, u, to[k]) ==> Spared(s, u, to, k + 1)
  {
  }

  /** What a run of send outcomes takes in all. */
  function Took(outcomes: seq<int>): int
    decreases |outcomes|
  {
    if outcomes == [] then 0
    else
      var n := |outcomes| - 1;
      Took(outcomes[..n]) + if outcomes[n] > 0 then outcomes[n] else 0
  }

  /** Outcomes used up so far, each of which took something; as long as anything
      is queued, what moved is what they took. */
  ghost predicate Taking(was: seq<int>, now: seq<int>, tx: seq<byte>, moved: int) {
    && |now| <= |was| && now == was[|was| - |now|..]
    && (forall i :: 0 <= i < |was| - |now| ==> was[i] >= 1)
    && (tx != [] ==> moved == Took(was[..|was| - |now|]))
  }

  /** A flush went on until the queue was empty or a send would block, and moved
      what the sends took. */
  ghost predicate Flushed(was: seq<int>, now: seq<int>, tx: seq<byte>, moved: int) {
    && |now| <= |was| && now == was[|was| - |now|..]
    && (tx != [] ==>
          var n := |was| - |now|;
          moved == Took(was[..n]) && (now == [] || (n > 0 && was[n - 1] == -1)))
  }

  lemma Emptied(was: seq<int>, now: seq<int>, moved: int)
    requires Taking(was, now, [], moved)
    ensures Flushed(was, now, [], moved)
  {
  }

  lemma Blocked(was: seq<int>, ahead: seq<int>, now: seq<int>, tx: seq<byte>, moved: int)
    requires Taking(was, ahead, tx, moved) && tx != []
    requires if ahead == [] then now == [] else now == ahead[1..] && ahead[0] == -1
    ensures Flushed(was, now, tx, moved)
  {
    if ahead != [] {
      var n := |was| - |ahead|;
      assert was[n] == ahead[0] && was[..n + 1][..n] == was[..n];
    }
  }

  lemma TakeOn(was: seq<int>, ahead: seq<int>, now: seq<int>, tx: seq<byte>, moved: int, k: nat)
    requires Taking(was, ahead, tx, moved) && tx != [] && ahead != [] && now == ahead[1..]
    requires 1 <= k <= |tx| && (if ahead[0] > |tx| then k == |tx| else k == ahead[0])
    ensures Taking(was, now, tx[k..], moved + k)
  {
    var n := |was| - |ahead|;
    assert was[n] == ahead[0] && was[..n + 1][..n] == was[..n];
  }

  lemma LiveCounts(s: Snap, ci: nat)
    requires Live(s, ci)
    ensures |LiveSet(s)| > 0
  {
    assert ci in LiveSet(s);
  }

  lemma ToldNobody(s: Snap, t: Snap, f: seq<byte>)
    requires Sized(s) && Sized(t) && Told(s, t, [], f)
    ensures forall i: nat :: i < MAX_CLIENTS ==> Stream(t, i) == Stream(s, i)
  {
    forall i: nat | i < MAX_CLIENTS ensures Stream(t, i) == Stream(s, i) {
      assert Stream(t, i) == Stream(s, i) + [];
    }
  }

  /** Freeing a dissolved room's slot disturbs nothing. */
  lemma RoomFreed(before: Snap, home: Snap, s: Snap, r: nat, notify: seq<nat>, D: set<nat>, maxSeats: nat)
    requires Sized(before) && r < MAX_ROOMS && (forall m :: m in before.rooms[r].members ==> m < MAX_CLIENTS)
    requires home == HomeSent(before, r) && Fell(home, s, D) && Ok(s, maxSeats)
    requires D == {} ==>
               forall i :: 0 <= i < MAX_CLIENTS ==>
                 Stream(s, i) == Stream(home, i) + Addressed(notify, Same(|notify|, Dissolution()), |notify|, i)
    ensures var u := s.(rooms := s.rooms[r := RoomSlot(false, s.rooms[r].started, [])], leaving := s.leaving - {r});
            && Ok(u, maxSeats) && Lost(home, u, D) && LiveSet(u) == LiveSet(s)
            && (D == {} ==> Told(before, u, notify, Dissolution()))
  {
    hide Linked, Named, Sound, ViewOf, Fall, Grown, Bounded, Dissolution, Addressed, Stream, HomeSent, Same;
    var u := s.(rooms := s.rooms[r := RoomSlot(false, s.rooms[r].started, [])], leaving := s.leaving - {r});
    HomeStreams(before, r);
    FreedRoom(s, r, maxSeats);
    FreedStreams(s, r);
    GrownTwice(home, s, u, D, {});
    assert D + {} == D;
  }

  lemma HomeStreams(s: Snap, r: nat)
    requires Sized(s) && r < MAX_ROOMS && forall m :: m in s.rooms[r].members ==> m < MAX_CLIENTS
    ensures var t := HomeSent(s, r); Sized(t) && forall i: nat :: i < MAX_CLIENTS ==> Stream(t, i) == Stream(s, i)
    ensures HomeSent(s, r).rooms == s.rooms && r in HomeSent(s, r).leaving
  {
  }

  lemma FreedStreams(s: Snap, r: nat)
    requires Sized(s) && r < MAX_ROOMS
    ensures var t := s.(rooms := s.rooms[r := RoomSlot(false, s.rooms[r].started, [])], leaving := s.leaving - {r});
            LiveSet(t) == LiveSet(s) && forall i: nat :: i < MAX_CLIENTS ==> Stream(t, i) == Stream(s, i)
  {
  }

  /** A leaver's cascade stays among its mates. */
  lemma LeftBehind(s: Snap, ci: nat, rest: seq<nat>, maxSeats: nat)
    requires Ok(s, maxSeats) && Live(s, ci) && s.clients[ci].room != -1 && rest == ToldOf(s, ci)
    ensures forall m :: m in rest ==> m < MAX_CLIENTS
    ensures Sized(Detached(s, ci)) && MatesOfAll(Detached(s, ci), rest, |rest|) <= Mates(s, ci)
  {
    Survivors(s, ci, maxSeats);
    var m := s.rooms[s.clients[ci].room].members;
    RoomMembers(s, s.clients[ci].room, maxSeats);
    UnseatIsKeep(m, SeatOf(m, ci));
    forall x | x in rest ensures x != ci && x in m {
      KeepMembers(m, {ci}, x);
    }
    AllMatesOfLeft(s, ci, rest, |rest|, maxSeats);
  }

  lemma {:induction false} LostNobodyMates(s: Snap, t: Snap, to: seq<nat>, k: nat, maxSeats: nat)
    requires Ok(s, maxSeats) && Ok(t, maxSeats) && Lost(s, t, {}) && k <= |to|
    requires forall m :: m in to ==> Live(s, m) && Live(t, m)
    ensures MatesOfAll(t, to, k) <= MatesOfAll(s, to, k)
    decreases k
  {
    hide Ok, Lost, Mates;
    if k > 0 {
      assert to[k - 1] in to;
      LostNobodyMates(s, t, to, k - 1, maxSeats);
      MatesShrink(s, t, {}, to[k - 1], maxSeats);
    }
  }

  /** What LeaveRoom sent is the farewell. */
  lemma FarewellIs(s: Snap, t: Snap, ci: nat, rest: seq<nat>, maxSeats: nat)
    requires Ok(s, maxSeats) && Live(s, ci) && s.clients[ci].room != -1 && Sized(t)
    requires rest == ToldOf(s, ci)
    ensures |rest| <= 3 && forall m :: m in rest ==> m < MAX_CLIENTS
    ensures var r, u := s.clients[ci].room, Unlinked(s, ci);
            var seat := SeatOf(s.rooms[r].members, ci);
            var f := if s.rooms[r].started then PeerLeft(seat, s.clients[ci].name)
                     else if seat == 0 || |rest| < 2 then Dissolution()
                     else RoomFrame(u.clients, rest);
            Told(u, t, rest, f) ==> Notified(s, t, ci, maxSeats)
  {
    var u := Unlinked(s, ci);
    Survivors(s, ci, maxSeats);
    SameNames(s.clients, u.clients, rest, |rest|);
    assert forall i: nat :: i < MAX_CLIENTS ==> Stream(u, i) == Stream(s, i);
  }

  lemma NobodyTold(s: Snap, t: Snap, ci: nat, maxSeats: nat)
    requires Ok(s, maxSeats) && Live(s, ci) && s.clients[ci].room == -1 && Sized(t)
    requires forall i: nat :: i < MAX_CLIENTS ==> Stream(t, i) == Stream(s, i)
    ensures Notified(s, t, ci, maxSeats)
  {
    forall i: nat | i < MAX_CLIENTS ensures Stream(t, i) == Stream(s, i) + [] {
    }
  }

  lemma FreeingTellsNobody(s: Snap, t: Snap, ci: nat, maxSeats: nat)
    requires Ok(s, maxSeats) && Live(s, ci) && Sized(t) && Notified(s, t, ci, maxSeats)
    ensures var u := t.(clients := t.clients[ci := t.clients[ci].(inUse := false)], dying := t.dying - {ci});
            Notified(s, u, ci, maxSeats)
  {
    var u := t.(clients := t.clients[ci := t.clients[ci].(inUse := false)], dying := t.dying - {ci});
    assert forall i: nat :: i < MAX_CLIENTS ==> Stream(u, i) == Stream(t, i);
    hide Stream, Farewell, ToldOf;
  }

  /** Freeing the dropped client's slot completes its fall. */
  lemma Buried(s: Snap, t: Snap, ci: nat, E: set<nat>, maxSeats: nat)
    requires Ok(s, maxSeats) && Live(s, ci) && Lost(Detached(s, ci), t, E) && Ok(t, maxSeats)
    requires ci in t.dying && t.leaving == s.leaving && t.dying == s.dying + {ci} && ci !in s.dying
    requires E == {} ==> Notified(s, t, ci, maxSeats)
    ensures var u := t.(clients := t.clients[ci := t.clients[ci].(inUse := false)], dying := t.dying - {ci});
            && Ok(u, maxSeats) && Fell(s, u, {ci} + E) && ci !in E
            && (E == {} ==> Notified(s, u, ci, maxSeats))
  {
    hide Lost, Fell, Notified, Detached, Named;
    DropDone(s, t, ci, E, maxSeats);
    DeadAlready(s, t, ci, E);
    if E == {} {
      FreeingTellsNobody(s, t, ci, maxSeats);
    }
  }

  lemma RestDistinct(s: Snap, ci: nat, maxSeats: nat)
    requires Ok(s, maxSeats) && Live(s, ci) && s.clients[ci].room != -1
    ensures Distinct(ToldOf(s, ci))
  {
    var r := s.clients[ci].room;
    RoomMembers(s, r, maxSeats);
    RestOf(s.rooms[r].members, SeatOf(s.rooms[r].members, ci));
    hide Ok;
  }

  lemma NotDying(s: Snap, ci: nat, maxSeats: nat)
    requires Ok(s, maxSeats) && Live(s, ci)
    ensures ci !in s.dying && (s.clients[ci].room != -1 ==> s.clients[ci].room !in s.leaving)
  {
    hide Named, Sound;
  }

  lemma DyingDead(s: Snap, ci: nat, maxSeats: nat)
    requires Ok(s, maxSeats) && ci in s.dying
    ensures ci < MAX_CLIENTS && s.clients[ci].dead
  {
    hide Linked, Named, Sound;
  }

  /** The drop as the tables and the streams tell it. */
  lemma DropSays(s: Snap, t: Snap, ci: nat, D: set<nat>, E: set<nat>, maxSeats: nat)
    requires Ok(s, maxSeats) && Ok(t, maxSeats) && Live(s, ci) && Fell(s, t, D) && D == {ci} + E && ci !in E
    requires E == {} ==> Notified(s, t, ci, maxSeats)
    ensures After(s, t, D) && (D == {ci} ==> E == {} && GoneTold(s, t, ci))
  {
    hide After, GoneTold, Notified, Lost;
    FellAfter(s, t, D, maxSeats);
    if D == {ci} {
      assert E == {};
      GoneSays(s, t, ci, maxSeats);
    }
  }

  lemma OneFewer(s: Snap, t: Snap, ci: nat)
    requires Sized(s) && Live(s, ci) && t.clients == s.clients[ci := s.clients[ci].(dead := true, room := -1)]
    ensures |LiveSet(t)| == |LiveSet(s)| - 1
  {
    assert LiveSet(t) == LiveSet(s) - {ci} && ci in LiveSet(s);
  }

  lemma SlotFreed(s: Snap, t: Snap, ci: nat)
    requires Sized(s) && ci < MAX_CLIENTS && s.clients[ci].dead
    requires t.clients == s.clients[ci := s.clients[ci].(inUse := false)]
    ensures LiveSet(t) == LiveSet(s)
  {
  }

  lemma OnlyMate(s: Snap, ci: nat)
    requires Sized(s) && Linked(s) && Live(s, ci)
    ensures ci in Mates(s, ci) && (s.clients[ci].room == -1 ==> ToldOf(s, ci) == [])
  {
  }

  /** The client being dropped is not among those its cascade takes. */
  lemma DeadAlready(s: Snap, t: Snap, ci: nat, E: set<nat>)
    requires Sized(s) && Linked(s) && Live(s, ci) && Lost(Detached(s, ci), t, E)
    ensures ci !in E
  {
    DetachedClients(s, ci);
    hide Detached, Fall;
  }

  /** Names of unchanged clients read the same. */
  lemma {:induction false} SameNames(clients: seq<Client>, clients': seq<Client>, m: seq<nat>, k: nat)
    requires k <= |m| <= ROSTER_SLOTS && |clients| == |clients'| && forall x :: x in m ==> x < |clients|
    requires forall i :: 0 <= i < |clients| ==> clients'[i].name == clients[i].name
    ensures Roster(clients', m, k) == Roster(clients, m, k)
    decreases k
  {
    if k > 0 {
      assert m[k - 1] in m;
      SameNames(clients, clients', m, k - 1);
    }
  }

  /** The first k of a list have been sent to, with the losses D. */
  ghost predicate Sending(s: Snap, t: Snap, to: seq<nat>, data: seq<seq<byte>>, k: nat, D: set<nat>)
    requires Sized(s) && Sized(t) && k <= |to| == |data| && forall m :: m in to ==> m < MAX_CLIENTS
  {
    && Fell(s, t, D) && D <= MatesOfAll(s, to, k)
    && (D == {} ==>
          && Quiet(s, t)
          && forall i :: 0 <= i < MAX_CLIENTS ==> Stream(t, i) == Stream(s, i) + Addressed(to, data, k, i))
  }

  lemma SendStarts(s: Snap, to: seq<nat>, data: seq<seq<byte>>)
    requires Sized(s) && |to| == |data| && forall m :: m in to ==> Live(s, m)
    ensures (forall m :: m in to ==> m < MAX_CLIENTS) && Sending(s, s, to, data, 0, {})
  {
    hide Stream, Fell;
    FellNobody(s);
    forall i | 0 <= i < MAX_CLIENTS ensures Stream(s, i) == Stream(s, i) + Addressed(to, data, 0, i) {
    }
  }

  lemma SendEnds(s: Snap, t: Snap, to: seq<nat>, data: seq<seq<byte>>, D: set<nat>)
    requires Sized(s) && Sized(t) && |to| == |data| && forall m :: m in to ==> m < MAX_CLIENTS
    requires Sending(s, t, to, data, |to|, D)
    ensures Fell(s, t, D) && D <= MatesOfAll(s, to, |to|)
    ensures D == {} ==>
              && Quiet(s, t)
              && forall i :: 0 <= i < MAX_CLIENTS ==> Stream(t, i) == Stream(s, i) + Addressed(to, data, |to|, i)
  {
    hide Stream, Fell, MatesOfAll;
  }

  lemma SendKnown(s: Snap, t: Snap, to: seq<nat>, data: seq<seq<byte>>, k: nat, D: set<nat>)
    requires Sized(s) && Sized(t) && k < |to| == |data| && forall m :: m in to ==> m < MAX_CLIENTS && Live(s, m)
    requires Sending(s, t, to, data, k, D)
    ensures to[k] < MAX_CLIENTS && (Live(t, to[k]) || (t.clients[to[k]].dead && to[k] in D))
    ensures |LiveSet(t)| <= |LiveSet(s)|
  {
    hide Stream, Quiet, MatesOfAll, Addressed;
    assert to[k] in to;
    StillKnown(s, t, D, to[k]);
    LostFewer(s, t, D);
  }

  lemma SendOn(s: Snap, t: Snap, u: Snap, to: seq<nat>, data: seq<seq<byte>>, k: nat, D: set<nat>, E: set<nat>, maxSeats: nat)
    requires Ok(s, maxSeats) && Ok(t, maxSeats) && Sized(u) && k < |to| == |data|
    requires forall m :: m in to ==> m < MAX_CLIENTS && Live(s, m)
    requires to[k] in to && Sending(s, t, to, data, k, D) && Fell(t, u, E)
    requires E <= Mates(t, to[k]) && (!Live(t, to[k]) ==> E == {})
    requires E == {} ==>
               && Quiet(t, u)
               && forall i :: 0 <= i < MAX_CLIENTS ==>
                    Stream(u, i) == Stream(t, i) + if i == to[k] && Live(t, to[k]) then data[k] else []
    ensures Sending(s, u, to, data, k + 1, D + E)
  {
    hide Stream, Quiet, Addressed, Mates, Linked, Named, Bounded, Sound, Lost;
    FellTwice(s, t, u, D, E);
    if Live(t, to[k]) {
      MatesShrink(s, t, D, to[k], maxSeats);
    }
    assert to[k] in to;
    if D + E == {} {
      SentOn(s, t, u, to, data, k);
    }
  }

  lemma SentOn(s: Snap, t: Snap, u: Snap, to: seq<nat>, data: seq<seq<byte>>, k: nat)
    requires Sized(s) && Sized(t) && Sized(u) && k < |to| == |data| && Quiet(s, t) && Quiet(t, u) && Live(s, to[k])
    requires forall i :: 0 <= i < MAX_CLIENTS ==> Stream(t, i) == Stream(s, i) + Addressed(to, data, k, i)
    requires forall i :: 0 <= i < MAX_CLIENTS ==>
               Stream(u, i) == Stream(t, i) + if i == to[k] && Live(t, to[k]) then data[k] else []
    ensures Quiet(s, u)
    ensures forall i :: 0 <= i < MAX_CLIENTS ==> Stream(u, i) == Stream(s, i) + Addressed(to, data, k + 1, i)
  {
    hide Stream;
  }

  // ---- helper laws of the handlers ---------------------------------------

  lemma {:induction false} FirstFound(names: seq<Entry>, name: Name, i: nat)
    requires i < |names| && names[i].name == name && forall j :: 0 <= j < i ==> names[j].name != name
    ensures Find(names, name) == Some(i)
    decreases |names|
  {
    if i > 0 {
      FirstFound(names[1..], name, i - 1);
    }
  }

  lemma {:induction false} CStringIs(raw: seq<byte>, n: nat)
    requires n <= |raw| && 0 !in raw[..n] && (n == |raw| || raw[n] == 0)
    ensures CString(raw) == raw[..n]
    decreases n
  {
    if n > 0 {
      assert raw[..n][0] == raw[0];
      assert raw[..n] == [raw[0]] + raw[1..][..n - 1];
      CStringIs(raw[1..], n - 1);
    }
  }

  lemma {:induction false} WithoutConcat(a: seq<Entry>, b: seq<Entry>, D: set<nat>)
    ensures Without(a + b, D) == Without(a, D) + Without(b, D)
    decreases |a|
  {
    if a == [] {
      assert a + b == b;
    } else {
      assert (a + b)[1..] == a[1..] + b;
      WithoutConcat(a[1..], b, D);
    }
  }

  lemma WithoutSnoc(a: seq<Entry>, e: Entry, D: set<nat>)
    ensures Without(a + [e], D) == Without(a, D) + if e.ci in D then [] else [e]
  {
    WithoutConcat(a, [e], D);
    assert Without([e], D) == if e.ci in D then [] else [e] by {
      assert [e][1..] == [];
    }
  }

  lemma {:induction false} LinesPrefix(clients: seq<Client>, rooms: seq<RoomSlot>, a: seq<Entry>, b: seq<Entry>, k: nat,
                                       maxSeats: nat)
    requires k <= |a| && a <= b
    ensures Lines(clients, rooms, b, k, maxSeats) == Lines(clients, rooms, a, k, maxSeats)
    decreases k
  {
    if k > 0 {
      LinesPrefix(clients, rooms, a, b, k - 1, maxSeats);
    }
  }

  lemma NoLines(clients: seq<Client>, rooms: seq<RoomSlot>, names: seq<Entry>, ci: nat, maxSeats: nat)
    requires names == []
    ensures Without(names, {ci}) == [] && Lines(clients, rooms, [], 0, maxSeats) == []
  {
  }

  lemma LinesStep(clients: seq<Client>, rooms: seq<RoomSlot>, names: seq<Entry>, k: nat, maxSeats: nat)
    requires k < |names| && names[k].ci < |clients|
    ensures Lines(clients, rooms, names, k + 1, maxSeats)
            == Lines(clients, rooms, names, k, maxSeats)
               + PadName(clients[names[k].ci].name) + [Status(clients, rooms, names[k].ci, maxSeats)]
  {
    hide PadName, Status;
  }

  lemma LiveEntry(s: Snap, i: nat, maxSeats: nat)
    requires Ok(s, maxSeats) && i < |s.byName|
    ensures Live(s, s.byName[i].ci) && s.clients[s.byName[i].ci].name == s.byName[i].name != []
  {
    OwnEntry(s, s.byName[i], maxSeats);
  }

  lemma ToldOne(s: Snap, t: Snap, ci: nat, f: seq<byte>)
    requires Sized(s) && Sized(t)
    requires forall i :: 0 <= i < MAX_CLIENTS ==> Stream(t, i) == Stream(s, i) + if i == ci then f else []
    ensures Told(s, t, [ci], f)
  {
    forall i: nat | i < MAX_CLIENTS ensures Addressed([ci], Same(1, f), 1, i) == if i == ci then f else [] {
      assert Addressed([ci], Same(1, f), 0, i) == [];
    }
    hide Stream, Addressed;
  }

  lemma LostRx(s: Snap, t: Snap, D: set<nat>)
    requires Lost(s, t, D)
    ensures Onward(s, t)
  {
  }

  lemma HelloRefused(s: Snap, t: Snap, ci: nat, D: set<nat>, maxSeats: nat)
    requires Ok(s, maxSeats) && Lost(s, t, D) && Live(s, ci) && ci in D
    requires D == {ci} ==> Notified(s, t, ci, maxSeats)
    ensures HelloDone(s, t, ci, None, D, {}) && Onward(s, t) && Greeted(s, t, ci, None, D, {}, maxSeats)
  {
  }

  lemma HelloDropped(s: Snap, t: Snap, ci: nat, name: Name, D: set<nat>, maxSeats: nat)
    requires Ok(s, maxSeats) && Lost(s, t, D) && Live(s, ci) && t.clients[ci].dead
    requires var other := Holder(s.byName, ci, name);
             && (other.None? ==> D == {})
             && (other.Some? ==> other.value < MAX_CLIENTS && other.value in D && D <= Mates(s, other.value))
    ensures HelloDone(s, t, ci, Some(name), D, {}) && Onward(s, t) && Greeted(s, t, ci, Some(name), D, {}, maxSeats)
  {
    hide Fall, Mates;
    assert ci in D;
  }

  /** The lobby as it is sent after a HELLO is the lobby as it is then. */
  lemma HelloGreets(s: Snap, u: Snap, v: Snap, t: Snap, ci: nat, name: Name, D: set<nat>, E: set<nat>, maxSeats: nat)
    requires Ok(s, maxSeats) && Lost(s, u, D) && Live(s, ci) && Live(u, ci) && Sized(v) && Sized(t)
    requires v == u.(clients := u.clients[ci := u.clients[ci].(name := name)], byName := v.byName)
    requires D == {} ==> u == s
    requires E == {} ==> Quiet(v, t) && Told(v, t, [ci], Listing(v, ci, maxSeats))
    ensures Greeted(s, t, ci, Some(name), D, E, maxSeats)
  {
    hide Listing, Lost, Told, Notified, EndsWith, Linked, Named, Bounded, Sound;
    if E == {} && ci !in D {
      var f := Listing(v, ci, maxSeats);
      QuietListing(v, t, ci, maxSeats);
      RenamedStreams(u, v);
      ToldMe(v, t, ci, f);
      StreamKept(s, u, D, ci);
      EndsWithIs(Stream(s, ci), Stream(u, ci), f);
    }
    if E == {} && D == {} {
      ToldFrom(s, v, t, [ci], Listing(v, ci, maxSeats));
    }
  }

  lemma RenamedStreams(u: Snap, v: Snap)
    requires Sized(u) && Sized(v) && v.wire == u.wire && forall i :: 0 <= i < MAX_CLIENTS ==> v.clients[i].tx == u.clients[i].tx
    ensures forall i: nat :: i < MAX_CLIENTS ==> Stream(v, i) == Stream(u, i)
  {
  }

  lemma ToldFrom(s: Snap, v: Snap, t: Snap, to: seq<nat>, f: seq<byte>)
    requires Sized(s) && Sized(v) && Sized(t) && Told(v, t, to, f)
    requires v.wire == s.wire && forall i :: 0 <= i < MAX_CLIENTS ==> v.clients[i].tx == s.clients[i].tx
    ensures Told(s, t, to, f)
  {
    RenamedStreams(s, v);
    hide Stream, Addressed;
  }

  lemma StreamKept(s: Snap, t: Snap, D: set<nat>, i: nat)
    requires Lost(s, t, D) && i < MAX_CLIENTS && i !in D
    ensures Stream(s, i) <= Stream(t, i)
  {
  }

  lemma EndsWithIs(was: seq<byte>, mid: seq<byte>, f: seq<byte>)
    requires was <= mid
    ensures EndsWith(was, mid + f, f)
  {
    assert (mid + f)[..|mid|] == mid;
  }

  lemma ToldMe(s: Snap, t: Snap, ci: nat, f: seq<byte>)
    requires Sized(s) && Sized(t) && Told(s, t, [ci], f) && ci < MAX_CLIENTS
    ensures Stream(t, ci) == Stream(s, ci) + f
  {
    assert Addressed([ci], Same(1, f), 0, ci) == [];
  }

  lemma {:induction false} SameLines(s: Snap, t: Snap, names: seq<Entry>, k: nat, maxSeats: nat)
    requires Sized(s) && Sized(t) && Quiet(s, t) && k <= |names|
    ensures Lines(t.clients, t.rooms, names, k, maxSeats) == Lines(s.clients, s.rooms, names, k, maxSeats)
    decreases k
  {
    if k > 0 {
      SameLines(s, t, names, k - 1, maxSeats);
    }
  }

  lemma QuietListing(s: Snap, t: Snap, ci: nat, maxSeats: nat)
    requires Sized(s) && Sized(t) && Quiet(s, t)
    ensures Listing(t, ci, maxSeats) == Listing(s, ci, maxSeats)
  {
    var others := Without(s.byName, {ci});
    SameLines(s, t, others, if |others| < LOBBY_ENTRIES then |others| else LOBBY_ENTRIES, maxSeats);
    hide Lines;
  }

  /** Everyone else in a client's room hears of its end. */
  lemma MateTold(s: Snap, i: nat, m: nat, maxSeats: nat)
    requires Ok(s, maxSeats) && Live(s, i) && i != m
    ensures m in Mates(s, i) <==> m in ToldOf(s, i)
  {
    var r := s.clients[i].room;
    if r != -1 {
      RoomMembers(s, r, maxSeats);
      var members := s.rooms[r].members;
      UnseatIsKeep(members, SeatOf(members, i));
      KeepMembers(members, {i}, m);
      InElements(members, m);
    }
  }

  lemma HelloNameLong(payload: seq<byte>)
    ensures HelloName(payload).Some? ==> HelloName(payload).value != []
  {
  }

  lemma HelloFinish(s: Snap, u: Snap, v: Snap, t: Snap, ci: nat, name: Name, D: set<nat>, E: set<nat>)
    requires Lost(s, u, D) && Lost(v, t, E) && (E == {} || ci in E) && Live(s, ci) && Live(u, ci)
    requires var other := Holder(s.byName, ci, name);
             && (other.None? ==> D == {})
             && (other.Some? ==> other.value < MAX_CLIENTS && other.value in D && D <= Mates(s, other.value))
    requires v == u.(clients := u.clients[ci := u.clients[ci].(name := name)], byName := v.byName)
    requires ViewOf(v) == ViewOf(u).(names := Renamed(u.byName, ci, u.clients[ci].name, name))
    ensures HelloDone(s, t, ci, Some(name), D, E) && Onward(s, t)
  {
    hide Fall, Mates, Renamed, Holder;
    assert ViewOf(u).names == u.byName && ci !in D;
  }

  /** After the older holder is gone nobody else has the name. */
  lemma NobodyElse(s: Snap, t: Snap, D: set<nat>, ci: nat, name: Name, maxSeats: nat)
    requires Ok(s, maxSeats) && Lost(s, t, D)
    requires Holder(s.byName, ci, name).Some? ==> Holder(s.byName, ci, name).value in D
    ensures forall e :: e in t.byName && e.name == name ==> e.ci == ci
  {
    forall e | e in t.byName && e.name == name ensures e.ci == ci {
      assert ViewOf(t).names == t.byName;
      WithoutHas(s.byName, D, e);
      FindEntry(s.byName, e);
    }
  }

  /** A named client's entry is found under its name. */
  lemma OwnName(s: Snap, ci: nat, maxSeats: nat)
    requires Ok(s, maxSeats) && Live(s, ci) && s.clients[ci].name != []
    ensures var f := Find(s.byName, s.clients[ci].name); f.Some? && s.byName[f.value].ci == ci
    ensures Unique(s.byName)
  {
    assert Unique(ViewOf(s).names);
    FindEntry(s.byName, Entry(s.clients[ci].name, ci));
  }

  // ---- helper laws of joining --------------------------------------------

  lemma FreeSlot(s: Snap, a: nat, b: nat, maxSeats: nat)
    requires Ok(s, maxSeats) && s.leaving == {} && Live(s, a) && Live(s, b) && a != b
    requires s.clients[a].room == -1 && s.clients[b].room == -1
    ensures exists r :: 0 <= r < MAX_ROOMS && !s.rooms[r].used
  {
    var v := ViewOf(s);
    forall r | 0 <= r < MAX_ROOMS && v.rooms[r].Some?
      ensures a !in v.rooms[r].value.members && b !in v.rooms[r].value.members
    {
      assert v.rooms[r] == RoomAt(s, r);
      RoomMembers(s, r, maxSeats);
    }
    RoomIsFree(v, maxSeats, a, b);
    var r :| 0 <= r < MAX_ROOMS && v.rooms[r].None?;
    assert v.rooms[r] == RoomAt(s, r);
  }

  lemma JoinableRoom(s: Snap, target: nat, maxSeats: nat)
    requires Ok(s, maxSeats) && s.leaving == {} && Live(s, target) && Joinable(s, target, maxSeats)
    ensures s.clients[target].room == -1 ==> Seats(s, target) == [target]
    ensures s.clients[target].room != -1 ==>
              var r := s.clients[target].room;
              && 0 <= r < MAX_ROOMS && RoomAt(s, r).Some? && Seats(s, target) == s.rooms[r].members
              && !s.rooms[r].started && |s.rooms[r].members| < maxSeats
              && forall m :: m in s.rooms[r].members ==> Live(s, m) && s.clients[m].room == r
  {
    if s.clients[target].room != -1 {
      RoomMembers(s, s.clients[target].room, maxSeats);
    }
  }

  lemma JoinRefused(s: Snap, t: Snap, D: set<nat>)
    requires Lost(s, t, D)
    ensures ViewOf(t) == Fall(ViewOf(s), D) && Onward(s, t) && D <= LiveSet(s)
  {
  }

  lemma OutsideRooms(s: Snap, ci: nat, maxSeats: nat)
    requires Ok(s, maxSeats) && Live(s, ci) && s.clients[ci].room < 0
    ensures s.clients[ci].room == -1
  {
  }

  lemma JoinAnnounced(s: Snap, u: Snap, t: Snap, D: set<nat>, r: nat)
    requires Sized(s) && Lost(u, t, D) && Onward(s, u) && LiveSet(u) == LiveSet(s)
    ensures ViewOf(t) == Fall(ViewOf(u), D) && Onward(s, t) && D <= LiveSet(s)
  {
  }

  /** What the tables say of a room after an announcement. */
  lemma RoomLater(s: Snap, t: Snap, D: set<nat>, r: nat, maxSeats: nat)
    requires Ok(s, maxSeats) && Ok(t, maxSeats) && Lost(s, t, D) && t.leaving == {} && r < MAX_ROOMS
    ensures var v := Fall(ViewOf(s), D);
            && |v.rooms| == MAX_ROOMS
            && (v.rooms[r].Some? <==> RoomAt(t, r).Some?)
            && (v.rooms[r].Some? ==> v.rooms[r].value.members == t.rooms[r].members)
            && (v.rooms[r].None? ==> t.rooms[r].members == [])
  {
    assert ViewOf(t).rooms[r] == RoomAt(t, r);
  }

  lemma JoinStarted(s: Snap, u: Snap, t: Snap, w: Snap, D: set<nat>, E: set<nat>, r: nat, maxSeats: nat)
    requires Sized(s) && Sized(w) && Lost(u, t, D) && Onward(s, t) && Onward(t, w) && r < MAX_ROOMS && Started(t, w, r, E)
    ensures Onward(s, w) && ViewOf(w) == Fall(Seated(Fall(ViewOf(u), D), r, Room(true, t.rooms[r].members)), E)
    ensures E <= LiveSet(s)
  {
  }

  lemma StartDone(s: Snap, u: Snap, t: Snap, r: nat, E: set<nat>)
    requires Sized(s) && r < MAX_ROOMS && u == s.(rooms := u.rooms) && Lost(u, t, E)
    requires ViewOf(u) == Seated(ViewOf(s), r, Room(true, s.rooms[r].members))
    ensures Started(s, t, r, E) && Onward(s, t)
  {
    assert LiveSet(u) == LiveSet(s);
  }

  lemma SeatZero(m: seq<nat>, ci: nat)
    requires ci in m
    ensures SeatOf(m, ci) == 0 <==> m[0] == ci
  {
  }

  /** The automatic start of a match nobody has been lost from yet. */
  lemma JoinThenStart(s: Snap, u: Snap, t: Snap, w: Snap, m: seq<nat>, seed: word, c: Rules)
    requires Sized(s) && Sized(u) && Sized(t) && Sized(w) && SameWire(s, u) && Quiet(u, t)
    requires |m| <= ROSTER_SLOTS && (forall x :: x in m ==> x < MAX_CLIENTS) && c.autoGo > 0 && |m| >= c.autoGo
    requires Told(s, t, m, RoomFrame(s.clients, m))
    requires forall i: nat :: i < MAX_CLIENTS ==>
               Stream(w, i) == Stream(t, i) + Addressed(m, StartFrames(t.clients, m, seed, c.delay), |m|, i)
    ensures forall i: nat :: i < MAX_CLIENTS ==>
              Stream(w, i) == Stream(s, i) + Addressed(m, Same(|m|, RoomFrame(s.clients, m)), |m|, i)
                              + Starting(s, m, seed, c, i)
  {
    SameStarts(s.clients, t.clients, m, seed, c.delay);
    hide StartFrames, Addressed, Stream, RoomFrame, Same;
  }

  lemma SameStarts(clients: seq<Client>, clients': seq<Client>, m: seq<nat>, seed: word, delay: byte)
    requires |m| <= ROSTER_SLOTS && |clients| == |clients'| && forall x :: x in m ==> x < |clients|
    requires forall i :: 0 <= i < |clients| ==> clients'[i].name == clients[i].name
    ensures StartFrames(clients', m, seed, delay) == StartFrames(clients, m, seed, delay)
  {
    SameNames(clients, clients', m, |m|);
    assert PaddedRoster(clients', m) == PaddedRoster(clients, m);
    hide PaddedRoster, FrameOf;
  }

  lemma JoinWaits(s: Snap, t: Snap, m: seq<nat>, c: Rules)
    requires Sized(s) && Sized(t) && |m| <= ROSTER_SLOTS && forall x :: x in m ==> x < MAX_CLIENTS
    requires !(c.autoGo > 0 && |m| >= c.autoGo) && Told(s, t, m, RoomFrame(s.clients, m))
    ensures forall i: nat :: i < MAX_CLIENTS ==>
              Stream(t, i) == Stream(s, i) + Addressed(m, Same(|m|, RoomFrame(s.clients, m)), |m|, i)
                              + Starting(s, m, 0, c, i)
  {
    hide Addressed, Stream, RoomFrame;
  }

  lemma PongSent(s: Snap, t: Snap, ci: nat, D: set<nat>)
    requires Lost(s, t, D)
    requires D == {} ==> Quiet(s, t) && forall i :: 0 <= i < MAX_CLIENTS ==>
               Stream(t, i) == Stream(s, i) + if i == ci then FrameOf(T_PONG, []) else []
    ensures SentOut(s, t, D, [ci], FrameOf(T_PONG, []))
  {
    if D == {} {
      ToldOne(s, t, ci, FrameOf(T_PONG, []));
    }
    hide Stream;
  }

  lemma AnnouncedTo(s: Snap, u: Snap, t: Snap, m: seq<nat>)
    requires Sized(s) && Sized(u) && Sized(t) && SameWire(s, u) && |m| <= ROSTER_SLOTS
    requires (forall x :: x in m ==> x < MAX_CLIENTS) && Told(u, t, m, RoomFrame(u.clients, m))
    ensures Told(s, t, m, RoomFrame(s.clients, m))
  {
    SameNames(s.clients, u.clients, m, |m|);
    assert forall i: nat :: i < MAX_CLIENTS ==> Stream(u, i) == Stream(s, i);
  }

  // ---- helper laws of dispatch -------------------------------------------

  lemma NobodyAddressed(s: Snap, f: seq<byte>)
    requires Sized(s)
    ensures Told(s, s, [], f)
  {
    forall i: nat | i < MAX_CLIENTS ensures Stream(s, i) == Stream(s, i) + Addressed([], Same(0, f), 0, i) {
    }
  }

  lemma OwnRoom(s: Snap, ci: nat, maxSeats: nat)
    requires Ok(s, maxSeats) && Live(s, ci)
    ensures var r := s.clients[ci].room;
            r == -1 || (&& 0 <= r < MAX_ROOMS && ci in s.rooms[r].members
                        && var rest := Unseat(s.rooms[r].members, SeatOf(s.rooms[r].members, ci));
                           forall m :: m in rest ==> Live(s, m))
  {
    if s.clients[ci].room != -1 {
      RoomMembers(s, s.clients[ci].room, maxSeats);
    }
  }

  lemma SentToAll(s: Snap, t: Snap, to: seq<nat>, f: seq<byte>, D: set<nat>)
    requires Sized(s) && Sized(t)
    requires D == {} ==> forall i :: 0 <= i < MAX_CLIENTS ==>
               Stream(t, i) == Stream(s, i) + Addressed(to, Same(|to|, f), |to|, i)
    ensures D == {} ==> Told(s, t, to, f)
  {
  }

  lemma LostFrozen(s: Snap, t: Snap, D: set<nat>)
    requires Lost(s, t, D)
    ensures Onward(s, t) && Frozen(ViewOf(s), ViewOf(t))
  {
    FallFrozen(ViewOf(s), D);
    LostRx(s, t, D);
  }

  lemma HelloFrozen(s: Snap, t: Snap, ci: nat, name: Option<Name>, D: set<nat>, E: set<nat>)
    requires Sized(s) && Sized(t) && Live(s, ci) && HelloDone(s, t, ci, name, D, E)
    ensures Frozen(ViewOf(s), ViewOf(t))
  {
    FallFrozen(ViewOf(s), D);
    var w := Fall(ViewOf(s), D);
    if name.Some? && ci !in D {
      var u := w.(names := Renamed(w.names, ci, s.clients[ci].name, name.value));
      FallFrozen(u, E);
      hide Fall, Mates, Renamed;
      FallNone(u, E);
      FrozenTwice(ViewOf(s), u, ViewOf(t));
    }
  }

  lemma FallNone(v: View, D: set<nat>)
    ensures |Fall(v, D).rooms| == |v.rooms| && forall r :: 0 <= r < |v.rooms| && v.rooms[r].None? ==> Fall(v, D).rooms[r].None?
  {
  }

  /** Seating a room that was not started, then any losses. */
  lemma SeatedFrozen(v: View, r: nat, room: Room, D: set<nat>)
    requires r < |v.rooms| && (v.rooms[r].Some? ==> !v.rooms[r].value.started)
    ensures Frozen(v, Fall(Seated(v, r, room), D))
  {
    FallFrozen(Seated(v, r, room), D);
  }

  lemma GoFrozen(s: Snap, t: Snap, ci: nat, E: set<nat>, maxSeats: nat)
    requires Sized(s) && Sized(t) && Live(s, ci) && GoDone(s, t, ci, E, maxSeats)
    ensures Frozen(ViewOf(s), ViewOf(t))
  {
    var r := s.clients[ci].room;
    if t != s {
      SeatedFrozen(ViewOf(s), r, Room(true, s.rooms[r].members), E);
    }
  }

  lemma JoinFrozen(s: Snap, t: Snap, ci: nat, payload: seq<byte>, D: set<nat>, E: set<nat>, r: nat, maxSeats: nat,
                   autoGo: nat)
    requires Sized(s) && Sized(t) && Live(s, ci) && JoinDone(s, t, ci, payload, D, E, r, maxSeats, autoGo)
    ensures Frozen(ViewOf(s), ViewOf(t))
  {
    FallFrozen(ViewOf(s), D);
    var want := Wanted(s, ci, RStrip(payload), maxSeats);
    if s.clients[ci].name != [] && s.clients[ci].room == -1 && want.Some? {
      var u := Seated(ViewOf(s), r, Room(false, Seats(s, want.value) + [ci]));
      var v := Fall(u, D);
      JoinedForming(s, ci, want.value, r, maxSeats);
      SeatedFrozen(ViewOf(s), r, Room(false, Seats(s, want.value) + [ci]), D);
      FallForming(u, D, r);
      if v.rooms[r].Some? {
        SeatedTwice(ViewOf(s), v, r, Room(true, v.rooms[r].value.members), E);
      }
    }
  }

  lemma JoinedForming(s: Snap, ci: nat, target: nat, r: nat, maxSeats: nat)
    requires Sized(s) && target < MAX_CLIENTS && JoinedRoom(s, ci, target, r) && Joinable(s, target, maxSeats)
    ensures |ViewOf(s).rooms| == MAX_ROOMS && (ViewOf(s).rooms[r].Some? ==> !ViewOf(s).rooms[r].value.started)
  {
    assert ViewOf(s).rooms[r] == RoomAt(s, r);
  }

  lemma FallForming(v: View, D: set<nat>, r: nat)
    requires r < |v.rooms| && v.rooms[r].Some? && !v.rooms[r].value.started
    ensures var w := Fall(v, D);
            |w.rooms| == |v.rooms| && (w.rooms[r].Some? ==> !w.rooms[r].value.started)
  {
  }

  lemma SeatedTwice(u: View, v: View, r: nat, room: Room, E: set<nat>)
    requires Frozen(u, v) && r < |v.rooms| && (v.rooms[r].Some? ==> !v.rooms[r].value.started)
    requires u.rooms[r].Some? ==> !u.rooms[r].value.started
    ensures Frozen(u, Fall(Seated(v, r, room), E))
  {
    FallFrozen(Seated(v, r, room), E);
    FallNone(Seated(v, r, room), E);
  }

  lemma RxOk(s: Snap, ci: nat, rx: seq<byte>, maxSeats: nat)
    requires Ok(s, maxSeats) && Live(s, ci) && |rx| <= RelayState.RX_CAP
    ensures var t := s.(clients := s.clients[ci := s.clients[ci].(rx := rx)]);
            Ok(t, maxSeats) && LiveSet(t) == LiveSet(s) && ViewOf(t) == ViewOf(s)
  {
    var t := s.(clients := s.clients[ci := s.clients[ci].(rx := rx)]);
    assert LiveSet(t) == LiveSet(s);
    assert forall i :: Live(t, i) <==> Live(s, i);
    assert ViewOf(t).rooms == ViewOf(s).rooms;
    assert Linked(t) && Named(t) && Bounded(t);
  }

  // ---- helper laws of feed -----------------------------------------------

  lemma UnreadShort(rx: seq<byte>)
    requires Unread(rx)
    ensures |rx| <= 200
  {
  }

  lemma NothingUnread(rx: seq<byte>)
    requires rx == [] || (!Framing.BadLength(rx[0]) && |rx| < 1 + rx[0] as int)
    ensures Unread(rx)
  {
    Framing.ParseStep(rx);
  }

  lemma BadEnds(whole: Framing.Fed, done: seq<seq<byte>>, rx: seq<byte>, later: seq<byte>)
    requires rx != [] && Framing.BadLength(rx[0]) && Continues(whole, done, Framing.Parse(rx + later))
    ensures done == whole.bodies && whole.bad
  {
    Framing.ParseStep(rx + later);
    assert done + [] == done;
  }

  lemma OneMore(whole: Framing.Fed, done: seq<seq<byte>>, rx: seq<byte>, later: seq<byte>)
    requires Framing.Complete(rx) && Continues(whole, done, Framing.Parse(rx + later))
    ensures Continues(whole, done + [Framing.Body(rx)], Framing.Parse(Framing.After(rx) + later))
  {
    Framing.HeadOfBoth(rx, later);
    Framing.ParseStep(rx + later);
    hide Framing.Parse, Framing.Body, Framing.After, Framing.Complete;
    var q := Framing.Parse(Framing.After(rx) + later);
    assert done + ([Framing.Body(rx)] + q.bodies) == done + [Framing.Body(rx)] + q.bodies;
  }

  lemma HandledSoFar(whole: Framing.Fed, done: seq<seq<byte>>, left: Framing.Fed)
    requires Continues(whole, done, left)
    ensures done <= whole.bodies
  {
  }

  lemma NobodyMoved(s: Snap, ci: nat)
    requires Sized(s)
    ensures OthersRx(s, s, ci)
  {
  }

  lemma OnlyOwnRx(s: Snap, t: Snap, u: Snap, ci: nat)
    requires Sized(s) && Sized(t) && ci < MAX_CLIENTS && OthersRx(s, t, ci)
    requires |u.clients| == MAX_CLIENTS && u == t.(clients := t.clients[ci := t.clients[ci].(rx := u.clients[ci].rx)])
    ensures Refilled(t, u, ci) && OthersRx(s, u, ci)
  {
  }

  lemma ServedIs(h: Handling, ci: nat, c: Rules)
    requires Ok(h.before, c.maxSeats) && Sized(h.after) && Live(h.before, ci) && 1 <= |h.body| <= 200
    requires HandleDone(h.before, h.after, ci, h.body, h.outcome, c) && Onward(h.before, h.after)
    ensures Served(h, ci, c)
  {
  }

  lemma DropIs(s: Snap, t: Snap, ci: nat, D: set<nat>, maxSeats: nat)
    requires Ok(s, maxSeats) && Live(s, ci) && Lost(s, t, D) && ci in D
    requires D == {ci} ==> Notified(s, t, ci, maxSeats)
    ensures Dropped(s, t, ci, D, maxSeats)
  {
  }

  /** A client that did not live through its feed. */
  lemma LostSome(s: Snap, t: Snap, u: Snap, ci: nat, D: set<nat>, maxSeats: nat)
    requires Sized(s) && Sized(t) && Sized(u) && Live(s, ci) && !Live(u, ci) && LiveSet(t) <= LiveSet(s)
    requires u == t || Dropped(t, u, ci, D, maxSeats)
    ensures LiveSet(u) <= LiveSet(s) && LiveSet(u) != LiveSet(s)
  {
    assert ci in LiveSet(s) && ci !in LiveSet(u);
    if u != t {
      assert ViewOf(u).live == LiveSet(t) - D;
    }
  }

  lemma DropRx(s: Snap, t: Snap, ci: nat, D: set<nat>)
    requires Lost(s, t, D) && ci in D && ci < MAX_CLIENTS
    ensures OthersRx(s, t, ci) && !Live(t, ci) && t.clients[ci].dead
  {
  }

  lemma HandledRx(s: Snap, t: Snap, u: Snap, ci: nat, rx: seq<byte>)
    requires Sized(s) && Sized(t) && Sized(u) && Live(s, ci) && Onward(t, u)
    requires t == s.(clients := s.clients[ci := s.clients[ci].(rx := rx)])
    ensures OthersRx(s, u, ci) && u.clients[ci].rx == rx && (Live(u, ci) || u.clients[ci].dead)
  {
    assert Live(t, ci);
  }

  lemma OthersLater(s: Snap, t: Snap, u: Snap, ci: nat)
    requires Sized(s) && Sized(t) && Sized(u) && OthersRx(s, t, ci) && OthersRx(t, u, ci)
    ensures OthersRx(s, u, ci)
  {
  }

  lemma RxBound(s: Snap, ci: nat, maxSeats: nat)
    requires Ok(s, maxSeats) && ci < MAX_CLIENTS
    ensures |s.clients[ci].rx| <= RelayState.RX_CAP
  {
  }

  lemma AcceptOk(s: Snap, r: nat, maxSeats: nat)
    requires Ok(s, maxSeats) && r < MAX_CLIENTS && !s.clients[r].inUse
    ensures var t := s.(clients := s.clients[r := Client(true, false, [], -1, [], [])], wire := s.wire[r := []]);
            Ok(t, maxSeats) && ViewOf(t) == ViewOf(s).(live := ViewOf(s).live + {r})
  {
    var t := s.(clients := s.clients[r := Client(true, false, [], -1, [], [])], wire := s.wire[r := []]);
    assert LiveSet(t) == LiveSet(s) + {r};
    assert ViewOf(t).rooms == ViewOf(s).rooms;
    assert Linked(t) && Named(t) && Bounded(t);
    AcceptSound(ViewOf(s), r, maxSeats);
  }

  lemma AcceptSound(v: View, r: nat, maxSeats: nat)
    requires Sound(v, maxSeats)
    ensures Sound(v.(live := v.live + {r}), maxSeats)
  {
    var w := v.(live := v.live + {r});
    forall q | 0 <= q < |w.rooms| ensures RoomOk(w, q, maxSeats) {
      assert RoomOk(v, q, maxSeats);
    }
  }

  /** Every frame the relay originates passes the console's framing check. */
  lemma OwnFramesPlausible(clients: seq<Client>, m: seq<nat>, seat: nat, seed: word, delay: byte, name: Name,
                           s: Snap, ci: nat, maxSeats: nat)
    requires |m| <= ROSTER_SLOTS && seat < |m| && (forall x :: x in m ==> x < |clients|) && Sized(s)
    ensures var f := StartFrame(clients, m, seat, seed, delay); Frames.Plausible(f[0], f[1]) && |f| == Frames.Total(f[0])
    ensures var f := RoomFrame(clients, m); Frames.Plausible(f[0], f[1]) && |f| == Frames.Total(f[0])
    ensures var f := Dissolution(); Frames.Plausible(f[0], f[1]) && |f| == Frames.Total(f[0])
    ensures var f := PeerLeft(seat, name); Frames.Plausible(f[0], f[1]) && |f| == Frames.Total(f[0])
    ensures var f := FrameOf(T_PONG, []); Frames.Plausible(f[0], f[1]) && |f| == Frames.Total(f[0])
    ensures var f := Listing(s, ci, maxSeats); Frames.Plausible(f[0], f[1]) && |f| == Frames.Total(f[0])
  {
    hide Roster, Lines, Without, PadName;
  }

  // ---- a caller dropped by its own HELLO -----------------------------------

  const AA: Name := [0x41, 0x41]
  const BB: Name := [0x42, 0x42]

  /** Client 0, named AA, has joined client 1, named BB. */
  function Pair(): Snap {
    Snap(seq(MAX_CLIENTS, i => if i == 0 then Client(true, false, AA, 0, [], [])
                               else if i == 1 then Client(true, false, BB, 0, [], [])
                               else Client(false, false, [], -1, [], [])),
         seq(MAX_ROOMS, i => if i == 0 then RoomSlot(true, false, [1, 0]) else RoomSlot(false, false, [])),
         [Entry(AA, 0), Entry(BB, 1)], seq(MAX_CLIENTS, i => []), {}, {})
  }

  lemma PairOk()
    ensures Ok(Pair(), 2) && LiveSet(Pair()) == {0, 1}
  {
    hide Linked, Named, Bounded, Sound, ViewOf, LiveSet;
    PairLinked();
    PairSound();
    LinkedDisjoint(Pair());
    SoundIs(ViewOf(Pair()), 2);
  }

  lemma SoundIs(v: View, maxSeats: nat)
    requires (forall r :: 0 <= r < |v.rooms| ==> RoomOk(v, r, maxSeats)) && Disjoint(v) && NamesOk(v)
    ensures Sound(v, maxSeats)
  {
  }

  lemma PairLinked()
    ensures Sized(Pair()) && Linked(Pair()) && Named(Pair()) && Bounded(Pair())
  {
    var s := Pair();
    assert s.rooms[0].members[0] == 1 && s.rooms[0].members[1] == 0;
    assert s.byName[0] == Entry(AA, 0) && s.byName[1] == Entry(BB, 1);
  }

  lemma PairSound()
    ensures var v := ViewOf(Pair());
            (forall r :: 0 <= r < |v.rooms| ==> RoomOk(v, r, 2)) && NamesOk(v)
    ensures LiveSet(Pair()) == {0, 1}
  {
    var s := Pair();
    var v := ViewOf(s);
    assert LiveSet(s) == {0, 1};
    forall r | 0 <= r < |v.rooms| ensures RoomOk(v, r, 2) {
      assert v.rooms[r] == RoomAt(s, r);
      assert r != 0 ==> v.rooms[r].None?;
    }
  }

  lemma PairShares()
    ensures Sized(Pair()) && Live(Pair(), 0) && Live(Pair(), 1) && Shares(Pair(), 0, BB)
    ensures HelloName([2] + BB) == Some(BB)
  {
    var s := Pair();
    assert s.byName[1..][0] == Entry(BB, 1);
    assert Find(s.byName[1..], BB) == Some(0);
    assert RoomAt(s, 0).Some? && s.rooms[0].members[1] == 0;
    InElements(s.rooms[0].members, 0);
    assert ([2] + BB)[1..] == BB;
    assert RStrip(BB) == BB;
  }

  /** What the comment in on_hello rules out does happen: the caller takes the
      name of a client in its own room, the first send fails, and that send told
      the caller of the other's end. */
  method CallerFalls() returns (server: Server, ghost D: set<nat>)
    ensures fresh(server) && server.Settled()
    ensures Ok(Pair(), 2) && Live(Pair(), 0) && Live(Pair(), 1) && Shares(Pair(), 0, BB)
    ensures HelloDone(Pair(), server.Snapshot(), 0, Some(BB), D, {}) && D == {0, 1}
  {
    hide Pair, HelloName, HelloDone, Greeted, Shares, LiveSet, Linked, Named, Bounded, Sound;
    PairOk();
    PairShares();
    server := Paired();
    ghost var s, E := Pair(), {};
    D, E := server.OnHello(0, [2] + BB);
    BothFell(s, server.Snapshot(), D, E);
  }

  /** A server with that pair, on a network whose next send fails. */
  method Paired() returns (server: Server)
    ensures fresh(server) && server.Settled() && server.Snapshot() == Pair()
    ensures server.Failing(server.Alive() - 1)
  {
    hide Ok;
    PairOk();
    server := new Server(2, 0, 3, [-2], []);
    var p := Pair();
    hide Pair;
    server.clients, server.rooms, server.byName, server.wire := p.clients, p.rooms, p.byName, p.wire;
  }

  lemma BothFell(s: Snap, t: Snap, D: set<nat>, E: set<nat>)
    requires Sized(s) && Sized(t) && Live(s, 0) && LiveSet(s) == {0, 1} && Shares(s, 0, BB)
    requires HelloDone(s, t, 0, Some(BB), D, E) && 0 in D
    ensures D == {0, 1} && E == {}
  {
    hide ViewOf, Fall, Mates, Linked;
    var other := Holder(s.byName, 0, BB);
    assert other.value in D && other.value != 0;
  }
}
