/** Where the relay's announcements meet the console: the START it sends each
    member of a room of two is the one a console begins a match on. */
module Handover {
  import opened Words
  import opened Lobby
  import opened RelayState
  import opened Wording
  import GameState
  import Ideal
  import Console16
  import Frames
  import Receiver
  import Machine

  /** A START off the relay is a frame, and what a console powered on needs. */
  predicate Begins(f: seq<byte>, k: nat, delay: byte) {
    && |f| == 39 == Frames.Total(f[0]) && f[1] == Frames.FT_START && f[2] == k && f[3] == Console16.SEATS && f[6] == delay
    && Machine.FrameBuffer(f) && Receiver.ParseStream(f) == Receiver.Parse([f], 0, [])
  }

  lemma StartBegins(f: seq<byte>, clients: seq<Client>, m: seq<nat>, k: nat, seed: word, delay: byte)
    requires IsStart(f, clients, m, k, seed, delay) && |m| == 2 && k < 2
    ensures Begins(f, k, delay)
  {
    hide RosterAt;
    assert f[39..] == [] && f[..39] == f;
    assert Receiver.ParseStream(f[39..]) == Receiver.Parse([], 0, []);
    assert [f] + [] == [f];
  }

  /** A console that hears it is in that seat, under that delay, at tick 0, and
      its state differs by the seed alone. */
  lemma StartHeard(f: seq<byte>, clients: seq<Client>, m: seq<nat>, k: nat, seed: word, delay: byte, u: Machine.Unit)
    requires IsStart(f, clients, m, k, seed, delay) && |m| == 2 && k < 2
    ensures Begins(f, k, delay)
    ensures var (v, out) := Machine.OnFrame16(u, f);
            && Console16.SeatNo(v.seat) == k && v.d == delay && v.con.tick == 0 && out == []
            && v.con.sim[755] == seed % 0x100 && v.con.sim[756] == seed / 0x100
            && (forall i :: 0 <= i < GameState.IMG_TOTAL && i != 755 && i != 756 ==> v.con.sim[i] == u.con.sim[i])
  {
    StartBegins(f, clients, m, k, seed, delay);
    hide RosterAt, Receiver.ParseStream;
  }

  /** A room of two started with nobody lost: the host is sent a START for seat 0
      and the guest one for seat 1, with the same delay and the same seed. */
  lemma StartedTogether(s: Snap, t: Snap, m: seq<nat>, seed: word, delay: byte)
    requires Sized(s) && Sized(t) && |m| == 2 && SeatStarted(s, t, m, seed, delay)
    ensures m[0] < MAX_CLIENTS && m[1] < MAX_CLIENTS
    ensures var f, g := Added(s, t, m[0]), Added(s, t, m[1]);
            && Begins(f, 0, delay) && Begins(g, 1, delay)
            && f[4] == g[4] == seed % 0x100 && f[5] == g[5] == seed / 0x100
  {
    hide RosterAt, Stream, Begins, Added;
    StartBegins(Added(s, t, m[0]), s.clients, m, 0, seed, delay);
    StartBegins(Added(s, t, m[1]), s.clients, m, 1, seed, delay);
  }

  /** PEER_LEFT ends a console's match. */
  lemma PeerLeftHeard(f: seq<byte>, seat: nat, name: Name, u: Machine.Unit)
    requires IsPeerLeft(f, seat, name)
    ensures Machine.FrameBuffer(f) && Machine.OnFrame16(u, f).0.dropped
    ensures Receiver.ParseStream(f) == Receiver.Parse([f], 0, [])
  {
    hide NameAt;
    assert f[11..] == [] && f[..11] == f;
    assert Receiver.ParseStream(f[11..]) == Receiver.Parse([], 0, []);
    assert [f] + [] == [f];
  }
}
