/** Why 127: with any larger delay some fault-free schedule laps the ring, and a
    tick reads a cell sent for another. */
module RingBound {
  import opened Words
  import opened GameState
  import opened Wire
  import opened Ideal
  import opened Captures
  import opened IdealInvariant
  import opened History
  import opened IdealRuns
  import opened Console16
  import opened Refinement
  import opened Lockstep
  import Frames
  import Channel
  import Receiver
  import Tightness

  /** At an open gate the slots read are the cells captured for that tick and the
      one before. */
  ghost predicate ReadsRight(cfg: Config, sim: Sim, acts: seq<Action>, seat: Seat)
    requires cfg.d >= 1
  {
    var s, t := Run(cfg, Start(cfg, sim), acts), Run16(cfg, Start16(cfg, sim), acts);
    var c := Get16(t, seat);
    c.gate && Open16(c) ==> Holds(cfg, sim, acts, c, Epoch(0, 0), Get(s, seat).tick)
  }

  /** The cell the guest keeps sending. */
  const PRESSED := Cell(0, 1)

  function Setup(d: nat): Config {
    Tightness.Setup(d)
  }

  // ---- the guest runs ahead --------------------------------------------------

  /** Everything the guest has sent after n ticks. */
  function Sent(d: nat, n: nat, crc: word): seq<Frame16> {
    if n == 0 then []
    else
      Sent(d, n - 1, crc) + [Input16(1, Wrap(n - 1 + d), PRESSED)]
      + if (n - 1) % 64 == 0 then [Crc16(1, Wrap(n - 1), crc)] else []
  }

  function Ahead(n: nat): seq<Action> {
    if n == 0 then [] else Ahead(n - 1) + [Go(Guest, 0, PRESSED), Go(Guest, 0, PRESSED)]
  }

  function Blank(): Sim {
    Tightness.Blank()
  }

  /** The guest stands before its tick n, having heard nothing. */
  predicate Ran(d: nat, n: nat, t: System16) {
    && t.host == Start16(Setup(d), Blank()).host
    && t.down == [] && t.downAcc == 0 && t.upAcc == 0
    && t.up == Sent(d, n, Checksum(Blank()))
    && t.guest.tick == Wrap(n) && !t.guest.gate && !t.guest.hold && !t.guest.pend && t.guest.sim == Blank()
    && t.guest.wm == d - 1
  }

  /** ... or at its gate, having captured. */
  predicate Stood(d: nat, n: nat, t: System16) {
    && t.host == Start16(Setup(d), Blank()).host
    && t.down == [] && t.downAcc == 0 && t.upAcc == 0
    && t.up == Sent(d, n, Checksum(Blank())) + [Input16(1, Wrap(n + d), PRESSED)]
    && t.guest.tick == Wrap(n) && t.guest.gate && !t.guest.hold && !t.guest.pend && t.guest.sim == Blank()
    && t.guest.wm == d - 1
  }

  lemma EmptyPump(d: nat, t: System16, seat: Seat)
    requires Inbound16(t, seat) == [] && Buffered16(t, seat) == 0
    ensures Pump16(d, t, seat, 0) == t
  {
  }

  /** A pass with nothing to read. */
  lemma StepCaptures(cfg: Config, t: System16, seat: Seat, cell: Cell)
    requires !Get16(t, seat).gate && !Get16(t, seat).hold && Inbound16(t, seat) == [] && Buffered16(t, seat) == 0
    ensures Step16(cfg, t, Go(seat, 0, cell)) == Emit16(t, seat, Capture16(cfg.d, seat, Get16(t, seat), cell))
  {
    EmptyPump(cfg.d, t, seat);
    hide Pump16, Capture16, Emit16;
  }

  lemma Captured(d: nat, seat: Seat, c: Con16, cell: Cell)
    ensures var (c', out) := Capture16(d, seat, c, cell);
            && c'.tick == c.tick && c'.gate && c'.hold == c.hold && c'.pend == c.pend && c'.sim == c.sim && c'.wm == c.wm
            && out == [Input16(SeatNo(seat), Wrap(c.tick + d), cell)]
  {
  }

  lemma CapturesAhead(d: nat, n: nat, t: System16)
    requires 1 <= d <= 255 && n <= d && Ran(d, n, t)
    ensures Stood(d, n, Step16(Setup(d), t, Go(Guest, 0, PRESSED)))
  {
    hide Sent, Start16, Blank, Step16, Capture16, Checksum;
    StepCaptures(Setup(d), t, Guest, PRESSED);
    Captured(d, Guest, t.guest, PRESSED);
    assert Wrap(Wrap(n) + d) == Wrap(n + d);
  }

  lemma Played(d: nat, n: nat, c: Con16)
    requires 1 <= d <= 255 && n < d && c.tick == Wrap(n) && c.gate && !c.pend && c.sim == Blank() && c.wm == d - 1
    ensures Open16(c)
    ensures var (c', out) := PlayAndPend16(Setup(d), Guest, c);
            && c'.tick == Wrap(n + 1) && !c'.gate && c'.hold == c.hold && !c'.pend && c'.sim == Blank() && c'.wm == d - 1
            && out == if n % 64 == 0 then [Crc16(1, Wrap(n), Checksum(Blank()))] else []
  {
    hide Checksum, Reads16, Blank, Push16, Slot, Setup, Open16, Wrap, Pending16, Play16;
    Small(n);
    OpenAhead(c, d, n);
    SetupIdles(d, c.sim, Reads16(c), c.tick);
    PlaysOn(Setup(d), c, n);
    GuestWaits(Setup(d).d, Play16(Setup(d), Guest, c).0);
    var out := Play16(Setup(d), Guest, c).1;
    assert out + [] == out;
  }

  lemma Small(n: nat)
    requires n < 0xFFFF
    ensures Wrap(n) == n && Wrap(n + 1) == n + 1
  {
  }

  lemma OpenAhead(c: Con16, d: nat, n: nat)
    requires n < d <= 255 && c.tick == n && c.wm == d - 1
    ensures Open16(c)
  {
  }

  lemma PlaysOn(cfg: Config, c: Con16, n: nat)
    requires n < 255 && c.tick == n && cfg.cart(c.sim, Reads16(c), c.tick) == c.sim
    ensures var (c', out) := Play16(cfg, Guest, c);
            && c'.tick == n + 1 && !c'.gate && c'.hold == c.hold && c'.pend == c.pend && c'.sim == c.sim && c'.wm == c.wm
            && out == if n % 64 == 0 then [Crc16(1, n, Checksum(c.sim))] else []
  {
    hide Checksum, Reads16, Slot;
  }

  lemma GuestWaits(d: nat, c: Con16)
    ensures Pending16(d, Guest, c) == (c, [])
  {
    hide Push16;
  }

  lemma SetupIdles(d: nat, s: Sim, i: Inputs, t: word)
    ensures Setup(d).cart(s, i, t) == s
  {
  }

  lemma PlaysAhead(d: nat, n: nat, t: System16)
    requires 1 <= d <= 255 && n < d && Stood(d, n, t)
    ensures Ran(d, n + 1, Step16(Setup(d), t, Go(Guest, 0, PRESSED)))
  {
    hide Start16, Blank, PlayAndPend16, Checksum, Open16;
    Played(d, n, t.guest);
    SentMore(d, n + 1, Checksum(Blank()));
    hide Sent;
    assert t.down == [];
  }

  lemma SentMore(d: nat, n: nat, crc: word)
    requires n > 0
    ensures Sent(d, n, crc) == Sent(d, n - 1, crc) + [Input16(1, Wrap(n - 1 + d), PRESSED)]
                               + if (n - 1) % 64 == 0 then [Crc16(1, Wrap(n - 1), crc)] else []
  {
  }

  lemma Run16Snoc(cfg: Config, s: System16, acts: seq<Action>, a: Action)
    ensures Run16(cfg, s, acts + [a]) == Step16(cfg, Run16(cfg, s, acts), a)
  {
    assert (acts + [a])[..|acts|] == acts;
  }

  lemma StartsRan(d: nat)
    requires 1 <= d <= 255
    ensures Ran(d, 0, Run16(Setup(d), Start16(Setup(d), Blank()), []))
  {
    hide Checksum, IdleRing, NoRecords, Blank, Step16;
    var z := Start16(Setup(d), Blank());
    assert Run16(Setup(d), z, []) == z;
    assert (d + 255) % 256 == d - 1;
  }

  lemma {:induction false} RunsAhead(d: nat, n: nat)
    requires 1 <= d <= 255 && n <= d
    ensures Ran(d, n, Run16(Setup(d), Start16(Setup(d), Blank()), Ahead(n)))
    decreases n
  {
    hide Run16, Step16, Start16, Blank, Ran, Stood;
    var cfg, z, g := Setup(d), Start16(Setup(d), Blank()), Go(Guest, 0, PRESSED);
    if n == 0 {
      StartsRan(d);
    } else {
      RunsAhead(d, n - 1);
      var t := Run16(cfg, z, Ahead(n - 1));
      CapturesAhead(d, n - 1, t);
      PlaysAhead(d, n - 1, Step16(cfg, t, g));
      Run16Snoc(cfg, z, Ahead(n - 1), g);
      Run16Snoc(cfg, z, Ahead(n - 1) + [g], g);
      assert Ahead(n) == Ahead(n - 1) + [g] + [g];
    }
  }

  // ---- the host hears it all before its first pass ---------------------------

  lemma {:induction false} HearAppend(d: nat, seat: Seat, c: Con16, a: seq<Frame16>, b: seq<Frame16>)
    ensures var (c1, out1) := Channel.HearFrames(d, seat, c, a);
            var (c2, out2) := Channel.HearFrames(d, seat, c1, b);
            Channel.HearFrames(d, seat, c, a + b) == (c2, out1 + out2)
    decreases |a|
  {
    hide Receive16;
    if a == [] {
      assert a + b == b;
      assert [] + Channel.HearFrames(d, seat, c, b).1 == Channel.HearFrames(d, seat, c, b).1;
    } else {
      assert (a + b)[0] == a[0] && (a + b)[1..] == a[1..] + b;
      var (c0, out0) := Receive16(d, seat, c, a[0]);
      HearAppend(d, seat, c0, a[1..], b);
      var (c1, out1) := Channel.HearFrames(d, seat, c0, a[1..]);
      var (c2, out2) := Channel.HearFrames(d, seat, c1, b);
      assert out0 + (out1 + out2) == out0 + out1 + out2;
    }
  }

  lemma HearOne(d: nat, seat: Seat, c: Con16, f: Frame16)
    ensures Channel.HearFrames(d, seat, c, [f]) == Receive16(d, seat, c, f)
  {
    hide Receive16;
    var (c1, out) := Receive16(d, seat, c, f);
    assert [f][1..] == [] && Channel.HearFrames(d, seat, c1, []) == (c1, []);
    assert out + [] == out;
  }

  /** A console that has played nothing, with some of the guest's INPUTs in. */
  predicate Listening(d: nat, n: nat, c0: Con16, c: Con16) {
    && c0.records == NoRecords() && c == c0.(ring1 := c.ring1, wm := c.wm) && c.wm == n + d - 1
    && (255 < n + d ==> c.ring1[255] == PRESSED)
  }

  lemma InputHeard(d: nat, n: nat, c0: Con16, c: Con16)
    requires 1 <= d <= 255 && n <= d && Listening(d, n, c0, c)
    ensures var (c', out) := Receive16(d, Host, c, Input16(1, Wrap(n + d), PRESSED));
            out == [] && Listening(d, n + 1, c0, c')
  {
    assert Wrap(n + d) == n + d;
  }

  lemma CrcHeard(d: nat, n: nat, c0: Con16, c: Con16, t: word, crc: word)
    requires Listening(d, n, c0, c) && t < 0xFFFF
    ensures Receive16(d, Host, c, Crc16(1, t, crc)) == (c, [])
  {
  }

  /** Its ring and its watermark follow the guest, and nothing else moves. */
  lemma {:induction false} HeardAhead(d: nat, n: nat, c0: Con16, crc: word)
    requires 1 <= d <= 255 && n <= d + 1 && Listening(d, 0, c0, c0)
    ensures var (c, out) := Channel.HearFrames(d, Host, c0, Sent(d, n, crc));
            out == [] && Listening(d, n, c0, c)
    decreases n
  {
    hide Sent, Channel.HearFrames, Receive16, Listening;
    if n == 0 {
      NothingSent(d, c0, crc);
    } else {
      HeardAhead(d, n - 1, c0, crc);
      var before := Sent(d, n - 1, crc);
      var c := Channel.HearFrames(d, Host, c0, before).0;
      var f, g := Input16(1, Wrap(n - 1 + d), PRESSED), Crc16(1, Wrap(n - 1), crc);
      InputHeard(d, n - 1, c0, c);
      HearOne(d, Host, c, f);
      HearAppend(d, Host, c0, before, [f]);
      var c1 := Receive16(d, Host, c, f).0;
      CrcHeard(d, n, c0, c1, Wrap(n - 1), crc);
      HearOne(d, Host, c1, g);
      HearAppend(d, Host, c0, before + [f], [g]);
      SentMore(d, n, crc);
      assert before + [f] + [] == before + [f];
    }
  }

  lemma NothingSent(d: nat, c0: Con16, crc: word)
    ensures Channel.HearFrames(d, Host, c0, Sent(d, 0, crc)) == (c0, [])
  {
  }

  // ---- polling until nothing is left -----------------------------------------

  /** The bytes on their way to the host that it has not read. */
  function Unread(t: System16): nat {
    if t.upAcc <= Bytes16(t.up) then Bytes16(t.up) - t.upAcc else 0
  }

  predicate OnlyPolls(acts: seq<Action>) {
    forall i :: 0 <= i < |acts| ==> acts[i] == Poll(Host, READ_MAX)
  }

  /** What is in flight to the host has a console's form, and its buffer holds no
      whole frame. */
  ghost predicate Arriving(t: System16) {
    Channel.AllWritable(t.up) && t.upAcc <= |Frames.AllBytes(t.up)| && Frames.Whole(t.up, t.upAcc) == 0
  }

  lemma BytesSplit(fs: seq<Frame16>, k: nat)
    requires Channel.AllWritable(fs) && k <= |fs|
    ensures Channel.AllWritable(fs[..k]) && Channel.AllWritable(fs[k..])
    ensures Frames.AllBytes(fs) == Frames.AllBytes(fs[..k]) + Frames.AllBytes(fs[k..])
  {
    hide Frames.Bytes, Frames.Writable, Frames.AllBytes;
    assert fs == fs[..k] + fs[k..];
    Channel.AllBytesAppend(fs[..k], fs[k..]);
  }

  lemma WholeRest(fs: seq<Frame16>, n: nat)
    requires Channel.AllWritable(fs) && n <= |Frames.AllBytes(fs)|
    ensures var k := Frames.Whole(fs, n);
            && Channel.AllWritable(fs[k..]) && |Frames.AllBytes(fs[..k])| <= n
            && Frames.AllBytes(fs) == Frames.AllBytes(fs[..k]) + Frames.AllBytes(fs[k..])
            && Frames.Whole(fs[k..], n - |Frames.AllBytes(fs[..k])|) == 0
    decreases |fs|
  {
    hide Frames.Bytes, Frames.Writable;
    var k := Frames.Whole(fs, n);
    BytesSplit(fs, k);
    if k > 0 {
      WholeRest(fs[1..], n - |Frames.Bytes(fs[0])|);
      assert fs[1..][k - 1..] == fs[k..] && fs[..k][0] == fs[0] && fs[..k][1..] == fs[1..][..k - 1];
    } else {
      assert fs[..0] == [] && fs[0..] == fs;
    }
  }

  /** One poll: the host hears some of the frames, and reads on. */
  lemma PollHears(cfg: Config, t: System16) returns (k: nat)
    requires Arriving(t) && !t.host.gate && t.up != []
    ensures k <= |t.up|
    ensures var (c, out) := Channel.HearFrames(cfg.d, Host, t.host, t.up[..k]);
            var u := Step16(cfg, t, Poll(Host, READ_MAX));
            && u.host == c && u.down == t.down + out && u.up == t.up[k..] && u.guest == t.guest && u.downAcc == t.downAcc
            && Arriving(u) && Unread(u) < Unread(t)
  {
    hide Frames.Bytes, Frames.Writable, Channel.HearFrames, Drain16, Frames.AllBytes, Frames.Whole;
    var m := Channel.Fetched(t, Host, READ_MAX);
    Channel.BytesCount(t.up);
    var u := t.(upAcc := t.upAcc + m);
    assert Step16(cfg, t, Poll(Host, READ_MAX)) == Drain16(cfg.d, u, Host);
    k := Frames.Whole(u.up, u.upAcc);
    Channel.DrainHears(cfg.d, u, Host);
    WholeRest(u.up, u.upAcc);
    WholeNone(t.up, t.upAcc);
    Channel.BytesCount(t.up[k..]);
  }

  /** Short of a whole frame, something is unread. */
  lemma WholeNone(fs: seq<Frame16>, n: nat)
    requires Channel.AllWritable(fs) && n <= |Frames.AllBytes(fs)| && Frames.Whole(fs, n) == 0 && fs != []
    ensures n < |Frames.AllBytes(fs)|
  {
  }

  /** Polled often enough, the host hears everything on its way. */
  lemma {:induction false} PollsHear(cfg: Config, t: System16) returns (polls: seq<Action>)
    requires Arriving(t) && !t.host.gate
    ensures OnlyPolls(polls)
    ensures var (c, out) := Channel.HearFrames(cfg.d, Host, t.host, t.up);
            var u := Run16(cfg, t, polls);
            u.host == c && u.up == [] && u.upAcc == 0 && u.guest == t.guest && u.down == t.down + out
    decreases Unread(t)
  {
    hide Channel.HearFrames, Step16, Arriving, Unread;
    if t.up == [] {
      polls := [];
      NothingHeard(cfg, t);
    } else {
      var k := PollHears(cfg, t);
      GateKept(cfg.d, t.host, t.up[..k]);
      var u := Step16(cfg, t, Poll(Host, READ_MAX));
      assert t.up == t.up[..k] + t.up[k..];
      HearAppend(cfg.d, Host, t.host, t.up[..k], t.up[k..]);
      var rest := PollsHear(cfg, u);
      polls := [Poll(Host, READ_MAX)] + rest;
      Run16Cons(cfg, t, Poll(Host, READ_MAX), rest);
      var (c1, out1) := Channel.HearFrames(cfg.d, Host, t.host, t.up[..k]);
      var (c2, out2) := Channel.HearFrames(cfg.d, Host, c1, t.up[k..]);
      assert t.down + out1 + out2 == t.down + (out1 + out2);
    }
  }

  lemma {:induction false} GateKept(d: nat, c: Con16, fs: seq<Frame16>)
    ensures Channel.HearFrames(d, Host, c, fs).0.gate == c.gate
    decreases |fs|
  {
    if fs != [] {
      GateKept(d, Receive16(d, Host, c, fs[0]).0, fs[1..]);
    }
  }

  lemma NothingHeard(cfg: Config, t: System16)
    requires t.up == [] && Arriving(t)
    ensures Run16(cfg, t, []) == t && t.upAcc == 0 && Channel.HearFrames(cfg.d, Host, t.host, t.up) == (t.host, [])
    ensures t.down + [] == t.down
  {
  }

  lemma {:induction false} Run16Cons(cfg: Config, s: System16, a: Action, more: seq<Action>)
    ensures Run16(cfg, s, [a] + more) == Run16(cfg, Step16(cfg, s, a), more)
    decreases |more|
  {
    hide Step16;
    if more == [] {
      assert [a] + more == [] + [a];
      Run16Snoc(cfg, s, [], a);
      assert Run16(cfg, s, []) == s;
      assert Run16(cfg, Step16(cfg, s, a), []) == Step16(cfg, s, a);
    } else {
      hide Run16;
      var n := |more| - 1;
      assert [a] + more == ([a] + more[..n]) + [more[n]];
      Run16Snoc(cfg, s, [a] + more[..n], more[n]);
      Run16Cons(cfg, s, a, more[..n]);
      assert more == more[..n] + [more[n]];
      Run16Snoc(cfg, Step16(cfg, s, a), more[..n], more[n]);
    }
  }

  lemma {:induction false} Run16Append(cfg: Config, s: System16, acts: seq<Action>, more: seq<Action>)
    ensures Run16(cfg, s, acts + more) == Run16(cfg, Run16(cfg, s, acts), more)
    decreases |more|
  {
    if more == [] {
      assert acts + more == acts;
    } else {
      var n := |more| - 1;
      assert acts + more == (acts + more[..n]) + [more[n]] && more == more[..n] + [more[n]];
      Run16Snoc(cfg, s, acts + more[..n], more[n]);
      Run16Append(cfg, s, acts, more[..n]);
      Run16Snoc(cfg, Run16(cfg, s, acts), more[..n], more[n]);
    }
  }

  // ---- the same schedule in the ideal protocol --------------------------------

  /** The host has not begun a pass. */
  predicate HostRests(acts: seq<Action>) {
    forall i :: 0 <= i < |acts| ==> (acts[i].Go? && acts[i].seat == Guest) || (acts[i].Poll? && acts[i].seat == Host)
  }

  lemma {:induction false} HostDrainRests(d: nat, s: System)
    requires d >= 1 && Tightness.UpHonest(s)
    ensures var s' := Drain(d, s, Host);
            Tightness.UpHonest(s') && s'.host.tick == s.host.tick && s'.host.gate == s.host.gate && s'.guest == s.guest
    decreases |s.up|
  {
    if Ready(s, Host) {
      Tightness.ReceiveSamePlace(d, Host, s.host, s.up[0]);
      hide Receive;
      HostDrainRests(d, Deliver(d, s, Host));
    }
  }

  lemma StepRests(cfg: Config, s: System, a: Action)
    requires cfg.d >= 1 && Tightness.UpHonest(s) && HostRests([a])
    ensures var s' := Step(cfg, s, a);
            Tightness.UpHonest(s') && s'.host.tick == s.host.tick && s'.host.gate == s.host.gate
  {
    assert [a][0] == a;
    if a.Go? {
      Tightness.GuestDrainHonest(cfg.d, Fetch(s, Guest, a.k));
      Tightness.GuestMoveHonest(cfg, s, a.k, a.cell);
    } else {
      HostDrainRests(cfg.d, Fetch(s, Host, a.k));
    }
  }

  lemma {:induction false} RunRests(cfg: Config, sim: Sim, acts: seq<Action>)
    requires cfg.d >= 1 && HostRests(acts)
    ensures var s := Run(cfg, Start(cfg, sim), acts); Tightness.UpHonest(s) && s.host.tick == 0 && !s.host.gate
    decreases |acts|
  {
    if acts != [] {
      var n := |acts| - 1;
      RunRests(cfg, sim, acts[..n]);
      hide Step, Start, Tightness.UpHonest;
      assert [acts[n]][0] == acts[n];
      StepRests(cfg, Run(cfg, Start(cfg, sim), acts[..n]), acts[n]);
    }
  }

  lemma PassRests(cfg: Config, s: System, cell: Cell)
    requires cfg.d >= 1 && Tightness.UpHonest(s) && !s.host.gate
    ensures Step(cfg, s, Go(Host, 0, cell)).host.tick == s.host.tick
  {
    HostDrainRests(cfg.d, Fetch(s, Host, 0));
    CaptureKeeps(cfg.d, Pump(cfg.d, s, Host, 0).host, cell);
    hide Capture;
  }

  /** Nothing is ever sent for a tick before 0. */
  predicate Natural(c: Con) {
    forall k :: k in c.tx.log ==> 0 <= k.t
  }

  predicate BothNatural(s: System) {
    Natural(s.host) && Natural(s.guest)
  }

  lemma {:induction false} FoldNatural(d: nat, fs: seq<Frame>, w: Wire)
    requires d >= 1 && forall k :: k in w.log ==> 0 <= k.t
    ensures forall k :: k in Fold(d, fs, w).log ==> 0 <= k.t
    decreases |fs|
  {
    if fs != [] {
      FoldNatural(d, fs[1..], Next(d, w, fs[0]));
    }
  }

  lemma ReceiveNatural(d: nat, seat: Seat, c: Con, f: Frame)
    requires d >= 1 && Natural(c)
    ensures Natural(Receive(d, seat, c, f).0)
  {
  }

  lemma {:induction false} DrainNatural(d: nat, s: System, seat: Seat)
    requires d >= 1 && BothNatural(s)
    ensures BothNatural(Drain(d, s, seat))
    decreases |Inbound(s, seat)|
  {
    if Ready(s, seat) {
      ReceiveNatural(d, seat, Get(s, seat), Inbound(s, seat)[0]);
      hide Receive, Natural;
      DrainNatural(d, Deliver(d, s, seat), seat);
    }
  }

  lemma TurnNatural(cfg: Config, seat: Seat, c: Con)
    requires cfg.d >= 1 && Natural(c)
    ensures Natural(PlayAndPend(cfg, seat, c).0)
  {
    hide Play, Pending;
    PlayKeeps(cfg, seat, c);
    PendNatural(cfg.d, seat, Play(cfg, seat, c).0);
  }

  lemma PendNatural(d: nat, seat: Seat, c: Con)
    requires d >= 1 && Natural(c)
    ensures Natural(Pending(d, seat, c).0)
  {
    hide PushFrames, Fold;
    FoldNatural(d, PushFrames(Epoch(c.ep.no + 1, c.tick + 16), c.sim), c.tx);
  }

  lemma StepNatural(cfg: Config, s: System, a: Action)
    requires cfg.d >= 1 && BothNatural(s)
    ensures BothNatural(Step(cfg, s, a))
  {
    hide PlayAndPend, Capture, Natural, Drain;
    match a
    case Fault(_, _) => FaultNatural(cfg, s, a);
    case Poll(seat, k) => DrainNatural(cfg.d, Fetch(s, seat, k), seat);
    case Go(seat, k, cell) =>
      TurnNatural(cfg, seat, Get(s, seat));
      DrainNatural(cfg.d, Fetch(s, seat, k), seat);
      CaptureNatural(cfg.d, Get(Pump(cfg.d, s, seat, k), seat), cell);
  }

  lemma FaultNatural(cfg: Config, s: System, a: Action)
    requires cfg.d >= 1 && BothNatural(s) && a.Fault?
    ensures BothNatural(Step(cfg, s, a))
  {
  }

  lemma CaptureNatural(d: nat, c: Con, cell: Cell)
    requires d >= 1 && Natural(c)
    ensures Natural(Capture(d, c, cell).0)
  {
  }

  lemma {:induction false} RunNatural(cfg: Config, sim: Sim, acts: seq<Action>)
    requires cfg.d >= 1
    ensures BothNatural(Run(cfg, Start(cfg, sim), acts))
    decreases |acts|
  {
    if acts != [] {
      RunNatural(cfg, sim, acts[..|acts| - 1]);
      hide Step;
      StepNatural(cfg, Run(cfg, Start(cfg, sim), acts[..|acts| - 1]), acts[|acts| - 1]);
    }
  }

  // ---- the bound ----------------------------------------------------------------

  lemma {:induction false} AheadRests(n: nat)
    ensures HostRests(Ahead(n)) && FaultFree(Ahead(n))
    decreases n
  {
    if n > 0 {
      AheadRests(n - 1);
    }
  }

  lemma {:induction false} SentWritable(d: nat, n: nat, crc: word)
    ensures Channel.AllWritable(Sent(d, n, crc))
    decreases n
  {
    if n > 0 {
      SentWritable(d, n - 1, crc);
    }
  }

  /** The guest stands at its gate after d ticks, all it sent still on the way. */
  lemma Reached(d: nat, t: System16)
    requires 128 <= d <= 255 && Stood(d, d, t)
    ensures Arriving(t) && !t.host.gate
    ensures var (c, out) := Channel.HearFrames(d, Host, t.host, t.up); out == [] && Listening(d, d + 1, t.host, c)
  {
    var crc := Checksum(Blank());
    var f := Input16(1, Wrap(d + d), PRESSED);
    SentWritable(d, d, crc);
    StartListens(d);
    hide Start16, Blank, Checksum, Channel.HearFrames, Receive16, Listening, Sent;
    HeardAhead(d, d, t.host, crc);
    var c := Channel.HearFrames(d, Host, t.host, Sent(d, d, crc)).0;
    InputHeard(d, d, t.host, c);
    HearAppend(d, Host, t.host, Sent(d, d, crc), [f]);
    HearOne(d, Host, c, f);
    NothingWhole(t.up);
  }

  lemma NothingWhole(fs: seq<Frame16>)
    requires Channel.AllWritable(fs)
    ensures Frames.Whole(fs, 0) == 0
  {
  }

  lemma StartListens(d: nat)
    requires 1 <= d <= 255
    ensures var c := Start16(Setup(d), Blank()).host; Listening(d, 0, c, c) && !c.gate && c.tick == 0 && !c.hold
  {
  }

  /** The host's first pass reads the guest's cell for tick 255 as the one for
      the tick before its first. */
  lemma ReadsLapped(d: nat, c0: Con16, c: Con16, cell: Cell)
    requires 128 <= d <= 255 && Listening(d, d + 1, c0, c) && c.tick == 0
    ensures var c' := Capture16(d, Host, c, cell).0;
            c'.gate && Open16(c') && c'.ring1[255] == PRESSED
  {
  }

  /** A fault-free schedule on which a tick reads a cell sent for another. */
  lemma RingLapped(d: nat) returns (acts: seq<Action>)
    requires 128 <= d <= 255
    ensures FaultFree(acts) && !ReadsRight(Setup(d), Blank(), acts, Host)
  {
    hide Run16, Run, Step16, Step, Start16, Start, Blank, Ran, Stood, Listening, Arriving, Channel.HearFrames, CellFor;
    hide Open16, Capture16, Natural, Tightness.UpHonest;
    var cfg, z, zi := Setup(d), Start16(Setup(d), Blank()), Start(Setup(d), Blank());
    var g, h := Go(Guest, 0, PRESSED), Go(Host, 0, IDLE);
    RunsAhead(d, d);
    CapturesAhead(d, d, Run16(cfg, z, Ahead(d)));
    Run16Snoc(cfg, z, Ahead(d), g);
    var a := Ahead(d) + [g];
    var t := Run16(cfg, z, a);
    Reached(d, t);
    StoodHost(d, t);
    var polls := PollsHear(cfg, t);
    Run16Append(cfg, z, a, polls);
    var b := a + polls;
    var u := Run16(cfg, z, b);
    ListensOn(d, t.host, u.host);
    StepCaptures(cfg, u, Host, IDLE);
    Run16Snoc(cfg, z, b, h);
    ReadsLapped(d, t.host, u.host, IDLE);
    acts := b + [h];
    // in the ideal protocol the host is still before its first tick
    AheadRests(d);
    assert HostRests(b) && FaultFree(acts);
    RunRests(cfg, Blank(), b);
    PassRests(cfg, Run(cfg, zi, b), IDLE);
    RunSnoc(cfg, zi, b, h);
    RunNatural(cfg, Blank(), acts);
    NothingBefore(Run(cfg, zi, acts));
    LogIsCaptured(cfg, Blank(), acts, Guest, Epoch(0, 0), -1);
  }

  lemma StoodHost(d: nat, t: System16)
    requires 1 <= d <= 255 && Stood(d, d, t)
    ensures t.down == [] && t.host.tick == 0 && !t.host.hold && !t.host.gate
  {
    StartListens(d);
  }

  lemma ListensOn(d: nat, c0: Con16, c: Con16)
    requires Listening(d, d + 1, c0, c)
    ensures c.tick == c0.tick && c.hold == c0.hold && c.gate == c0.gate
  {
  }

  lemma NothingBefore(s: System)
    requires BothNatural(s)
    ensures forall ep: Epoch :: Look(s.guest.tx.log, ep, -1) == IDLE
  {
  }

  /** The ring holds what the ticks need exactly for delays up to 127: on every
      fault-free schedule, with every cart and every input, the slots read at an
      open gate are the cells sent for that tick and the one before. */
  lemma ExactRingBound(d: nat)
    requires 1 <= d <= 255
    ensures d <= 127 <==> forall cfg: Config, sim: Sim, acts: seq<Action>, seat: Seat ::
                            cfg.d == d && FaultFree(acts) ==> ReadsRight(cfg, sim, acts, seat)
  {
    if d <= 127 {
      forall cfg: Config, sim: Sim, acts: seq<Action>, seat: Seat | cfg.d == d && FaultFree(acts)
        ensures ReadsRight(cfg, sim, acts, seat)
      {
        LockstepAgreement(cfg, sim, acts, seat);
      }
    } else {
      var acts := RingLapped(d);
      assert Setup(d).d == d && !ReadsRight(Setup(d), Blank(), acts, Host);
      hide ReadsRight;
    }
  }
}
