/** Why 15: with any larger delay some schedule makes a console that has
    rebased accept an INPUT sent before its peer's rebase. */
module Tightness {
  import opened Words
  import opened GameState
  import opened Wire
  import opened Ideal
  import opened IdealInvariant
  import opened History
  import opened IdealRuns
  import opened Console16
  import opened Refinement
  import opened Lockstep
  import opened Resync
  import opened Progress
  import Cksum

  /** A cart that never changes its state. */
  function Still(s: Sim, i: Inputs, t: word): Sim {
    s
  }

  function Blank(): Sim {
    seq(IMG_TOTAL, i => 0)
  }

  function Flawed(): Sim {
    Blank()[0 := 1]
  }

  function Setup(d: nat): Config {
    Config(d, Still)
  }

  lemma FlawShows()
    ensures Checksum(Blank()) != Checksum(Flawed())
  {
    Cksum.OneCellDetected(Covered(Blank()), Covered(Flawed()), 0);
  }

  /** Before any push. */
  ghost predicate Early(cfg: Config, s: System) {
    Legal(cfg) && Stable(cfg, s) && s.host.ep.no == 0
  }

  lemma EarlyStep(cfg: Config, s: System, a: Action)
    requires Early(cfg, s) && Step(cfg, s, a).host.ep.no == 0
    ensures Early(cfg, Step(cfg, s, a))
  {
    StepKeeps(cfg, s, a);
  }

  lemma IdlePump(cfg: Config, s: System, seat: Seat)
    requires Early(cfg, s)
    ensures Pump(cfg.d, s, seat, 0) == s
  {
    DrainShrinks(cfg.d, Fetch(s, seat, 0), seat);
    assert Fetch(s, seat, 0) == s;
  }

  // ---- the opening: both at tick 1, the host pending ----------------------

  function First(): Epoch {
    Epoch(0, 0)
  }

  /** A console that has captured for tick 0. */
  lemma Captures0(cfg: Config, s: System, seat: Seat)
    requires cfg.d >= 1 && Early(cfg, s) && !Get(s, seat).gate && !Hold(Get(s, seat)) && Get(s, seat).ep == First()
    ensures var c := Get(s, seat);
            var f := Input(First(), c.tick + cfg.d, IDLE);
            var c' := Capture(cfg.d, c, IDLE).0;
            && Step(cfg, s, Go(seat, 0, IDLE)) == Emit(s, seat, (c', [f]))
            && c'.gate && c'.tick == c.tick && c'.ep == First() && c'.sim == c.sim && c'.pend == c.pend && c'.rx == c.rx
            && c'.tx.crcs == c.tx.crcs
            && Early(cfg, Step(cfg, s, Go(seat, 0, IDLE)))
  {
    hide Early, Step, Capture, Pump, Legal;
    IdlePump(cfg, s, seat);
    CaptureKeeps(cfg.d, Get(s, seat), IDLE);
    CaptureGates(cfg.d, Get(s, seat), IDLE);
    PassCaptures(cfg, s, seat);
    EarlyEpoch(cfg, s);
    EarlyStep(cfg, s, Go(seat, 0, IDLE));
  }

  lemma EarlyEpoch(cfg: Config, s: System)
    requires Early(cfg, s)
    ensures s.host.ep.no == 0
  {
  }

  /** A console that plays tick 0 and reports it. */
  lemma Plays0(cfg: Config, s: System, seat: Seat)
    requires Early(cfg, s) && cfg.cart == Still && Get(s, seat).gate && Get(s, seat).tick == 0 && Get(s, seat).ep == First()
    requires !Get(s, seat).pend && Open(cfg.d, Get(s, seat))
    ensures var c := Get(s, seat);
            var f := Crc(First(), 0, Checksum(c.sim));
            var c' := Play(cfg, seat, c).0;
            && Step(cfg, s, Go(seat, 0, IDLE)) == Emit(s, seat, (c', [f]))
            && !c'.gate && c'.tick == 1 && c'.ep == First() && c'.sim == c.sim && !c'.pend && c'.rx == c.rx
            && c'.tx.crcs == c.tx.crcs[At(First(), 0) := Checksum(c.sim)]
            && Early(cfg, Step(cfg, s, Go(seat, 0, IDLE)))
  {
    var c := Get(s, seat);
    PlayKeeps(cfg, seat, c);
    PlaySends(cfg, seat, c);
    var (c', out) := Play(cfg, seat, c);
    assert Pending(cfg.d, seat, c') == (c', []);
    assert out + [] == out;
    EarlyStep(cfg, s, Go(seat, 0, IDLE));
    hide Early, Stable, Play, Pending;
  }

  /** The start, with the guest's state flawed. */
  function Flaw(d: nat): System
    requires d >= 1
  {
    Step(Setup(d), Start(Setup(d), Blank()), Fault(Guest, Flawed()))
  }

  lemma FlawIs(d: nat)
    requires 1 <= d <= 127
    ensures var s, z := Flaw(d), Start(Setup(d), Blank());
            && Early(Setup(d), s) && s == z.(guest := z.guest.(sim := Flawed()), bad := {First()})
  {
    var cfg := Setup(d);
    StartInv(cfg, Blank());
    StartRecorded(cfg, Blank());
    EarlyStep(cfg, Start(cfg, Blank()), Fault(Guest, Flawed()));
  }

  /** One console's first tick, from a standing start. */
  lemma Tick0(cfg: Config, s: System, seat: Seat)
    requires Legal(cfg) && Early(cfg, s) && cfg.cart == Still && Get(s, seat).ep == First() && Get(s, seat).tick == 0
    requires !Get(s, seat).gate && !Get(s, seat).pend && !Hold(Get(s, seat)) && Open(cfg.d, Get(s, seat))
    ensures var c := Get(s, seat);
            var t := Step(cfg, Step(cfg, s, Go(seat, 0, IDLE)), Go(seat, 0, IDLE));
            var c' := Get(t, seat);
            && Early(cfg, t) && t == Emit(s, seat, (c', [Input(First(), cfg.d, IDLE), Crc(First(), 0, Checksum(c.sim))]))
            && c'.tick == 1 && !c'.gate && !c'.pend && c'.ep == First() && c'.sim == c.sim && c'.rx == c.rx
            && c'.tx.crcs == c.tx.crcs[At(First(), 0) := Checksum(c.sim)]
  {
    hide Early, Step, Capture, Play, Checksum, Open;
    Captures0(cfg, s, seat);
    var s1 := Step(cfg, s, Go(seat, 0, IDLE));
    StillOpen(cfg.d, Get(s, seat), Get(s1, seat));
    Plays0(cfg, s1, seat);
    var a: seq<Frame>, b: seq<Frame> := [Input(First(), cfg.d, IDLE)], [Crc(First(), 0, Checksum(Get(s, seat).sim))];
    assert a + b == [Input(First(), cfg.d, IDLE), Crc(First(), 0, Checksum(Get(s, seat).sim))];
    assert Inbound(s, Host) + a + b == Inbound(s, Host) + (a + b) && Inbound(s, Guest) + a + b == Inbound(s, Guest) + (a + b);
  }

  lemma StartOpen(d: nat)
    requires 1 <= d <= 127
    ensures Open(d, Start(Setup(d), Blank()).host) && forall s: Sim :: Open(d, Start(Setup(d), Blank()).guest.(sim := s))
  {
  }

  lemma StillOpen(d: nat, c: Con, c': Con)
    requires d >= 1 && Open(d, c) && c'.rx == c.rx && c'.ep == c.ep && c'.tick == c.tick
    ensures Open(d, c')
  {
  }

  function Prelude(): seq<Action> {
    [Fault(Guest, Flawed()), Go(Host, 0, IDLE), Go(Host, 0, IDLE), Go(Guest, 0, IDLE), Go(Guest, 0, IDLE)]
  }

  /** Both consoles have played tick 0, with different states. */
  lemma BothPlayed0(d: nat)
    requires 1 <= d <= 127
    ensures var cfg := Setup(d);
            var s := Run(cfg, Start(cfg, Blank()), Prelude());
            && Early(cfg, s) && s.upAcc == 0
            && s.host.tick == 1 && !s.host.gate && !s.host.pend && s.host.ep == First() && s.host.sim == Blank()
            && s.guest.tick == 1 && !s.guest.gate && !Hold(s.host)
            && At(First(), 0) in s.host.tx.crcs && s.host.tx.crcs[At(First(), 0)] == Checksum(Blank())
            && s.up == [Input(First(), d, IDLE), Crc(First(), 0, Checksum(Flawed()))]
  {
    var cfg := Setup(d);
    var h, g := Go(Host, 0, IDLE), Go(Guest, 0, IDLE);
    var s1 := Flaw(d);
    FlawIs(d);
    Unrolled(cfg, Start(cfg, Blank()), Fault(Guest, Flawed()), h, h, g, g);
    hide Run, Early, Step, Checksum, Blank, Flawed, Open;
    StartOpen(d);
    Tick0(cfg, s1, Host);
    Tick0(cfg, Step(cfg, Step(cfg, s1, h), h), Guest);
  }

  lemma Unrolled(cfg: Config, s: System, a: Action, b: Action, c: Action, e: Action, f: Action)
    requires cfg.d >= 1
    ensures Run(cfg, s, [a, b, c, e, f]) == Step(cfg, Step(cfg, Step(cfg, Step(cfg, Step(cfg, s, a), b), c), e), f)
  {
    RunNone(cfg, s);
    assert [] + [a] == [a] && [a] + [b] == [a, b] && [a, b] + [c] == [a, b, c] && [a, b, c] + [e] == [a, b, c, e]
        && [a, b, c, e] + [f] == [a, b, c, e, f];
    RunSnoc(cfg, s, [], a);
    RunSnoc(cfg, s, [a], b);
    RunSnoc(cfg, s, [a, b], c);
    RunSnoc(cfg, s, [a, b, c], e);
    RunSnoc(cfg, s, [a, b, c, e], f);
  }

  // ---- listening ---------------------------------------------------------

  /** The differing report reaches the host: a resync is wanted. */
  lemma HostNotices(d: nat, s: System)
    requires 1 <= d <= 127 && Early(Setup(d), s) && s.upAcc == 0
    requires s.host.tick == 1 && !s.host.gate && !s.host.pend && s.host.ep == First() && !Hold(s.host)
    requires At(First(), 0) in s.host.tx.crcs && s.host.tx.crcs[At(First(), 0)] == Checksum(Blank())
    requires s.up == [Input(First(), d, IDLE), Crc(First(), 0, Checksum(Flawed()))]
    ensures var t := Step(Setup(d), s, Poll(Host, READ_MAX));
            && Early(Setup(d), t) && t.up == [] && t.host.pend && t.guest == s.guest && t.down == s.down
            && t.host.tick == 1 && !t.host.gate && t.host.sim == s.host.sim
  {
    var cfg := Setup(d);
    hide Stable, Checksum, Step, Drain, Fetch, Receive;
    FlawShows();
    HostPumps(cfg, s, READ_MAX);
    NoticeDrain(d, s);
    PollPumps(cfg, s);
    EarlyStep(cfg, s, Poll(Host, READ_MAX));
  }

  lemma PollPumps(cfg: Config, s: System)
    requires cfg.d >= 1 && !s.host.gate
    ensures Step(cfg, s, Poll(Host, READ_MAX)) == Pump(cfg.d, s, Host, READ_MAX)
  {
    hide Pump;
  }

  lemma NoticeDrain(d: nat, s: System)
    requires 1 <= d && s.upAcc == 0 && !s.host.pend && s.host.ep == First() && !Hold(s.host)
    requires At(First(), 0) in s.host.tx.crcs && s.host.tx.crcs[At(First(), 0)] != Checksum(Flawed())
    requires s.up == [Input(First(), d, IDLE), Crc(First(), 0, Checksum(Flawed()))]
    ensures var t := Pump(d, s, Host, READ_MAX);
            t.up == [] && t.host.pend && t.host.sim == s.host.sim && t.host.tick == s.host.tick
  {
    var crc := Checksum(Flawed());
    var f1, f2 := Input(First(), d, IDLE), Crc(First(), 0, crc);
    assert s.up[1..] == [f2] && s.up[1..][1..] == [];
    TwoBytes(f1, f2);
    var s1 := s.(upAcc := 14);
    assert Fetch(s, Host, READ_MAX) == s1;
    hide Checksum, Next, Receive, Fetch;
    InputKeeps(d, s.host, f1);
    QuietDeliver(d, s1);
    var s2 := Deliver(d, s1, Host);
    CrcPends(d, s2.host, crc);
    QuietDeliver(d, s2);
    var s3 := Deliver(d, s2, Host);
    assert Drain(d, s3, Host) == s3;
    assert Drain(d, s2, Host) == s3;
  }

  lemma QuietDeliver(d: nat, s: System)
    requires d >= 1 && Ready(s, Host) && Receive(d, Host, s.host, s.up[0]).1 == []
    ensures Deliver(d, s, Host)
            == s.(host := Receive(d, Host, s.host, s.up[0]).0, up := s.up[1..], upAcc := s.upAcc - Size(s.up[0]))
  {
    assert s.down + [] == s.down;
  }

  lemma TwoBytes(f: Frame, g: Frame)
    requires Size(f) == 7 && Size(g) == 7
    ensures Bytes([f, g]) == 14
  {
    BytesExtend([f], [g]);
    assert [f] + [g] == [f, g] && [f][1..] == [] && [g][1..] == [];
    assert Bytes([f]) == 7 && Bytes([g]) == 7;
  }

  lemma InputKeeps(d: nat, c: Con, f: Frame)
    requires d >= 1 && f.Input?
    ensures var (c', out) := Receive(d, Host, c, f);
            && out == [] && c'.sim == c.sim && c'.tick == c.tick && c'.gate == c.gate && c'.ep == c.ep
            && c'.pend == c.pend && c'.tx == c.tx && Hold(c') == Hold(c)
  {
  }

  lemma CrcPends(d: nat, c: Con, crc: word)
    requires d >= 1 && !Hold(c) && !c.pend && c.ep == First()
    requires At(First(), 0) in c.tx.crcs && c.tx.crcs[At(First(), 0)] != crc
    ensures var (c', out) := Receive(d, Host, c, Crc(First(), 0, crc));
            out == [] && c'.pend && c'.sim == c.sim && c'.tick == c.tick
  {
    NextCrc(d, c.rx, First(), 0, crc);
    hide Next;
  }

  /** Nothing of a push is under way. */
  ghost predicate NoPush(s: System) {
    !Hold(s.guest) && !Hold(s.host) && forall i :: 0 <= i < |s.down| ==> !s.down[i].Begin?
  }

  lemma EarlyNoPush(cfg: Config, s: System)
    requires Early(cfg, s)
    ensures NoPush(s) && s.guest.ep == s.host.ep
  {
    StandApart(cfg.d, s);
    Between2(cfg.d, s);
  }

  /** Without a push, listening leaves a console's place in the game alone. */
  ghost predicate SamePlace(c: Con, c': Con) {
    && c'.tick == c.tick && c'.gate == c.gate && c'.ep == c.ep && c'.sim == c.sim && Hold(c') == Hold(c)
    && (c.pend ==> c'.pend)
  }

  lemma ReceiveSamePlace(d: nat, seat: Seat, c: Con, f: Frame)
    requires d >= 1 && !Hold(c) && !f.Begin?
    ensures SamePlace(c, Receive(d, seat, c, f).0)
  {
    if f.Crc? {
      CrcFrame(d, seat, c, f.ep, f.t, f.crc);
    }
  }

  lemma {:induction false} GuestListens(d: nat, s: System)
    requires d >= 1 && NoPush(s)
    ensures var s' := Drain(d, s, Guest);
            SamePlace(s.guest, s'.guest) && s'.host == s.host && NoPush(s')
    decreases |s.down|
  {
    if Ready(s, Guest) {
      ReceiveSamePlace(d, Guest, s.guest, s.down[0]);
      hide Receive;
      GuestListens(d, Deliver(d, s, Guest));
    }
  }

  /** Poll until nothing is on the way to the guest. */
  lemma {:induction false} GuestHearsAll(cfg: Config, s: System) returns (more: seq<Action>)
    requires Early(cfg, s) && !s.guest.gate
    ensures var s' := Run(cfg, s, more);
            && Early(cfg, s') && s'.down == [] && s'.host == s.host && SamePlace(s.guest, s'.guest)
    decreases InFlightBytes(s), Unread(s)
  {
    if s.down == [] {
      more := [];
    } else {
      var a := Poll(Guest, READ_MAX);
      var s1 := Step(cfg, s, a);
      PumpProgresses(cfg.d, s, Guest);
      EarlyNoPush(cfg, s);
      GuestListens(cfg.d, Fetch(s, Guest, READ_MAX));
      EarlyStep(cfg, s, a);
      hide Stable, Step, Run;
      var rest := GuestHearsAll(cfg, s1);
      more := [a] + rest;
      RunCons(cfg, s, a, rest);
    }
  }

  /** Poll until nothing is on the way to the host. */
  lemma {:induction false} HostHearsAll(cfg: Config, s: System) returns (more: seq<Action>)
    requires Early(cfg, s) && !s.host.gate
    ensures var s' := Run(cfg, s, more);
            && Early(cfg, s') && s'.up == [] && s'.guest == s.guest && s'.down == s.down
            && SamePlace(s.host, s'.host)
    decreases InFlightBytes(s), Unread(s)
  {
    if s.up == [] {
      more := [];
    } else {
      var a := Poll(Host, READ_MAX);
      var s1 := Step(cfg, s, a);
      PumpProgresses(cfg.d, s, Host);
      HostPumps(cfg, s, READ_MAX);
      HostListens(cfg, s);
      EarlyStep(cfg, s, a);
      hide Stable, Step, Run, Pump;
      var rest := HostHearsAll(cfg, s1);
      more := [a] + rest;
      RunCons(cfg, s, a, rest);
    }
  }

  lemma HostListens(cfg: Config, s: System)
    requires Early(cfg, s)
    ensures Pump(cfg.d, s, Host, READ_MAX).host.sim == s.host.sim
  {
    StandApart(cfg.d, s);
    Between2(cfg.d, s);
    assert Fetch(s, Host, READ_MAX).up == s.up && Fetch(s, Host, READ_MAX).host == s.host;
    HostDrainSim(cfg, Fetch(s, Host, READ_MAX));
  }

  lemma {:induction false} HostDrainSim(cfg: Config, s: System)
    requires cfg.d >= 1
    requires !Hold(s.host) && forall i :: 0 <= i < |s.up| ==> !s.up[i].Begin?
    ensures Drain(cfg.d, s, Host).host.sim == s.host.sim
    decreases |s.up|
  {
    if Ready(s, Host) {
      ReceiveSamePlace(cfg.d, Host, s.host, s.up[0]);
      hide Receive;
      HostDrainSim(cfg, Deliver(cfg.d, s, Host));
    }
  }

  // ---- the guest runs as far ahead as it can ------------------------------

  lemma GuestGoStays(cfg: Config, s: System)
    requires Early(cfg, s) && s.down == [] && (s.guest.gate ==> Open(cfg.d, s.guest))
    ensures var s' := Step(cfg, s, Go(Guest, 0, IDLE));
            && Early(cfg, s') && s'.host == s.host && s'.down == [] && s'.guest.ep == s.guest.ep
            && Watermark(cfg.d, s'.guest) == Watermark(cfg.d, s.guest)
            && (if s.guest.gate then s'.guest.tick == s.guest.tick + 1 && !s'.guest.gate
                else s'.guest.tick == s.guest.tick && s'.guest.gate)
  {
    EarlyNoPush(cfg, s);
    if s.guest.gate {
      PlayKeeps(cfg, Guest, s.guest);
      GuestPendsNothing(cfg, s.guest);
    } else {
      IdlePump(cfg, s, Guest);
      PassCaptures(cfg, s, Guest);
      CaptureKeeps(cfg.d, s.guest, IDLE);
      CaptureGates(cfg.d, s.guest, IDLE);
    }
    hide Capture, Play, Stable, Pump;
    EarlyStep(cfg, s, Go(Guest, 0, IDLE));
  }

  /** With nothing more on the way to it, the guest plays up to its watermark
      and stands at the gate one past it. */
  lemma {:induction false} GuestRunsOut(cfg: Config, s: System) returns (more: seq<Action>)
    requires Legal(cfg) && Early(cfg, s) && s.down == []
    ensures var s' := Run(cfg, s, more);
            && Early(cfg, s') && s'.host == s.host && s'.down == []
            && s'.guest.gate && !Open(cfg.d, s'.guest)
    decreases Watermark(cfg.d, s.guest) + 1 - s.guest.tick, !s.guest.gate
  {
    if s.guest.gate && !Open(cfg.d, s.guest) {
      more := [];
    } else {
      GuestGoStays(cfg, s);
      RunCons1(cfg, s);
      hide Early, Step, Run, Watermark;
      var s1 := Step(cfg, s, Go(Guest, 0, IDLE));
      var rest := GuestRunsOut(cfg, s1);
      more := [Go(Guest, 0, IDLE)] + rest;
      RunCons(cfg, s, Go(Guest, 0, IDLE), rest);
    }
  }

  lemma RunCons1(cfg: Config, s: System)
    requires Early(cfg, s)
    ensures s.guest.tick <= Watermark(cfg.d, s.guest) + 1
  {
  }

  // ---- the stale INPUT ----------------------------------------------------

  /** Where the schedule leads before the host's last two moves: the host at
      tick 1 with a resync pending, the guest at its gate one past everything
      the host has sent, nothing on the way to either. */
  ghost predicate Poised(d: nat, s: System) {
    && 1 <= d <= 127 && Early(Setup(d), s) && s.up == [] && s.down == []
    && s.host.tick == 1 && !s.host.gate && s.host.pend && s.host.sim == Blank() && s.host.ep == First()
    && s.guest.gate && !Open(d, s.guest)
  }

  /** The host wants a resync, before its second tick. */
  ghost predicate Noticed(d: nat, s: System) {
    && 1 <= d <= 127 && Early(Setup(d), s)
    && s.host.tick == 1 && !s.host.gate && s.host.pend && s.host.sim == Blank() && s.host.ep == First()
  }

  lemma ReachNoticed(d: nat) returns (acts: seq<Action>)
    requires 1 <= d <= 127
    ensures var s := Run(Setup(d), Start(Setup(d), Blank()), acts); Noticed(d, s) && !s.guest.gate
  {
    var cfg := Setup(d);
    var s0 := Start(cfg, Blank());
    var a := Prelude();
    hide Run, Step, Early, Checksum, Pump, Open, Prelude, Blank, Flawed, Start;
    BothPlayed0(d);
    var s1 := Run(cfg, s0, a);
    HostNotices(d, s1);
    RunSnoc(cfg, s0, a, Poll(Host, READ_MAX));
    NoticedEpoch(d, s1, Step(cfg, s1, Poll(Host, READ_MAX)));
    acts := a + [Poll(Host, READ_MAX)];
  }

  lemma NoticedEpoch(d: nat, s: System, t: System)
    requires 1 <= d <= 127 && Early(Setup(d), s) && t == Step(Setup(d), s, Poll(Host, READ_MAX)) && s.host.ep == First()
    ensures t.host.ep == First()
  {
    HostPumps(Setup(d), s, READ_MAX);
    hide Stable, Pump;
  }

  lemma ReachPoised(d: nat) returns (acts: seq<Action>)
    requires 1 <= d <= 127
    ensures Poised(d, Run(Setup(d), Start(Setup(d), Blank()), acts))
  {
    hide Run, Early, Open;
    var cfg := Setup(d);
    var s0 := Start(cfg, Blank());
    var a := ReachNoticed(d);
    var s1 := Run(cfg, s0, a);
    var b := GuestHearsAll(cfg, s1);
    var s2 := Run(cfg, s1, b);
    RunAppend(cfg, s0, a, b);
    var c := GuestRunsOut(cfg, s2);
    var s3 := Run(cfg, s2, c);
    RunAppend(cfg, s0, a + b, c);
    var e := HostHearsAll(cfg, s3);
    RunAppend(cfg, s0, a + b + c, e);
    acts := a + b + c + e;
  }

  /** A poised guest stands at tick d+1. */
  lemma PoisedGuest(d: nat, s: System)
    requires Poised(d, s)
    ensures s.guest.tick == d + 1 && s.guest.ep == First() && Watermark(d, s.guest) == d && s.upAcc == 0 && s.downAcc == 0
    ensures !Hold(s.guest) && !Hold(s.host) && Open(d, s.host)
  {
    EarlyNoPush(Setup(d), s);
    assert s.guest.rx == s.host.tx && s.host.rx == s.guest.tx;
    assert Top(d, s.guest) >= s.guest.tick + d - 1;
  }

  // ---- the last moves -----------------------------------------------------

  /** The host captures tick 1. */
  lemma HostCapturesLast(d: nat, s: System)
    requires Poised(d, s)
    ensures var t := Step(Setup(d), s, Go(Host, 0, IDLE));
            && Early(Setup(d), t) && t.guest == s.guest && t.up == [] && t.down == [Input(First(), d + 1, IDLE)]
            && t.host.tick == 1 && t.host.gate && t.host.pend && t.host.sim == Blank() && t.host.ep == First()
            && t.host.rx == s.host.rx && t.upAcc == 0 && t.downAcc == 0
  {
    PoisedGuest(d, s);
    hide Stable, Step, Capture, Open, Pump;
    Captures0(Setup(d), s, Host);
  }

  /** The guest hears of it: its gate opens. */
  lemma GuestHearsLast(d: nat, s: System)
    requires 1 <= d <= 127 && Early(Setup(d), s) && s.down == [Input(First(), d + 1, IDLE)] && s.downAcc == 0
    requires s.guest.gate && !Open(d, s.guest) && s.guest.ep == First() && !Hold(s.guest) && s.guest.tick == d + 1
    ensures var t := Step(Setup(d), s, Go(Guest, READ_MAX, IDLE));
            && Early(Setup(d), t) && t.host == s.host && t.up == s.up && t.down == [] && t.upAcc == s.upAcc && t.downAcc == 0
            && t.guest.gate && t.guest.tick == d + 1 && t.guest.ep == First() && Open(d, t.guest) && t.guest.tx == s.guest.tx
  {
    var cfg := Setup(d);
    var f := Input(First(), d + 1, IDLE);
    WaitingStep(cfg, s, Guest);
    HeardLast(d, s);
    hide Stable, Step, Pump, Open;
    EarlyStep(cfg, s, Go(Guest, READ_MAX, IDLE));
  }

  lemma HeardLast(d: nat, s: System)
    requires 1 <= d && s.down == [Input(First(), d + 1, IDLE)] && s.downAcc == 0 && s.guest.ep == First()
    requires s.guest.tick == d + 1
    ensures var t := Pump(d, s, Guest, READ_MAX);
            && t.host == s.host && t.up == s.up && t.down == [] && t.upAcc == s.upAcc && t.downAcc == 0
            && t.guest.gate == s.guest.gate && t.guest.tick == d + 1 && t.guest.ep == First() && Open(d, t.guest)
            && t.guest.tx == s.guest.tx
  {
    var f := s.down[0];
    assert s.down[1..] == [] && Bytes(s.down) == 7;
    var s1 := s.(downAcc := 7);
    assert Fetch(s, Guest, READ_MAX) == s1;
    var s2 := Deliver(d, s1, Guest);
    assert s.up + [] == s.up;
    assert s2.guest == s.guest.(rx := Next(d, s.guest.rx, f));
    assert Drain(d, s2, Guest) == s2;
  }

  /** The guest plays tick d+1, perhaps reporting it, and captures the next: an
      INPUT for tick 2d+2. */
  lemma GuestPlaysLast(d: nat, s: System)
    requires 1 <= d <= 127 && Early(Setup(d), s) && s.down == [] && s.up == []
    requires s.guest.gate && Open(d, s.guest) && s.guest.ep == First() && !Hold(s.guest) && s.guest.tick == d + 1
    ensures var t := Step(Setup(d), s, Go(Guest, 0, IDLE));
            && Early(Setup(d), t) && t.host == s.host && t.down == [] && t.upAcc == s.upAcc && t.downAcc == s.downAcc
            && !t.guest.gate && t.guest.tick == d + 2 && t.guest.ep == First() && !Hold(t.guest)
            && AtMostReport(t.up)
  {
    var cfg := Setup(d);
    hide Early, Play, Open, Watermark;
    GuestGoStays(cfg, s);
    GuestTurn(cfg, s);
    PlayKeeps(cfg, Guest, s.guest);
    PlaySends(cfg, Guest, s.guest);
    var out := Play(cfg, Guest, s.guest).1;
    assert [] + out == out;
  }

  lemma GuestTurn(cfg: Config, s: System)
    requires cfg.d >= 1 && s.guest.gate && Open(cfg.d, s.guest)
    ensures Step(cfg, s, Go(Guest, 0, IDLE)) == Emit(s, Guest, Play(cfg, Guest, s.guest))
  {
    hide Play, Open;
    GuestPendsNothing(cfg, s.guest);
  }

  predicate AtMostReport(up: seq<Frame>) {
    up == [] || (|up| == 1 && up[0].Crc? && up[0].ep == First() && up[0].t <= 128)
  }

  /** An INPUT for tick 2d+2, perhaps behind a report. */
  predicate LateUp(d: nat, up: seq<Frame>) {
    up != [] && AtMostReport(up[..|up| - 1]) && up[|up| - 1] == Input(First(), 2 * d + 2, IDLE)
  }

  /** The host at its second tick with a push due, a late INPUT on the way. */
  ghost predicate Loaded(d: nat, s: System) {
    && 1 <= d <= 127 && Early(Setup(d), s) && s.down == [] && s.upAcc == 0 && s.downAcc == 0
    && s.host.tick == 1 && s.host.gate && s.host.pend && s.host.sim == Blank() && s.host.ep == First() && Open(d, s.host)
    && s.guest.tick == d + 2 && s.guest.gate
    && LateUp(d, s.up)
  }

  /** The guest's gate opened by the host's last INPUT. */
  ghost predicate Heard(d: nat, s: System) {
    && 1 <= d <= 127 && Early(Setup(d), s) && s.down == [] && s.up == [] && s.upAcc == 0 && s.downAcc == 0
    && s.host.tick == 1 && s.host.gate && s.host.pend && s.host.sim == Blank() && s.host.ep == First() && Open(d, s.host)
    && s.guest.gate && Open(d, s.guest) && s.guest.ep == First() && !Hold(s.guest) && s.guest.tick == d + 1
  }

  lemma PoisedToHeard(d: nat, s: System)
    requires Poised(d, s)
    ensures Heard(d, Step(Setup(d), Step(Setup(d), s, Go(Host, 0, IDLE)), Go(Guest, READ_MAX, IDLE)))
  {
    PoisedGuest(d, s);
    hide Step, Early, Open, Blank;
    HostCapturesLast(d, s);
    var s2 := Step(Setup(d), s, Go(Host, 0, IDLE));
    HostStillOpen(d, s, s2);
    GuestHearsLast(d, s2);
    StillUnheld(d, Step(Setup(d), s2, Go(Guest, READ_MAX, IDLE)));
  }

  lemma HeardToLoaded(d: nat, s: System)
    requires Heard(d, s)
    ensures Loaded(d, Step(Setup(d), Step(Setup(d), s, Go(Guest, 0, IDLE)), Go(Guest, 0, IDLE)))
  {
    hide Step, Early, Open, Blank, LateUp, AtMostReport, Capture;
    GuestPlaysLast(d, s);
    var s4 := Step(Setup(d), s, Go(Guest, 0, IDLE));
    Captures0(Setup(d), s4, Guest);
    LastUp(d, s4.up, Step(Setup(d), s4, Go(Guest, 0, IDLE)).up);
    assert s4.down + [] == s4.down;
  }

  lemma ReachLoaded(d: nat) returns (acts: seq<Action>)
    requires 1 <= d <= 127
    ensures Loaded(d, Run(Setup(d), Start(Setup(d), Blank()), acts))
  {
    hide Run, Step, Poised, Heard, Loaded, Start;
    var cfg := Setup(d);
    var s0 := Start(cfg, Blank());
    var h, g, l := Go(Host, 0, IDLE), Go(Guest, 0, IDLE), Go(Guest, READ_MAX, IDLE);
    var a := ReachPoised(d);
    PoisedToHeard(d, Run(cfg, s0, a));
    RunSnoc(cfg, s0, a, h);
    RunSnoc(cfg, s0, a + [h], l);
    HeardToLoaded(d, Run(cfg, s0, a + [h] + [l]));
    RunSnoc(cfg, s0, a + [h] + [l], g);
    RunSnoc(cfg, s0, a + [h] + [l] + [g], g);
    acts := a + [h] + [l] + [g] + [g];
  }

  lemma StillUnheld(d: nat, s: System)
    requires 1 <= d <= 127 && Early(Setup(d), s)
    ensures !Hold(s.guest)
  {
    EarlyNoPush(Setup(d), s);
  }

  lemma HostStillOpen(d: nat, s: System, t: System)
    requires 1 <= d && Open(d, s.host) && t.host.rx == s.host.rx && t.host.ep == s.host.ep && t.host.tick == s.host.tick
    ensures Open(d, t.host)
  {
  }

  lemma LastUp(d: nat, up: seq<Frame>, up': seq<Frame>)
    requires up' == up + [Input(First(), d + 2 + d, IDLE)]
    requires AtMostReport(up)
    ensures LateUp(d, up')
  {
    assert up'[..|up|] == up;
  }

  // ---- epochs only grow ---------------------------------------------------

  /** Nobody pushes to the host. */
  ghost predicate UpHonest(s: System) {
    !Hold(s.host) && forall i :: 0 <= i < |s.up| ==> !s.up[i].Begin?
  }

  lemma {:induction false} HostDrainHonest(d: nat, s: System)
    requires d >= 1 && UpHonest(s)
    ensures var s' := Drain(d, s, Host); UpHonest(s') && s'.host.ep == s.host.ep
    decreases |s.up|
  {
    if Ready(s, Host) {
      ReceiveSamePlace(d, Host, s.host, s.up[0]);
      hide Receive;
      HostDrainHonest(d, Deliver(d, s, Host));
    }
  }

  lemma GuestOnlyAsks(d: nat, c: Con, f: Frame)
    requires d >= 1
    ensures forall i :: 0 <= i < |Receive(d, Guest, c, f).1| ==> Receive(d, Guest, c, f).1[i].Req?
  {
    hide Next;
  }

  lemma {:induction false} GuestDrainHonest(d: nat, s: System)
    requires d >= 1 && UpHonest(s)
    ensures var s' := Drain(d, s, Guest); UpHonest(s') && s'.host == s.host
    decreases |s.down|
  {
    if Ready(s, Guest) {
      GuestOnlyAsks(d, s.guest, s.down[0]);
      hide Receive;
      GuestDrainHonest(d, Deliver(d, s, Guest));
    }
  }

  lemma StepHonest(cfg: Config, s: System, a: Action)
    requires cfg.d >= 1 && UpHonest(s)
    ensures var s' := Step(cfg, s, a); UpHonest(s') && s.host.ep.no <= s'.host.ep.no
  {
    if !a.Fault? {
      if a.seat == Host {
        HostDrainHonest(cfg.d, Fetch(s, Host, a.k));
      } else {
        GuestDrainHonest(cfg.d, Fetch(s, Guest, a.k));
      }
    }
    match a
    case Fault(_, _) =>
    case Poll(_, _) =>
    case Go(Host, k, cell) => HostMoveHonest(cfg, s, k, cell);
    case Go(Guest, k, cell) => GuestMoveHonest(cfg, s, k, cell);
  }

  lemma HostMoveHonest(cfg: Config, s: System, k: nat, cell: Cell)
    requires cfg.d >= 1 && UpHonest(s)
    requires var p := Pump(cfg.d, s, Host, k); UpHonest(p) && p.host.ep == s.host.ep
    ensures var s' := Step(cfg, s, Go(Host, k, cell)); UpHonest(s') && s.host.ep.no <= s'.host.ep.no
  {
    var c := Play(cfg, Host, s.host).0;
    PlayKeeps(cfg, Host, s.host);
    PlayHold(cfg, Host, s.host);
    PendingCases(cfg.d, c);
    PushCounts(cfg.d, c);
    CaptureKeeps(cfg.d, Pump(cfg.d, s, Host, k).host, cell);
    PushHold(cfg.d, c);
    hide Play, Pending, Push, Capture, Pump;
  }

  lemma PlayHold(cfg: Config, seat: Seat, c: Con)
    requires cfg.d >= 1
    ensures Hold(Play(cfg, seat, c).0) == Hold(c)
  {
  }

  lemma PushHold(d: nat, c: Con)
    requires d >= 1
    ensures Hold(Push(d, c).0) == Hold(c)
  {
    hide Fold, PushFrames;
  }

  lemma GuestMoveHonest(cfg: Config, s: System, k: nat, cell: Cell)
    requires cfg.d >= 1 && UpHonest(s)
    requires var p := Pump(cfg.d, s, Guest, k); UpHonest(p) && p.host == s.host
    ensures var s' := Step(cfg, s, Go(Guest, k, cell)); UpHonest(s') && s'.host == s.host
  {
    GuestPendsNothing(cfg, s.guest);
    PlayKeeps(cfg, Guest, s.guest);
    CaptureKeeps(cfg.d, Pump(cfg.d, s, Guest, k).guest, cell);
    hide Play, Capture, Pump, PlayAndPend;
  }

  lemma {:induction false} RunHonest(cfg: Config, sim: Sim, acts: seq<Action>)
    requires cfg.d >= 1
    ensures UpHonest(Run(cfg, Start(cfg, sim), acts))
    decreases |acts|
  {
    if acts != [] {
      RunHonest(cfg, sim, acts[..|acts| - 1]);
      StepHonest(cfg, Run(cfg, Start(cfg, sim), acts[..|acts| - 1]), acts[|acts| - 1]);
    }
  }

  /** A run that ends without a push never had one. */
  lemma {:induction false} CalmFromEnd(cfg: Config, sim: Sim, acts: seq<Action>)
    requires cfg.d >= 1 && Run(cfg, Start(cfg, sim), acts).host.ep.no == 0
    ensures CalmRun(cfg, Start(cfg, sim), acts)
    decreases |acts|
  {
    if acts != [] {
      var before := acts[..|acts| - 1];
      RunHonest(cfg, sim, before);
      StepHonest(cfg, Run(cfg, Start(cfg, sim), before), acts[|acts| - 1]);
      CalmFromEnd(cfg, sim, before);
    }
  }

  // ---- the 16-bit machine accepts it --------------------------------------

  /** The host's push, in a loaded state: it rebases to tick 18 while the guest
      has not seen a byte of it. */
  lemma LoadedPushes(d: nat, s: System, t: System16)
    requires Loaded(d, s) && Related(d, s, t)
    ensures var u := Step16(Setup(d), t, Go(Host, 0, IDLE));
            && u.host.tick == 18 && u.host.wm == Wrap(18 + d - 1) && !u.host.gate && !u.host.pend && !u.host.hold
            && u.host.records == NoRecords()
            && u.down != [] && u.down[0] == Begin16(18) && u.downAcc == 0 && u.guest == t.guest && !u.guest.hold
            && u.up == t.up && u.upAcc == 0
  {
    hide PlayAndPend16, Inv, RingShows, RecordsShow, LogOk, Recorded;
    var cfg := Setup(d);
    WithinReach(cfg, s);
    OpenShows(d, Host, s.host, t.host);
    EarlyNoPush(cfg, s);
    assert |t.down| == 0;
    Pushes16(cfg, t.host);
  }

  lemma Pushes16(cfg: Config, c: Con16)
    requires 1 <= cfg.d <= 127 && cfg.cart == Still && c.tick == 1 && c.pend && !c.hold && Quiescent(c.sim)
    ensures var (c', out) := PlayAndPend16(cfg, Host, c);
            && c'.tick == 18 && c'.wm == Wrap(18 + cfg.d - 1) && !c'.gate && !c'.pend && !c'.hold
            && c'.records == NoRecords() && out != [] && out[0] == Begin16(18)
  {
    hide Chunks16, Clamp, Reads16;
  }

  /** A console just rebased, with a late INPUT, perhaps behind a report, as all
      that is on its way. */
  lemma AcceptsLate(d: nat, u: System16, up: seq<Frame>)
    requires 16 <= d <= 127 && LateUp(d, up) && u.up == EncodeAll(Guest, up) && u.upAcc == 0
    requires u.host.wm == Wrap(18 + d - 1) && !u.host.gate && !u.host.pend && !u.host.hold && u.host.records == NoRecords()
    ensures var v := Step16(Setup(d), u, Poll(Host, READ_MAX));
            v.host.wm == 2 * d + 2 && v.guest == u.guest && v.down == u.down
  {
    var late := Input16(1, Wrap(2 * d + 2), IDLE);
    if |up| == 1 {
      assert u.up == [late];
      LastDrain(d, u.(upAcc := 7), late);
      OneFrame(late);
      assert Pump16(d, u, Host, READ_MAX) == Drain16(d, u.(upAcc := 7), Host);
    } else {
      var crc := Encode(Guest, up[0]);
      assert up[..|up| - 1][0] == up[0];
      assert u.up == [crc, late];
      OneFrame(late);
      TwoFrames(crc, late);
      var u1 := u.(upAcc := 14);
      assert Pump16(d, u, Host, READ_MAX) == Drain16(d, u1, Host);
      FirstDrain(d, u1, crc, late);
      LastDrain(d, u1.(up := [late], upAcc := 7), late);
    }
  }

  lemma OneFrame(f: Frame16)
    ensures Bytes16([f]) == Size16(f)
  {
    assert [f][1..] == [];
  }

  lemma TwoFrames(f: Frame16, g: Frame16)
    ensures Bytes16([f, g]) == Size16(f) + Size16(g)
  {
    assert [f, g][1..] == [g];
    OneFrame(g);
  }

  /** A report finds no record: nothing changes. */
  lemma FirstDrain(d: nat, u: System16, crc: Frame16, late: Frame16)
    requires u.up == [crc, late] && u.upAcc == 14 && crc.Crc16? && crc.t <= 128 && u.host.records == NoRecords()
    ensures Drain16(d, u, Host) == Drain16(d, u.(up := [late], upAcc := 7), Host)
  {
    assert u.down + [] == u.down && u.up[1..] == [late];
    assert ReceiveCrc16(Host, u.host, crc.t, crc.crc) == (u.host, []);
    assert Deliver16(d, u, Host) == u.(up := [late], upAcc := 7);
  }

  /** The late INPUT is ahead of the new watermark, so it is accepted. */
  lemma LastDrain(d: nat, u: System16, late: Frame16)
    requires 16 <= d <= 127 && u.up == [late] && u.upAcc == 7 && late == Input16(1, Wrap(2 * d + 2), IDLE)
    requires u.host.wm == Wrap(18 + d - 1)
    ensures var v := Drain16(d, u, Host); v.host.wm == 2 * d + 2 && v.guest == u.guest && v.down == u.down
  {
    assert u.down + [] == u.down && u.up[1..] == [];
    DeltaOrders(2 * d + 2, 18 + d - 1);
    var v := Deliver16(d, u, Host);
    assert v.host.wm == Wrap(2 * d + 2) == 2 * d + 2 && v.up == [];
    assert Drain16(d, v, Host) == v;
  }

  /** With any delay from 16 on, some schedule makes the host, just rebased to
      tick R with watermark R+d-1, accept an INPUT of a guest that has not seen
      a byte of the push. */
  lemma SixteenIsTooMany(d: nat) returns (acts: seq<Action>)
    requires 16 <= d <= 127
    ensures var cfg := Setup(d);
            var u := Run16(cfg, Start16(cfg, Blank()), acts);
            var v := Step16(cfg, u, Poll(Host, READ_MAX));
            && u.host.wm == Wrap(u.host.tick + d - 1) && !u.host.hold
            && u.down != [] && u.down[0] == Begin16(u.host.tick) && u.downAcc == 0 && !u.guest.hold
            && v.guest == u.guest && v.down == u.down && v.host.wm != u.host.wm
  {
    hide Loaded, Related, Run, Run16, CalmRun, Step16, Start, Start16, Blank;
    var cfg := Setup(d);
    var before := ReachLoaded(d);
    var s, t := Run(cfg, Start(cfg, Blank()), before), Run16(cfg, Start16(cfg, Blank()), before);
    LoadedEarly(d, s);
    CalmFromEnd(cfg, Blank(), before);
    RunRelated(cfg, Blank(), before);
    PushedThenLate(d, s, t);
    acts := before + [Go(Host, 0, IDLE)];
    Run16Snoc(cfg, Start16(cfg, Blank()), before, Go(Host, 0, IDLE));
  }

  lemma LoadedEarly(d: nat, s: System)
    requires Loaded(d, s)
    ensures s.host.ep.no == 0
  {
  }

  lemma Run16Snoc(cfg: Config, s: System16, acts: seq<Action>, a: Action)
    ensures Run16(cfg, s, acts + [a]) == Step16(cfg, Run16(cfg, s, acts), a)
  {
    assert (acts + [a])[..|acts|] == acts;
  }

  lemma SmallWrap(x: nat)
    requires x < 0x1_0000
    ensures Wrap(x) == x
  {
  }

  lemma PushedThenLate(d: nat, s: System, t: System16)
    requires 16 <= d <= 127 && Loaded(d, s) && Related(d, s, t)
    ensures var u := Step16(Setup(d), t, Go(Host, 0, IDLE));
            var v := Step16(Setup(d), u, Poll(Host, READ_MAX));
            && u.host.wm == Wrap(u.host.tick + d - 1) && !u.host.hold
            && u.down != [] && u.down[0] == Begin16(u.host.tick) && u.downAcc == 0 && !u.guest.hold
            && v.guest == u.guest && v.down == u.down && v.host.wm != u.host.wm
  {
    hide *;
    LoadedPushes(d, s, t);
    LoadedUp(d, s, t);
    SmallWrap(18 + d - 1);
    AcceptsLate(d, Step16(Setup(d), t, Go(Host, 0, IDLE)), s.up);
  }

  lemma LoadedUp(d: nat, s: System, t: System16)
    requires Loaded(d, s) && Related(d, s, t)
    ensures LateUp(d, s.up) && t.up == EncodeAll(Guest, s.up)
  {
  }

  /** The skew bound is reached, for every delay: the guest d+1 ticks ahead in
      the same epoch. */
  lemma SkewReached(d: nat) returns (acts: seq<Action>)
    requires 1 <= d <= 127
    ensures var s := Run(Setup(d), Start(Setup(d), Blank()), acts);
            s.guest.ep == s.host.ep && s.guest.tick - s.host.tick == d + 1
  {
    hide Run, Start, Blank;
    acts := ReachLoaded(d);
    EarlyNoPush(Setup(d), Run(Setup(d), Start(Setup(d), Blank()), acts));
  }

  // ---- the exact bound ----------------------------------------------------

  /** The guest has not seen a byte of a push on its way, and yet the next pump
      moves the watermark the host rebased to. */
  predicate Late(cfg: Config, sim: Sim, acts: seq<Action>) {
    var u := Run16(cfg, Start16(cfg, sim), acts);
    u.down != [] && u.down[0].Begin16? && Step16(cfg, u, Poll(Host, READ_MAX)).host.wm != u.host.wm
  }

  lemma NeverLate(cfg: Config, sim: Sim, acts: seq<Action>)
    requires ShortDelay(cfg)
    ensures !Late(cfg, sim, acts)
  {
    hide Run, Run16, Stable, Related, Step, Step16, CalmRun, Start, Start16;
    var a := Poll(Host, READ_MAX);
    var s, u := Run(cfg, Start(cfg, sim), acts), Run16(cfg, Start16(cfg, sim), acts);
    AlwaysCalm(cfg, Start(cfg, sim), acts);
    RunStable(cfg, sim, acts);
    RunRelated(cfg, sim, acts);
    StepKeeps(cfg, s, a);
    StepRelated(cfg, s, u, a);
    MarksShow(cfg, s, u);
    MarksShow(cfg, Step(cfg, s, a), Step16(cfg, u, a));
    if u.down != [] && u.down[0].Begin16? {
      UnseenPush(cfg, s, u);
      PollKeepsGuest(cfg, s);
      MarkFixed(cfg, s);
      MarkFixed(cfg, Step(cfg, s, a));
    }
  }

  lemma MarksShow(cfg: Config, s: System, u: System16)
    requires cfg.d >= 1 && Related(cfg.d, s, u)
    ensures u.host.wm == Wrap(Watermark(cfg.d, s.host))
  {
  }

  lemma UnseenPush(cfg: Config, s: System, u: System16)
    requires cfg.d >= 1 && Stable(cfg, s) && Related(cfg.d, s, u) && u.down != [] && u.down[0].Begin16?
    ensures s.guest.ep.no < s.host.ep.no
  {
    assert u.down[0] == Encode(Host, s.down[0]);
    InFlightHead(cfg.d, false, s.down, s.guest.rx);
  }

  lemma PollKeepsGuest(cfg: Config, s: System)
    requires Legal(cfg) && Stable(cfg, s)
    ensures var s' := Step(cfg, s, Poll(Host, READ_MAX)); s'.guest == s.guest && s'.host.ep == s.host.ep
  {
    HostPumps(cfg, s, READ_MAX);
    hide Stable, Pump;
  }

  /** While the guest lags an epoch behind, the host's watermark is the one it
      rebased to. */
  lemma MarkFixed(cfg: Config, s: System)
    requires Legal(cfg) && Stable(cfg, s) && s.guest.ep.no < s.host.ep.no
    ensures Watermark(cfg.d, s.host) == FirstMark(cfg.d, s.host.ep)
  {
    StandApart(cfg.d, s);
  }

  /** The resume offset of 16 is enough exactly for delays up to 15. */
  lemma ExactDelayBound(d: nat)
    requires 1 <= d <= 127
    ensures d <= 15 <==> forall cfg: Config, sim: Sim, acts: seq<Action> :: cfg.d == d ==> !Late(cfg, sim, acts)
  {
    if d <= 15 {
      forall cfg: Config, sim: Sim, acts: seq<Action> | cfg.d == d ensures !Late(cfg, sim, acts) {
        NeverLate(cfg, sim, acts);
      }
    } else {
      var acts := SixteenIsTooMany(d);
      assert Setup(d).d == d && Late(Setup(d), Blank(), acts) by {
        hide Run16, Step16, Start16, Blank;
      }
    }
  }
}
