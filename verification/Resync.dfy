/** Resync: what survives faults, state pushes and rebases, on every schedule. */
module Resync {
  import opened Words
  import opened GameState
  import opened Wire
  import opened Ideal
  import opened Captures
  import opened IdealInvariant
  import opened History
  import opened IdealRuns
  import opened Console16
  import opened Refinement
  import opened Lockstep

  /** A delay the resume offset of 16 covers. */
  predicate ShortDelay(cfg: Config) {
    1 <= cfg.d <= 15
  }

  lemma {:induction false} AlwaysCalm(cfg: Config, s: System, acts: seq<Action>)
    requires ShortDelay(cfg)
    ensures CalmRun(cfg, s, acts)
    decreases |acts|
  {
    if acts != [] {
      AlwaysCalm(cfg, s, acts[..|acts| - 1]);
    }
  }

  // ---- soundness ---------------------------------------------------------

  /** Resync soundness.  With any faults and any number of resyncs, every tick
      of every epoch reads, on both consoles, exactly what the two seats captured
      for it and for the tick before in that epoch, idle where they captured
      nothing; and in an epoch no fault hit, each console's states are the
      one-machine game over those cells, from the state the host pushed. */
  lemma ResyncSoundness(cfg: Config, sim: Sim, acts: seq<Action>, seat: Seat, k: At)
    requires ShortDelay(cfg)
    ensures var s := Run(cfg, Start(cfg, sim), acts);
            var c := Get(s, seat);
            var starts := s.host.tx.starts;
            && (k in c.used ==>
                  && c.used[k].cur0 == CellFor(cfg, sim, acts, Host, k.ep, k.t)
                  && c.used[k].prev0 == CellFor(cfg, sim, acts, Host, k.ep, k.t - 1)
                  && c.used[k].cur1 == CellFor(cfg, sim, acts, Guest, k.ep, k.t)
                  && c.used[k].prev1 == CellFor(cfg, sim, acts, Guest, k.ep, k.t - 1))
            && (k in c.sims && k.ep !in s.bad ==>
                  && k.ep.base <= k.t && k.ep in starts
                  && c.sims[k] == Game(cfg, sim, acts, starts[k.ep], k.ep, k.t))
  {
    hide Run, Start, CellFor, Game, Solo, Stable, CalmRun, InputsAt;
    var s := Run(cfg, Start(cfg, sim), acts);
    AlwaysCalm(cfg, Start(cfg, sim), acts);
    RunStable(cfg, sim, acts);
    var c := Get(s, seat);
    StableTrace(cfg, s, seat);
    InputsCaptured(cfg, sim, acts, k.ep, k.t);
    if k in c.sims && k.ep !in s.bad {
      PlaysSolo(cfg, c, s.host.tx.log, s.guest.tx.log, s.host.tx.starts, s.bad, k);
      GameIsSolo(cfg, sim, acts, s.host.tx.starts[k.ep], k.ep, k.t);
    }
  }

  /** The record is the 16-bit console's own: in the current epoch its state,
      and the cells its open gate would read. */
  lemma RecordIsReal(cfg: Config, sim: Sim, acts: seq<Action>, seat: Seat)
    requires ShortDelay(cfg)
    ensures var s := Run(cfg, Start(cfg, sim), acts);
            var t := Run16(cfg, Start16(cfg, sim), acts);
            var a, c := Get(s, seat), Get16(t, seat);
            && c.tick == Wrap(a.tick) && c.sim == a.sim && c.gate == a.gate && c.hold == Hold(a) && c.pend == a.pend
            && (!Partial(a) && a.ep !in s.bad ==> At(a.ep, a.tick) in a.sims && c.sim == a.sims[At(a.ep, a.tick)])
            && (c.gate && Open16(c) ==> Holds(cfg, sim, acts, c, a.ep, a.tick))
  {
    hide Run, Run16, Start, Start16, Stable, Related, CalmRun, Calm, Open16, Holds, Showing;
    var s, t := Run(cfg, Start(cfg, sim), acts), Run16(cfg, Start16(cfg, sim), acts);
    AlwaysCalm(cfg, Start(cfg, sim), acts);
    RunStable(cfg, sim, acts);
    RunRelated(cfg, sim, acts);
    CalmAtEnd(cfg, Start(cfg, sim), acts);
    StableTrace(cfg, s, seat);
    ShownCells(cfg, s, t, seat);
    ShownReads(cfg, s, t, seat);
    ShownCaptures(cfg, sim, acts, Get16(t, seat), Get(s, seat).ep, Get(s, seat).tick);
  }

  lemma CalmAtEnd(cfg: Config, s: System, acts: seq<Action>)
    requires cfg.d >= 1 && CalmRun(cfg, s, acts)
    ensures Calm(cfg, Run(cfg, s, acts))
  {
  }

  /** After a resync the game is one again: in an epoch no fault hit, once the
      guest has rebased, equal 16-bit ticks mean equal states. */
  lemma RepairedStatesAgree(cfg: Config, sim: Sim, acts: seq<Action>)
    requires ShortDelay(cfg)
    ensures var s := Run(cfg, Start(cfg, sim), acts);
            var t := Run16(cfg, Start16(cfg, sim), acts);
            s.host.ep == s.guest.ep && s.host.ep !in s.bad && t.host.tick == t.guest.tick ==> t.host.sim == t.guest.sim
  {
    var s := Run(cfg, Start(cfg, sim), acts);
    AlwaysCalm(cfg, Start(cfg, sim), acts);
    RunStable(cfg, sim, acts);
    StandApart(cfg.d, s);
    RecordIsReal(cfg, sim, acts, Host);
    RecordIsReal(cfg, sim, acts, Guest);
    ResyncSoundness(cfg, sim, acts, Host, At(s.host.ep, s.host.tick));
    ResyncSoundness(cfg, sim, acts, Guest, At(s.guest.ep, s.guest.tick));
    WrapInjective(s.host.tick, s.guest.tick);
  }

  /** An INPUT on its way into a 16-bit console changes it exactly when it was
      sent in the epoch the console is in: nothing sent before a rebase is
      accepted after it, and nothing sent since is lost. */
  lemma StaleInputs(cfg: Config, sim: Sim, acts: seq<Action>, seat: Seat)
    requires ShortDelay(cfg)
    requires var s := Run(cfg, Start(cfg, sim), acts);
             Inbound(s, seat) != [] && Inbound(s, seat)[0].Input?
    ensures var s := Run(cfg, Start(cfg, sim), acts);
            var t := Run16(cfg, Start16(cfg, sim), acts);
            var f := Inbound(s, seat)[0];
            var c := Get16(t, seat);
            && Inbound16(t, seat) != [] && Inbound16(t, seat)[0] == Encode(if seat == Host then Guest else Host, f)
            && (Receive16(cfg.d, seat, c, Inbound16(t, seat)[0]).0 != c <==> f.ep == Get(s, seat).ep)
  {
    var s, t := Run(cfg, Start(cfg, sim), acts), Run16(cfg, Start16(cfg, sim), acts);
    AlwaysCalm(cfg, Start(cfg, sim), acts);
    RunStable(cfg, sim, acts);
    RunRelated(cfg, sim, acts);
    HeadDecides(cfg, s, t, seat);
  }

  lemma HeadDecides(cfg: Config, s: System, t: System16, seat: Seat)
    requires ShortDelay(cfg) && Good(cfg, s) && Related(cfg.d, s, t)
    requires Inbound(s, seat) != [] && Inbound(s, seat)[0].Input?
    ensures var f := Inbound(s, seat)[0];
            var c := Get16(t, seat);
            && Inbound16(t, seat) != [] && Inbound16(t, seat)[0] == Encode(if seat == Host then Guest else Host, f)
            && (Receive16(cfg.d, seat, c, Inbound16(t, seat)[0]).0 != c <==> f.ep == Get(s, seat).ep)
  {
    var f, a, c := Inbound(s, seat)[0], Get(s, seat), Get16(t, seat);
    WithinReach(cfg, s);
    ArrivingInput(cfg, s, seat);
    assert Inbound16(t, seat)[0] == Encode(if seat == Host then Guest else Host, f);
    assert c.wm == Wrap(Watermark(cfg.d, a));
    hide Good, Related, Watermark, ReceiveInput, Calm;
    InputDecides(seat, c, f.t, Watermark(cfg.d, a), f.cell);
  }

  /** The 16-bit test lets exactly the INPUTs past the watermark in, as long as
      frame and watermark are less than 2^15 apart. */
  lemma InputDecides(seat: Seat, c: Con16, t: nat, wm: nat, cell: Cell)
    requires c.wm == Wrap(wm) && -0x8000 <= t - wm < 0x8000
    ensures ReceiveInput(seat, c, if seat == Host then 1 else 0, Wrap(t), cell) != c <==> wm < t
  {
    DeltaOrders(t, wm);
    if wm < t {
      assert Wrap(t) != c.wm;
    }
  }

  // ---- the image ---------------------------------------------------------

  /** Once part of an image has been applied and until the rebase, the guest's
      next stretch of LS_PASS only pumps, whether it stands at the top of a pass
      or waits inside the gate. */
  lemma OnlyPumps(cfg: Config, sim: Sim, acts: seq<Action>, k: nat, cell: Cell)
    requires ShortDelay(cfg)
    ensures var s := Run(cfg, Start(cfg, sim), acts);
            var t := Run16(cfg, Start16(cfg, sim), acts);
            Partial(s.guest) ==>
              && Step16(cfg, t, Go(Guest, k, cell)) == Pump16(cfg.d, t, Guest, k)
              && Step(cfg, s, Go(Guest, k, cell)) == Pump(cfg.d, s, Guest, k)
  {
    var s, t := Run(cfg, Start(cfg, sim), acts), Run16(cfg, Start16(cfg, sim), acts);
    AlwaysCalm(cfg, Start(cfg, sim), acts);
    RunStable(cfg, sim, acts);
    RunRelated(cfg, sim, acts);
    if Partial(s.guest) {
      PartialShuts(cfg, s, t);
    }
    hide Stable, Related, Pump, Pump16, Open, Open16, Partial;
  }

  lemma PartialShuts(cfg: Config, s: System, t: System16)
    requires ShortDelay(cfg) && Good(cfg, s) && Related(cfg.d, s, t) && Partial(s.guest)
    ensures t.guest.gate == s.guest.gate && t.guest.hold && Hold(s.guest)
    ensures t.guest.gate ==> !Open16(t.guest) && !Open(cfg.d, s.guest)
  {
    WithinReach(cfg, s);
    OpenShows(cfg.d, Guest, s.guest, t.guest);
  }

  /** Delivering frames runs no tick. */
  lemma {:induction false} DrainPlaysNothing(d: nat, s: System, seat: Seat)
    requires d >= 1
    ensures var s' := Drain(d, s, seat); s'.host.used == s.host.used && s'.guest.used == s.guest.used
    decreases |Inbound(s, seat)|
  {
    if Ready(s, seat) {
      ReceivePlaysNothing(d, seat, Get(s, seat), Inbound(s, seat)[0]);
      DrainPlaysNothing(d, Deliver(d, s, seat), seat);
    }
  }

  lemma ReceivePlaysNothing(d: nat, seat: Seat, c: Con, f: Frame)
    requires d >= 1
    ensures Receive(d, seat, c, f).0.used == c.used
  {
    hide Next;
  }

  /** Image application is atomic with respect to game ticks: the guest plays
      no tick between the first image byte applied and its rebase, however the
      actions interleave. */
  lemma {:induction false} ImageAtomic(cfg: Config, sim: Sim, acts: seq<Action>, more: seq<Action>)
    requires ShortDelay(cfg)
    requires forall i :: 0 <= i <= |more| ==> Partial(Run(cfg, Start(cfg, sim), acts + more[..i]).guest)
    ensures Run(cfg, Start(cfg, sim), acts + more).guest.used == Run(cfg, Start(cfg, sim), acts).guest.used
    decreases |more|
  {
    hide Partial, Run, Start;
    if more == [] {
      assert acts + more == acts;
    } else {
      var n := |more| - 1;
      var before := acts + more[..n];
      assert acts + more == before + [more[n]];
      RunSnoc(cfg, Start(cfg, sim), before, more[n]);
      forall i | 0 <= i <= n ensures Partial(Run(cfg, Start(cfg, sim), acts + more[..n][..i]).guest) {
        assert more[..n][..i] == more[..i];
      }
      ImageAtomic(cfg, sim, acts, more[..n]);
      PartialPlaysNothing(cfg, sim, before, more[n]);
    }
  }

  lemma PartialPlaysNothing(cfg: Config, sim: Sim, acts: seq<Action>, a: Action)
    requires ShortDelay(cfg) && Partial(Run(cfg, Start(cfg, sim), acts).guest)
    ensures var s := Run(cfg, Start(cfg, sim), acts); Step(cfg, s, a).guest.used == s.guest.used
  {
    var s := Run(cfg, Start(cfg, sim), acts);
    match a
    case Go(Guest, k, cell) =>
      OnlyPumps(cfg, sim, acts, k, cell);
      DrainPlaysNothing(cfg.d, Fetch(s, Guest, k), Guest);
    case Go(Host, k, _) => DrainPlaysNothing(cfg.d, Fetch(s, Host, k), Host);
    case Poll(seat, k) => DrainPlaysNothing(cfg.d, Fetch(s, seat, k), seat);
    case Fault(_, _) =>
  }

  // ---- checksum reports --------------------------------------------------

  /** Detection is complete and raises no false alarm, with any faults and
      resyncs.  A report both consoles received while neither holding, pending
      nor in another epoch was compared by at least one of them, the early
      tick-0 frames included.  A comparison raises an alarm exactly when the
      two consoles' checksums differ, and in an epoch no fault hit they never
      do. */
  lemma DetectionComplete(cfg: Config, sim: Sim, acts: seq<Action>, k: At)
    requires Legal(cfg) && CalmRun(cfg, Start(cfg, sim), acts)
    ensures var s := Run(cfg, Start(cfg, sim), acts);
            var h, g := s.host, s.guest;
            && (k in h.seen && k in g.seen ==> k in h.compared || k in g.compared)
            && (k in h.compared || k in g.compared ==> k in h.tx.crcs && k in g.tx.crcs)
            && (k in h.compared ==> (k in h.alarms <==> h.tx.crcs[k] != g.tx.crcs[k]))
            && (k in g.compared ==> (k in g.alarms <==> h.tx.crcs[k] != g.tx.crcs[k]))
            && (k in h.alarms || k in g.alarms ==> k.ep in s.bad)
  {
    var s := Run(cfg, Start(cfg, sim), acts);
    RunStable(cfg, sim, acts);
    FoldKeeps(cfg.d, true, s.up, s.host.rx);
    FoldKeeps(cfg.d, false, s.down, s.guest.rx);
    hide Local, HostOk, GuestOk, Bounds, Agreeing, Past, HostPast, Run, CalmRun;
  }

  /** Every report is the checksum of a recorded state. */
  lemma ReportsAreChecksums(cfg: Config, sim: Sim, acts: seq<Action>, seat: Seat, k: At)
    requires Legal(cfg) && CalmRun(cfg, Start(cfg, sim), acts)
    ensures var c := Get(Run(cfg, Start(cfg, sim), acts), seat);
            k in c.tx.crcs ==> At(k.ep, k.t + 1) in c.sims && c.tx.crcs[k] == Checksum(c.sims[At(k.ep, k.t + 1)])
  {
    hide Run, CalmRun, Stable, Checksum;
    RunStable(cfg, sim, acts);
    StableReports(cfg, Run(cfg, Start(cfg, sim), acts), seat);
  }

  lemma StableReports(cfg: Config, s: System, seat: Seat)
    requires cfg.d >= 1 && Stable(cfg, s)
    ensures ReportsTrue(Get(s, seat))
  {
    hide Inv, Truthful, Traced, Past, HostPast, Compared, OneCompares, Undisturbed, ReportsTrue, NoFalseAlarm;
  }

  // ---- bounded repair ----------------------------------------------------

  /** The host's RS_PENDING calls along a run: one per tick it plays. */
  function PendingCalls(cfg: Config, s: System, acts: seq<Action>): nat
    requires cfg.d >= 1
    decreases |acts|
  {
    if acts == [] then 0
    else
      var before := acts[..|acts| - 1];
      PendingCalls(cfg, s, before) + if HostPlaysNext(cfg, Run(cfg, s, before), acts[|acts| - 1]) then 1 else 0
  }

  predicate HostPlaysNext(cfg: Config, s: System, a: Action)
    requires cfg.d >= 1
  {
    a.Go? && a.seat == Host && s.host.gate && Open(cfg.d, s.host)
  }

  /** Either the host has pushed since, or it is still pending and has counted
      every call. */
  predicate Waiting(before: Con, now: Con, calls: nat) {
    || before.ep.no < now.ep.no
    || (now.ep == before.ep && now.pend && now.ptmo == before.ptmo + calls)
  }

  lemma StepWaits(cfg: Config, s: System, a: Action)
    requires ShortDelay(cfg) && Stable(cfg, s)
    ensures var s' := Step(cfg, s, a);
            && s.host.ep.no <= s'.host.ep.no
            && (s.host.pend ==> Waiting(s.host, s'.host, if HostPlaysNext(cfg, s, a) then 1 else 0))
  {
    hide Stable, Pump, PlayAndPend, Capture, Open;
    match a
    case Fault(_, _) =>
    case Poll(Host, k) => HostPumps(cfg, s, k);
    case Poll(Guest, k) => if !s.guest.gate { GuestPumps(cfg, s, k); }
    case Go(Guest, k, cell) => if !(s.guest.gate && Open(cfg.d, s.guest)) { GuestPumps(cfg, s, k); }
    case Go(Host, k, cell) =>
      if s.host.gate && Open(cfg.d, s.host) {
        HostTurns(cfg, s);
      } else {
        HostPumps(cfg, s, k);
        CaptureWaits(cfg.d, Pump(cfg.d, s, Host, k).host, cell);
      }
  }

  lemma CaptureWaits(d: nat, c: Con, cell: Cell)
    requires d >= 1
    ensures var c' := Capture(d, c, cell).0; c'.ep == c.ep && c'.pend == c.pend && c'.ptmo == c.ptmo
  {
  }

  lemma {:induction false} RunWaits(cfg: Config, s: System, acts: seq<Action>)
    requires ShortDelay(cfg) && Stable(cfg, s) && s.host.pend
    ensures Stable(cfg, Run(cfg, s, acts))
    ensures Waiting(s.host, Run(cfg, s, acts).host, PendingCalls(cfg, s, acts))
    decreases |acts|
  {
    if acts != [] {
      var before := acts[..|acts| - 1];
      RunWaits(cfg, s, before);
      StepKeeps(cfg, Run(cfg, s, before), acts[|acts| - 1]);
      StepWaits(cfg, Run(cfg, s, before), acts[|acts| - 1]);
    }
  }

  /** Bounded repair: from any moment the host has a resync pending, on any
      schedule and whatever is delivered meanwhile, it has pushed by its 60th
      RS_PENDING call. */
  lemma BoundedRepair(cfg: Config, sim: Sim, acts: seq<Action>, more: seq<Action>)
    requires ShortDelay(cfg)
    requires var s := Run(cfg, Start(cfg, sim), acts);
             s.host.pend && PendingCalls(cfg, s, more) >= PEND_MAX
    ensures var s := Run(cfg, Start(cfg, sim), acts); Run(cfg, s, more).host.ep.no > s.host.ep.no
  {
    var s := Run(cfg, Start(cfg, sim), acts);
    AlwaysCalm(cfg, Start(cfg, sim), acts);
    RunStable(cfg, sim, acts);
    RunWaits(cfg, s, more);
    assert HostOk(cfg.d, Run(cfg, s, more).host);
  }

  /** Pending alone stops nothing: in any state, pending or not, a console that
      is not held captures, and one whose gate is open plays its tick, going on
      to the next or, when it pushes, to the resume tick. */
  lemma PendingNeverStops(cfg: Config, t: System16, seat: Seat, k: nat, cell: Cell)
    ensures var c := Get16(t, seat);
            var c' := Get16(Step16(cfg, t, Go(seat, k, cell)), seat);
            && (!c.gate && !c.hold ==> c'.gate)
            && (c.gate && Open16(c) ==>
                  !c'.gate && (c'.tick == Wrap(c.tick + 1) || (seat == Host && c.pend && c'.tick == Wrap(c.tick + 17))))
  {
    var c := Get16(t, seat);
    var c1 := Play16(cfg, seat, c).0;
    WrapAdd(c.tick + 1, 16);
    hide Drain16, Pump16, Chunks16, Reads16, Clamp, Open16;
  }

  // ---- one request per epoch ---------------------------------------------

  /** What an action appends to the guest's stream. */
  function Sends(cfg: Config, s: System, a: Action): seq<Frame>
    requires cfg.d >= 1
  {
    var s' := Step(cfg, s, a);
    if a.Fault? || a.seat == Host || |s'.up| < |s.up| then [] else s'.up[|s.up|..]
  }

  /** Every frame the guest has sent. */
  function Sent(cfg: Config, s: System, acts: seq<Action>): seq<Frame>
    requires cfg.d >= 1
    decreases |acts|
  {
    if acts == [] then []
    else
      var before := acts[..|acts| - 1];
      Sent(cfg, s, before) + Sends(cfg, Run(cfg, s, before), acts[|acts| - 1])
  }

  function Requests(fs: seq<Frame>, ep: Epoch): nat {
    if fs == [] then 0 else (if fs[0].Req? && fs[0].ep == ep then 1 else 0) + Requests(fs[1..], ep)
  }

  /** Along an honest stream an epoch is asked for at most once, and not again
      once asked or left behind. */
  lemma {:induction false} AskedOnce(d: nat, fs: seq<Frame>, w: Wire, ep: Epoch)
    requires d >= 1 && Sane(d, w) && Chain(d, true, fs, w)
    ensures Requests(fs, ep) <= if ep.no < w.ep.no || (ep == w.ep && w.req) then 0 else 1
    decreases |fs|
  {
    if fs != [] {
      SaneNext(d, true, w, fs[0]);
      AskedOnce(d, fs[1..], Next(d, w, fs[0]), ep);
    }
  }

  lemma {:induction false} GuestDrainAppends(d: nat, s: System)
    requires d >= 1
    ensures s.up <= Drain(d, s, Guest).up
    decreases |s.down|
  {
    if Ready(s, Guest) {
      GuestDrainAppends(d, Deliver(d, s, Guest));
    }
  }

  lemma GuestAppends(cfg: Config, s: System, a: Action)
    requires ShortDelay(cfg) && Stable(cfg, s) && !a.Fault? && a.seat == Guest
    ensures var s' := Step(cfg, s, a); s.up <= s'.up && s'.host == s.host
  {
    if (a.Poll? && !s.guest.gate) || (a.Go? && !(s.guest.gate && Open(cfg.d, s.guest))) {
      GuestPumps(cfg, s, a.k);
      GuestDrainAppends(cfg.d, Fetch(s, Guest, a.k));
    }
  }

  /** An action extends the guest's stream by what it sends. */
  lemma StepSends(cfg: Config, s: System, a: Action)
    requires ShortDelay(cfg) && Stable(cfg, s)
    ensures var out := Sends(cfg, s, a);
            Chain(cfg.d, true, out, s.guest.tx) && Fold(cfg.d, out, s.guest.tx) == Step(cfg, s, a).guest.tx
  {
    hide Stable, Step;
    if a.Fault? {
      FaultKeepsWires(cfg, s, a);
    } else if a.seat == Guest {
      GuestAppends(cfg, s, a);
      StepKeeps(cfg, s, a);
      StableLink(cfg, s);
      StableLink(cfg, Step(cfg, s, a));
      Extend(cfg.d, true, s.up, Sends(cfg, s, a), s.host.rx);
      assert Step(cfg, s, a).up == s.up + Sends(cfg, s, a);
    } else {
      HostLeavesGuest(cfg, s, a);
    }
  }

  lemma StableLink(cfg: Config, s: System)
    requires cfg.d >= 1 && Stable(cfg, s)
    ensures Chain(cfg.d, true, s.up, s.host.rx) && Fold(cfg.d, s.up, s.host.rx) == s.guest.tx
  {
  }

  lemma FaultKeepsWires(cfg: Config, s: System, a: Action)
    requires cfg.d >= 1 && a.Fault?
    ensures Step(cfg, s, a).guest.tx == s.guest.tx
  {
  }

  lemma HostLeavesGuest(cfg: Config, s: System, a: Action)
    requires ShortDelay(cfg) && Stable(cfg, s) && !a.Fault? && a.seat == Host
    ensures Step(cfg, s, a).guest == s.guest
  {
    HostPumps(cfg, s, a.k);
  }

  lemma {:induction false} SentIsHonest(cfg: Config, sim: Sim, acts: seq<Action>)
    requires ShortDelay(cfg)
    ensures var s0, s := Start(cfg, sim), Run(cfg, Start(cfg, sim), acts);
            var fs := Sent(cfg, s0, acts);
            Chain(cfg.d, true, fs, s0.guest.tx) && Fold(cfg.d, fs, s0.guest.tx) == s.guest.tx
    decreases |acts|
  {
    if acts != [] {
      var s0, before, a := Start(cfg, sim), acts[..|acts| - 1], acts[|acts| - 1];
      var s := Run(cfg, s0, before);
      AlwaysCalm(cfg, s0, before);
      RunStable(cfg, sim, before);
      SentIsHonest(cfg, sim, before);
      StepSends(cfg, s, a);
      Extend(cfg.d, true, Sent(cfg, s0, before), Sends(cfg, s, a), s0.guest.tx);
    }
  }

  /** Over a whole run the guest asks for a resync at most once per epoch. */
  lemma GuestAsksOnce(cfg: Config, sim: Sim, acts: seq<Action>, ep: Epoch)
    requires ShortDelay(cfg)
    ensures Requests(Sent(cfg, Start(cfg, sim), acts), ep) <= 1
  {
    SentIsHonest(cfg, sim, acts);
    AskedOnce(cfg.d, Sent(cfg, Start(cfg, sim), acts), Start(cfg, sim).guest.tx, ep);
  }
}
