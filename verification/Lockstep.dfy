/** Lockstep: what the 16-bit consoles compute together, on every schedule of
    passes, pumps and deliveries. */
module Lockstep {
  import opened Words
  import opened GameState
  import opened Wire
  import opened Ideal
  import opened Captures
  import opened IdealInvariant
  import opened History
  import opened IdealRuns
  import opened Console16
  import opened Refinement

  /** The game as one machine plays it: no delay, no network, both seats' cells
      at hand.  The state at the start of tick t, from the state at tick base. */
  function Solo(cfg: Config, sim: Sim, log0: map<At, Cell>, log1: map<At, Cell>, ep: Epoch, t: nat): Sim
    requires ep.base <= t
    decreases t - ep.base
  {
    if t == ep.base then sim
    else cfg.cart(Solo(cfg, sim, log0, log1, ep, t - 1), InputsAt(log0, log1, ep, t - 1), Wrap(t - 1))
  }

  /** A console's record of an unspoiled epoch is the one-machine game, from
      the epoch's starting state. */
  lemma {:induction false} PlaysSolo(cfg: Config, c: Con, log0: map<At, Cell>, log1: map<At, Cell>,
                                     starts: map<Epoch, Sim>, bad: set<Epoch>, k: At)
    requires Truthful(c, log0, log1) && Traced(cfg, c, starts, bad) && k in c.sims && k.ep !in bad
    ensures k.ep.base <= k.t && k.ep in starts && c.sims[k] == Solo(cfg, starts[k.ep], log0, log1, k.ep, k.t)
    decreases k.t - k.ep.base
  {
    DerivedAt(cfg, c, starts, bad, k);
    if k.ep.base < k.t {
      PlaysSolo(cfg, c, log0, log1, starts, bad, At(k.ep, k.t - 1));
    }
  }

  /** Without faults nothing is ever pending or held, and both consoles stay in
      the first epoch. */
  lemma QuietRun(cfg: Config, sim: Sim, acts: seq<Action>)
    requires Legal(cfg) && FaultFree(acts)
    ensures var s := Run(cfg, Start(cfg, sim), acts);
            && CalmRun(cfg, Start(cfg, sim), acts) && Stable(cfg, s) && s.bad == {} && Calm(cfg, s)
            && !s.host.pend && !s.guest.pend && s.guest.ep == s.host.ep && !Hold(s.host) && !Hold(s.guest)
            && Apart(cfg.d, s.host, s.guest) && Recorded(cfg, s)
  {
    FaultFreeCalm(cfg, sim, acts);
    RunStable(cfg, sim, acts);
    StandApart(cfg.d, Run(cfg, Start(cfg, sim), acts));
  }

  /** The first epoch starts at tick 0 from the common starting state, and
      keeps doing so. */
  ghost predicate Begun(sim: Sim, s: System) {
    var e := Epoch(0, 0);
    && e in s.host.tx.starts && s.host.tx.starts[e] == sim
    && (s.host.ep.no == 0 ==> s.host.ep == e)
  }

  lemma StepBegun(cfg: Config, sim: Sim, s: System, a: Action)
    requires Legal(cfg) && Stable(cfg, s) && Begun(sim, s)
    ensures Begun(sim, Step(cfg, s, a))
  {
    hide Stable, Pump, PlayAndPend, Capture, Open;
    match a
    case Fault(_, _) =>
    case Poll(Host, k) => HostPumps(cfg, s, k);
    case Poll(Guest, k) => if !s.guest.gate { GuestPumps(cfg, s, k); }
    case Go(Guest, k, cell) => if !(s.guest.gate && Open(cfg.d, s.guest)) { GuestPumps(cfg, s, k); }
    case Go(Host, k, cell) =>
      if s.host.gate && Open(cfg.d, s.host) {
        HostGoBegun(cfg, sim, s);
      } else {
        HostPumps(cfg, s, k);
        CaptureKeeps(cfg.d, Pump(cfg.d, s, Host, k).host, cell);
      }
  }

  lemma HostGoBegun(cfg: Config, sim: Sim, s: System)
    requires Legal(cfg) && Stable(cfg, s) && Begun(sim, s) && s.host.gate && Open(cfg.d, s.host)
    ensures Begun(sim, Emit(s, Host, PlayAndPend(cfg, Host, s.host)))
  {
    hide Stable, PlayAndPend, Open, PushDue, Play;
    HostTurns(cfg, s);
  }

  lemma {:induction false} RunBegun(cfg: Config, sim: Sim, acts: seq<Action>)
    requires Legal(cfg) && CalmRun(cfg, Start(cfg, sim), acts)
    ensures Begun(sim, Run(cfg, Start(cfg, sim), acts))
    decreases |acts|
  {
    if acts != [] {
      var before := acts[..|acts| - 1];
      RunStable(cfg, sim, before);
      RunBegun(cfg, sim, before);
      StepBegun(cfg, sim, Run(cfg, Start(cfg, sim), before), acts[|acts| - 1]);
    }
  }

  // ---- agreement ---------------------------------------------------------

  /** Agreement.  On every fault-free schedule, for every delay from 1 to 127
      and runs of any length, each 16-bit console's state is the one-machine
      game after as many ticks, over the cells the two seats captured; it never
      pends or holds, and when its gate opens, its rings hold exactly the cells
      captured for that tick and the one before. */
  lemma LockstepAgreement(cfg: Config, sim: Sim, acts: seq<Action>, seat: Seat)
    requires Legal(cfg) && FaultFree(acts)
    ensures var s := Run(cfg, Start(cfg, sim), acts);
            var t := Run16(cfg, Start16(cfg, sim), acts);
            var a, c := Get(s, seat), Get16(t, seat);
            && c.tick == Wrap(a.tick) && !c.pend && !c.hold
            && c.sim == Game(cfg, sim, acts, sim, Epoch(0, 0), a.tick)
            && (c.gate && Open16(c) ==> Holds(cfg, sim, acts, c, Epoch(0, 0), a.tick))
  {
    hide Run, Run16, Start, Start16, Stable, Related, Begun, CalmRun, Calm, Apart, Recorded, Solo, Open16;
    hide Game, CellFor, Holds, Showing;
    var s, t := Run(cfg, Start(cfg, sim), acts), Run16(cfg, Start16(cfg, sim), acts);
    QuietRun(cfg, sim, acts);
    RunBegun(cfg, sim, acts);
    RunRelated(cfg, sim, acts);
    QuietStates(cfg, sim, s, seat);
    ShownCells(cfg, s, t, seat);
    ShownReads(cfg, s, t, seat);
    GameIsSolo(cfg, sim, acts, sim, Epoch(0, 0), Get(s, seat).tick);
    ShownCaptures(cfg, sim, acts, Get16(t, seat), Epoch(0, 0), Get(s, seat).tick);
  }

  /** The ring slots of tick t and of the tick before are the cells the seats
      captured for them. */
  predicate Holds(cfg: Config, sim: Sim, acts: seq<Action>, c: Con16, ep: Epoch, t: nat)
    requires cfg.d >= 1
  {
    && c.ring0[t % 256] == CellFor(cfg, sim, acts, Host, ep, t)
    && c.ring0[(t % 256 + 255) % 256] == CellFor(cfg, sim, acts, Host, ep, t - 1)
    && c.ring1[t % 256] == CellFor(cfg, sim, acts, Guest, ep, t)
    && c.ring1[(t % 256 + 255) % 256] == CellFor(cfg, sim, acts, Guest, ep, t - 1)
  }

  /** ... or the cells on record for them. */
  predicate Showing(c: Con16, log0: map<At, Cell>, log1: map<At, Cell>, ep: Epoch, t: nat) {
    && c.ring0[t % 256] == Look(log0, ep, t) && c.ring0[(t % 256 + 255) % 256] == Look(log0, ep, t - 1)
    && c.ring1[t % 256] == Look(log1, ep, t) && c.ring1[(t % 256 + 255) % 256] == Look(log1, ep, t - 1)
  }

  lemma ShownCaptures(cfg: Config, sim: Sim, acts: seq<Action>, c: Con16, ep: Epoch, t: nat)
    requires cfg.d >= 1
    ensures var s := Run(cfg, Start(cfg, sim), acts);
            Showing(c, s.host.tx.log, s.guest.tx.log, ep, t) == Holds(cfg, sim, acts, c, ep, t)
  {
    hide Run, Start, CellFor, Look;
    LogIsCaptured(cfg, sim, acts, Host, ep, t);
    LogIsCaptured(cfg, sim, acts, Host, ep, t - 1);
    LogIsCaptured(cfg, sim, acts, Guest, ep, t);
    LogIsCaptured(cfg, sim, acts, Guest, ep, t - 1);
  }

  /** What was on record for a tick is what the schedule had captured. */
  lemma InputsCaptured(cfg: Config, sim: Sim, acts: seq<Action>, ep: Epoch, t: int)
    requires cfg.d >= 1
    ensures var s := Run(cfg, Start(cfg, sim), acts);
            InputsAt(s.host.tx.log, s.guest.tx.log, ep, t)
            == Inputs(CellFor(cfg, sim, acts, Host, ep, t), CellFor(cfg, sim, acts, Host, ep, t - 1),
                      CellFor(cfg, sim, acts, Guest, ep, t), CellFor(cfg, sim, acts, Guest, ep, t - 1))
  {
    hide Run, Start, CellFor, Look;
    LogIsCaptured(cfg, sim, acts, Host, ep, t);
    LogIsCaptured(cfg, sim, acts, Host, ep, t - 1);
    LogIsCaptured(cfg, sim, acts, Guest, ep, t);
    LogIsCaptured(cfg, sim, acts, Guest, ep, t - 1);
  }

  /** The game over the record is the game over the captured cells. */
  lemma {:induction false} GameIsSolo(cfg: Config, sim: Sim, acts: seq<Action>, from: Sim, ep: Epoch, t: nat)
    requires cfg.d >= 1 && ep.base <= t
    ensures var s := Run(cfg, Start(cfg, sim), acts);
            Solo(cfg, from, s.host.tx.log, s.guest.tx.log, ep, t) == Game(cfg, sim, acts, from, ep, t)
    decreases t - ep.base
  {
    hide Run, Start, CellFor, InputsAt;
    if ep.base < t {
      GameIsSolo(cfg, sim, acts, from, ep, t - 1);
      InputsCaptured(cfg, sim, acts, ep, t - 1);
    }
  }

  /** In an undisturbed run a console's state is the one-machine game. */
  lemma QuietStates(cfg: Config, sim: Sim, s: System, seat: Seat)
    requires Legal(cfg) && Stable(cfg, s) && s.bad == {} && Begun(sim, s) && s.guest.ep == s.host.ep
    requires !Hold(s.host) && !Hold(s.guest)
    ensures var a := Get(s, seat);
            && a.ep == Epoch(0, 0)
            && a.sim == Solo(cfg, sim, s.host.tx.log, s.guest.tx.log, Epoch(0, 0), a.tick)
  {
    var a := Get(s, seat);
    StableTrace(cfg, s, seat);
    hide Stable, Traced, Truthful, Solo;
    PlaysSolo(cfg, a, s.host.tx.log, s.guest.tx.log, s.host.tx.starts, s.bad, At(a.ep, a.tick));
  }

  /** What the record of a stable state says of a console's present. */
  lemma StableTrace(cfg: Config, s: System, seat: Seat)
    requires cfg.d >= 1 && Stable(cfg, s)
    ensures var a := Get(s, seat);
            && Truthful(a, s.host.tx.log, s.guest.tx.log) && Traced(cfg, a, s.host.tx.starts, s.bad)
            && At(a.ep, a.tick) in a.sims
            && (!Partial(a) && a.ep !in s.bad ==> a.sim == a.sims[At(a.ep, a.tick)])
            && (s.bad == {} ==> s.host.ep.no == 0)
  {
    hide Inv, Truthful, Past, HostPast, Compared, OneCompares, ReportsTrue, NoFalseAlarm, Derived;
  }

  /** What the 16-bit console has in the cells the model shares with it. */
  lemma ShownCells(cfg: Config, s: System, t: System16, seat: Seat)
    requires cfg.d >= 1 && Related(cfg.d, s, t)
    ensures var a, c := Get(s, seat), Get16(t, seat);
            && c.tick == Wrap(a.tick) && c.pend == a.pend && c.hold == Hold(a) && c.sim == a.sim && c.gate == a.gate
  {
  }

  /** What the slots show when the 16-bit gate is open. */
  lemma ShownReads(cfg: Config, s: System, t: System16, seat: Seat)
    requires Legal(cfg) && Stable(cfg, s) && Calm(cfg, s) && Related(cfg.d, s, t)
    ensures var a, c := Get(s, seat), Get16(t, seat);
            c.gate && Open16(c) ==> Showing(c, s.host.tx.log, s.guest.tx.log, a.ep, a.tick)
  {
    hide Reads16, Open16, Reads, RingShows, Stable, Calm, Look, Showing, Own, Other, Good;
    var a, c := Get(s, seat), Get16(t, seat);
    StableReach(cfg, s);
    OpenShows(cfg.d, seat, a, c);
    if c.gate && Open16(c) {
      ReadsShow(cfg.d, seat, a, c);
      StableGood(cfg, s);
      GateReads(cfg, s, seat);
      LowByte(a.tick);
      BothShown(seat, a, c, s.host.tx.log, s.guest.tx.log);
    }
  }

  /** A console's own ring and its peer's, by seat. */
  lemma BothShown(seat: Seat, a: Con, c: Con16, log0: map<At, Cell>, log1: map<At, Cell>)
    requires a.tx.log == if seat == Host then log0 else log1
    requires var peer := if seat == Host then log1 else log0;
             var cur := a.tick % 256;
             var prev := (cur + 255) % 256;
             && Own(seat, c)[cur] == Look(a.tx.log, a.ep, a.tick) && Own(seat, c)[prev] == Look(a.tx.log, a.ep, a.tick - 1)
             && Other(seat, c)[cur] == Look(peer, a.ep, a.tick) && Other(seat, c)[prev] == Look(peer, a.ep, a.tick - 1)
    ensures Showing(c, log0, log1, a.ep, a.tick)
  {
    hide Look;
  }

  lemma StableGood(cfg: Config, s: System)
    requires cfg.d >= 1 && Stable(cfg, s)
    ensures Good(cfg, s)
  {
  }

  lemma StableReach(cfg: Config, s: System)
    requires Legal(cfg) && Stable(cfg, s) && Calm(cfg, s)
    ensures Reach(cfg.d, s.host) && Reach(cfg.d, s.guest)
  {
    WithinReach(cfg, s);
  }

  /** An open gate's reads are the cells the two seats sent. */
  lemma GateReads(cfg: Config, s: System, seat: Seat)
    requires Legal(cfg) && Good(cfg, s) && Get(s, seat).gate && Open(cfg.d, Get(s, seat))
    ensures var a := Get(s, seat);
            var peer := if seat == Host then s.guest.tx.log else s.host.tx.log;
            && Look(a.rx.log, a.ep, a.tick) == Look(peer, a.ep, a.tick)
            && Look(a.rx.log, a.ep, a.tick - 1) == Look(peer, a.ep, a.tick - 1)
  {
    hide Recorded, Local, Chain, Fold;
    var d, a := cfg.d, Get(s, seat);
    if seat == Host {
      ReadsTruth(d, true, a, s.up, s.guest.tx.log, a.tick);
      ReadsTruth(d, true, a, s.up, s.guest.tx.log, a.tick - 1);
    } else {
      ReadsTruth(d, false, a, s.down, s.host.tx.log, a.tick);
      ReadsTruth(d, false, a, s.down, s.host.tx.log, a.tick - 1);
    }
  }

  /** Equal 16-bit ticks mean equal states, however far the 16-bit counters
      have wrapped. */
  lemma EqualTicksEqualStates(cfg: Config, sim: Sim, acts: seq<Action>)
    requires Legal(cfg) && FaultFree(acts)
    ensures var t := Run16(cfg, Start16(cfg, sim), acts);
            t.host.tick == t.guest.tick ==> t.host.sim == t.guest.sim
  {
    var s := Run(cfg, Start(cfg, sim), acts);
    QuietRun(cfg, sim, acts);
    LockstepAgreement(cfg, sim, acts, Host);
    LockstepAgreement(cfg, sim, acts, Guest);
    WrapInjective(s.host.tick, s.guest.tick);
  }

  // ---- skew --------------------------------------------------------------

  /** Within an epoch neither console is more than d+1 ticks ahead, with any
      faults and resyncs. */
  lemma Skew(cfg: Config, sim: Sim, acts: seq<Action>)
    requires Legal(cfg) && CalmRun(cfg, Start(cfg, sim), acts)
    ensures var s := Run(cfg, Start(cfg, sim), acts);
            s.host.ep == s.guest.ep ==> -(cfg.d + 1) <= s.host.tick - s.guest.tick <= cfg.d + 1
  {
    RunStable(cfg, sim, acts);
    StandApart(cfg.d, Run(cfg, Start(cfg, sim), acts));
  }

  // ---- deadlock freedom --------------------------------------------------

  /** Both channels drained: the consoles agree on the epoch, nobody holds, and
      if both wait at the gate, one of the gates is open. */
  lemma DrainedGates(cfg: Config, s: System)
    requires Legal(cfg) && Good(cfg, s) && s.up == [] && s.down == []
    ensures s.host.ep == s.guest.ep && !Hold(s.host) && !Hold(s.guest)
    ensures s.host.gate && s.guest.gate ==> Open(cfg.d, s.host) || Open(cfg.d, s.guest)
  {
    var h, g := s.host, s.guest;
    assert h.rx == g.tx && g.rx == h.tx;
    assert g.ep == h.ep;
  }

  /** Deadlock freedom.  Whenever both 16-bit consoles stand at the gate with
      both channels drained, at least one gate passes; and with the channels
      drained no console is held. */
  lemma NoDeadlock(cfg: Config, sim: Sim, acts: seq<Action>)
    requires Legal(cfg) && CalmRun(cfg, Start(cfg, sim), acts)
    ensures var t := Run16(cfg, Start16(cfg, sim), acts);
            t.up == [] && t.down == [] ==>
              && !t.host.hold && !t.guest.hold
              && (t.host.gate && t.guest.gate ==> Open16(t.host) || Open16(t.guest))
  {
    var s, t := Run(cfg, Start(cfg, sim), acts), Run16(cfg, Start16(cfg, sim), acts);
    RunStable(cfg, sim, acts);
    RunRelated(cfg, sim, acts);
    RunCalm(cfg, sim, acts);
    WithinReach(cfg, s);
    OpenShows(cfg.d, Host, s.host, t.host);
    OpenShows(cfg.d, Guest, s.guest, t.guest);
    assert |t.up| == |s.up| && |t.down| == |s.down|;
    if t.up == [] && t.down == [] {
      DrainedGates(cfg, s);
    }
  }

  lemma RunCalm(cfg: Config, sim: Sim, acts: seq<Action>)
    requires Legal(cfg) && CalmRun(cfg, Start(cfg, sim), acts)
    ensures Calm(cfg, Run(cfg, Start(cfg, sim), acts))
  {
  }
}
