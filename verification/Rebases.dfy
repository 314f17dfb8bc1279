/** When a host pushes, what the push starts from, and what a rebase makes of the
    phase cell, told of the cell itself: image position 7. */
module Rebases {
  import opened Words
  import opened GameState
  import opened Wire
  import opened Ideal
  import opened IdealInvariant
  import opened History
  import opened IdealRuns
  import opened Console16
  import opened Refinement
  import opened Lockstep
  import opened Resync

  /** A state with its phase cell put back among the nine phases there are. */
  predicate PhaseSafe(s: Sim, r: Sim) {
    && r[7] <= 8 && r[7] == (if s[7] <= 8 then s[7] else 0)
    && forall i :: 0 <= i < IMG_TOTAL && i != 7 ==> r[i] == s[i]
  }

  lemma ClampIs(s: Sim)
    ensures PhaseSafe(s, Clamp(s))
  {
  }

  // ---- the pending call --------------------------------------------------

  /** The host's turn with a resync wanted, on every run.  When the tick it plays
      leaves the phase cell zero, or this is its 60th call, it pushes the state
      that tick left and goes on from 16 ticks later in a new epoch; otherwise it
      stays where it is and has waited once more. */
  lemma PendingCall(cfg: Config, sim: Sim, acts: seq<Action>, k: nat, cell: Cell)
    requires Legal(cfg) && CalmRun(cfg, Start(cfg, sim), acts)
    requires var s := Run(cfg, Start(cfg, sim), acts);
             s.host.pend && s.host.gate && Open(cfg.d, s.host)
    ensures var s := Run(cfg, Start(cfg, sim), acts);
            var h, h' := s.host, Step(cfg, s, Go(Host, k, cell)).host;
            var played := cfg.cart(h.sim, Reads(Host, h), Wrap(h.tick));
            && h.ptmo < 60
            && (played[7] == 0 || h.ptmo == 59 ==>
                  && h'.ep == Epoch(h.ep.no + 1, h.tick + 17) && h'.tick == h.tick + 17 && !h'.pend
                  && PhaseSafe(played, h'.sim))
            && (played[7] != 0 && h.ptmo < 59 ==>
                  && h'.ep == h.ep && h'.tick == h.tick + 1 && h'.pend && h'.ptmo == h.ptmo + 1
                  && h'.sim == played)
  {
    hide Run, Start, CalmRun, Reads;
    var s := Run(cfg, Start(cfg, sim), acts);
    RunStable(cfg, sim, acts);
    StableHost(cfg, s);
    hide Stable;
    var h1 := Play(cfg, Host, s.host).0;
    PlayKeeps(cfg, Host, s.host);
    PlayWaits(cfg, Host, s.host);
    hide Play, Local, HostOk, Open;
    CallDoes(cfg.d, h1);
  }

  lemma StableHost(cfg: Config, s: System)
    requires cfg.d >= 1 && Stable(cfg, s)
    ensures Local(cfg.d, s.host) && HostOk(cfg.d, s.host) && (s.host.pend ==> s.host.ptmo < 60) && !Hold(s.host)
  {
  }

  /** RS_PENDING on a host about to begin a pass. */
  lemma CallDoes(d: nat, h: Con)
    requires d >= 1 && h.pend && !Hold(h)
    ensures var h' := Pending(d, Host, h).0;
            && (h.sim[7] == 0 || h.ptmo >= 59 ==>
                  && h'.ep == Epoch(h.ep.no + 1, h.tick + 16) && h'.tick == h.tick + 16 && !h'.pend
                  && PhaseSafe(h.sim, h'.sim))
            && (h.sim[7] != 0 && h.ptmo < 59 ==>
                  && h'.ep == h.ep && h'.tick == h.tick && h'.pend && h'.ptmo == h.ptmo + 1 && h'.sim == h.sim)
  {
    hide Fold, PushFrames;
    ClampIs(h.sim);
  }

  // ---- where epochs start ------------------------------------------------

  /** Every epoch after the first starts with a phase the jump table has. */
  ghost predicate StartsSafe(c: Con) {
    forall k :: k in c.sims && k.t == k.ep.base && k.ep.no > 0 ==> c.sims[k][7] <= 8
  }

  lemma ReceiveStartsSafe(d: nat, seat: Seat, c: Con, f: Frame)
    requires d >= 1 && StartsSafe(c)
    ensures StartsSafe(Receive(d, seat, c, f).0)
  {
    hide Next;
    ClampIs(c.sim);
  }

  lemma {:induction false} DrainStartsSafe(d: nat, s: System, seat: Seat)
    requires d >= 1 && StartsSafe(s.host) && StartsSafe(s.guest)
    ensures var s' := Drain(d, s, seat); StartsSafe(s'.host) && StartsSafe(s'.guest)
    decreases |Inbound(s, seat)|
  {
    if Ready(s, seat) {
      ReceiveStartsSafe(d, seat, Get(s, seat), Inbound(s, seat)[0]);
      hide Receive, StartsSafe;
      DrainStartsSafe(d, Deliver(d, s, seat), seat);
    }
  }

  lemma TurnStartsSafe(cfg: Config, seat: Seat, c: Con)
    requires cfg.d >= 1 && c.ep.base <= c.tick && StartsSafe(c)
    ensures StartsSafe(PlayAndPend(cfg, seat, c).0)
  {
    var c1 := Play(cfg, seat, c).0;
    PlayKeeps(cfg, seat, c);
    PlayStartsSafe(c, c1);
    hide Play;
    PendStartsSafe(cfg.d, seat, c1);
  }

  lemma PlayStartsSafe(c: Con, c1: Con)
    requires c.ep.base <= c.tick && StartsSafe(c) && At(c.ep, c.tick + 1) in c1.sims
    requires c1.sims == c.sims[At(c.ep, c.tick + 1) := c1.sims[At(c.ep, c.tick + 1)]]
    ensures StartsSafe(c1)
  {
  }

  lemma PendStartsSafe(d: nat, seat: Seat, c: Con)
    requires d >= 1 && StartsSafe(c)
    ensures StartsSafe(Pending(d, seat, c).0)
  {
    hide Fold, PushFrames;
    ClampIs(c.sim);
  }

  lemma StepStartsSafe(cfg: Config, s: System, a: Action)
    requires cfg.d >= 1 && StartsSafe(s.host) && StartsSafe(s.guest)
    requires s.host.ep.base <= s.host.tick && s.guest.ep.base <= s.guest.tick
    ensures var s' := Step(cfg, s, a); StartsSafe(s'.host) && StartsSafe(s'.guest)
  {
    hide PlayAndPend, Capture, Drain, Open, StartsSafe;
    match a
    case Fault(seat, sim) => FaultStartsSafe(Get(s, seat), sim);
    case Poll(seat, k) => DrainStartsSafe(cfg.d, Fetch(s, seat, k), seat);
    case Go(seat, k, cell) =>
      TurnStartsSafe(cfg, seat, Get(s, seat));
      DrainStartsSafe(cfg.d, Fetch(s, seat, k), seat);
      CaptureStartsSafe(cfg.d, Get(Pump(cfg.d, s, seat, k), seat), cell);
  }

  lemma FaultStartsSafe(c: Con, sim: Sim)
    requires StartsSafe(c)
    ensures StartsSafe(c.(sim := sim))
  {
  }

  lemma CaptureStartsSafe(d: nat, c: Con, cell: Cell)
    requires d >= 1 && StartsSafe(c)
    ensures StartsSafe(Capture(d, c, cell).0)
  {
  }

  lemma {:induction false} RunStartsSafe(cfg: Config, sim: Sim, acts: seq<Action>)
    requires Legal(cfg) && CalmRun(cfg, Start(cfg, sim), acts)
    ensures var s := Run(cfg, Start(cfg, sim), acts); StartsSafe(s.host) && StartsSafe(s.guest)
    decreases |acts|
  {
    if acts != [] {
      var before := acts[..|acts| - 1];
      RunStartsSafe(cfg, sim, before);
      RunStable(cfg, sim, before);
      StableBase(cfg, Run(cfg, Start(cfg, sim), before));
      hide Step, Start, Stable;
      StepStartsSafe(cfg, Run(cfg, Start(cfg, sim), before), acts[|acts| - 1]);
    }
  }

  /** On every run, with any faults, the state every epoch after the first starts
      from has its phase cell at 8 or below, on both consoles. */
  lemma EpochsStartSafe(cfg: Config, sim: Sim, acts: seq<Action>, seat: Seat, ep: Epoch)
    requires Legal(cfg) && CalmRun(cfg, Start(cfg, sim), acts) && ep.no > 0
    ensures var c := Get(Run(cfg, Start(cfg, sim), acts), seat);
            At(ep, ep.base) in c.sims ==> c.sims[At(ep, ep.base)][7] <= 8
  {
    hide Run, Start, CalmRun;
    RunStartsSafe(cfg, sim, acts);
  }

  lemma StableBase(cfg: Config, s: System)
    requires cfg.d >= 1 && Stable(cfg, s)
    ensures s.host.ep.base <= s.host.tick && s.guest.ep.base <= s.guest.tick
  {
  }
}
