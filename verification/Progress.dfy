/** Liveness: from every state a run can reach, some schedule of passes and
    pumps plays another tick, and so any number of them. */
module Progress {
  import opened Words
  import opened GameState
  import opened Wire
  import opened Ideal
  import opened IdealInvariant
  import opened History
  import opened IdealRuns
  import opened Lockstep
  import opened Resync

  /** A state from which fault-free actions stay calm. */
  ghost predicate Serene(cfg: Config, s: System) {
    && Legal(cfg) && Stable(cfg, s)
    && (cfg.d <= 15 || (s.bad == {} && s.host.ep.no == 0))
  }

  lemma SereneStep(cfg: Config, s: System, a: Action)
    requires Serene(cfg, s) && !a.Fault?
    ensures Serene(cfg, Step(cfg, s, a))
  {
    if cfg.d > 15 {
      StableUndisturbed(cfg, s);
      NoPushYet(cfg, s, a);
      BadOnlyByFault(cfg, s, a);
    }
    hide Stable, Step;
    StepKeeps(cfg, s, a);
  }

  lemma StableUndisturbed(cfg: Config, s: System)
    requires cfg.d >= 1 && Stable(cfg, s)
    ensures Undisturbed(s)
  {
  }

  function TicksPlayed(s: System): nat {
    |s.host.used| + |s.guest.used|
  }

  // ---- what a pump uses up -----------------------------------------------

  function InFlightBytes(s: System): nat {
    Bytes(s.down) + Bytes(s.up)
  }

  function Unread(s: System): nat {
    (if s.downAcc <= Bytes(s.down) then Bytes(s.down) - s.downAcc else 0)
    + (if s.upAcc <= Bytes(s.up) then Bytes(s.up) - s.upAcc else 0)
  }

  /** What a frame can make its receiver send is shorter than the frame. */
  lemma RepliesAreShort(d: nat, seat: Seat, c: Con, f: Frame)
    requires d >= 1
    ensures Bytes(Receive(d, seat, c, f).1) < Size(f)
  {
    hide Next;
    var out := Receive(d, seat, c, f).1;
    if out != [] {
      assert out[1..] == [];
    }
  }

  lemma DeliverShrinks(d: nat, s: System, seat: Seat)
    requires d >= 1 && Ready(s, seat)
    ensures InFlightBytes(Deliver(d, s, seat)) < InFlightBytes(s)
  {
    var f := Inbound(s, seat)[0];
    var out := Receive(d, seat, Get(s, seat), f).1;
    RepliesAreShort(d, seat, Get(s, seat), f);
    BytesExtend(if seat == Host then s.down else s.up, out);
    hide Receive;
  }

  lemma {:induction false} DrainShrinks(d: nat, s: System, seat: Seat)
    requires d >= 1
    ensures InFlightBytes(Drain(d, s, seat)) <= InFlightBytes(s)
    ensures Ready(s, seat) ==> InFlightBytes(Drain(d, s, seat)) < InFlightBytes(s)
    ensures !Ready(s, seat) ==> Drain(d, s, seat) == s
    decreases |Inbound(s, seat)|
  {
    if Ready(s, seat) {
      DeliverShrinks(d, s, seat);
      DrainShrinks(d, Deliver(d, s, seat), seat);
    }
  }

  /** A pump with anything in flight to it makes progress: it dispatches a
      frame, or at least buffers bytes. */
  lemma PumpProgresses(d: nat, s: System, seat: Seat)
    requires d >= 1 && Resting(s, Host) && Resting(s, Guest) && Inbound(s, seat) != []
    ensures var s' := Pump(d, s, seat, READ_MAX);
            || InFlightBytes(s') < InFlightBytes(s)
            || (InFlightBytes(s') == InFlightBytes(s) && Unread(s') < Unread(s))
  {
    var s1 := Fetch(s, seat, READ_MAX);
    HeadFits(Inbound(s, seat));
    DrainShrinks(d, s1, seat);
  }

  lemma HeadFits(ch: seq<Frame>)
    requires ch != []
    ensures Size(ch[0]) <= Bytes(ch)
  {
  }

  // ---- one more tick -----------------------------------------------------

  lemma {:induction false} RunCons(cfg: Config, s: System, a: Action, more: seq<Action>)
    requires cfg.d >= 1
    ensures Run(cfg, s, [a] + more) == Run(cfg, Step(cfg, s, a), more)
    decreases |more|
  {
    hide Step;
    if more == [] {
      assert [a] + more == [] + [a];
      RunSnoc(cfg, s, [], a);
      RunNone(cfg, s);
      RunNone(cfg, Step(cfg, s, a));
    } else {
      hide Run;
      var n := |more| - 1;
      assert [a] + more == ([a] + more[..n]) + [more[n]];
      RunSnoc(cfg, s, [a] + more[..n], more[n]);
      RunCons(cfg, s, a, more[..n]);
      assert more == more[..n] + [more[n]];
      RunSnoc(cfg, Step(cfg, s, a), more[..n], more[n]);
    }
  }

  lemma {:induction false} RunAppend(cfg: Config, s: System, acts: seq<Action>, more: seq<Action>)
    requires cfg.d >= 1
    ensures Run(cfg, s, acts + more) == Run(cfg, Run(cfg, s, acts), more)
    decreases |more|
  {
    if more == [] {
      assert acts + more == acts;
    } else {
      var n := |more| - 1;
      assert acts + more == (acts + more[..n]) + [more[n]] && more == more[..n] + [more[n]];
      RunSnoc(cfg, s, acts + more[..n], more[n]);
      RunAppend(cfg, s, acts, more[..n]);
      RunSnoc(cfg, Run(cfg, s, acts), more[..n], more[n]);
    }
  }

  /** Consoles still short of the gate. */
  function ShortOfGate(s: System): nat {
    Count(!s.host.gate) + Count(!s.guest.gate)
  }

  /** An action that moves the system along without playing a tick. */
  ghost predicate Nearer(s: System, s': System) {
    && TicksPlayed(s') == TicksPlayed(s)
    && (|| ShortOfGate(s') < ShortOfGate(s)
        || (ShortOfGate(s') == ShortOfGate(s)
            && (|| InFlightBytes(s') < InFlightBytes(s)
                || (InFlightBytes(s') == InFlightBytes(s) && Unread(s') < Unread(s)))))
  }

  /** An open gate plays a tick never played before. */
  lemma OpenGatePlays(cfg: Config, s: System, seat: Seat)
    requires Serene(cfg, s) && Get(s, seat).gate && Open(cfg.d, Get(s, seat))
    ensures TicksPlayed(Step(cfg, s, Go(seat, 0, IDLE))) == TicksPlayed(s) + 1
  {
    var c := Get(s, seat);
    FreshTick(cfg, s, seat);
    PlayKeeps(cfg, seat, c);
    PendUsed(cfg.d, seat, Play(cfg, seat, c).0);
    MapGrows(c.used, At(c.ep, c.tick), Reads(seat, c));
    hide Play, Pending, Serene;
  }

  lemma FreshTick(cfg: Config, s: System, seat: Seat)
    requires Serene(cfg, s)
    ensures var c := Get(s, seat); At(c.ep, c.tick) !in c.used
  {
  }

  lemma PendUsed(d: nat, seat: Seat, c: Con)
    requires d >= 1
    ensures Pending(d, seat, c).0.used == c.used
  {
    hide Fold;
  }

  lemma MapGrows(m: map<At, Inputs>, k: At, i: Inputs)
    requires k !in m
    ensures |m[k := i]| == |m| + 1
  {
    assert m[k := i].Keys == m.Keys + {k};
  }

  /** Short of the gate and free to pass: capture. */
  lemma FreePasses(cfg: Config, s: System, seat: Seat)
    requires Legal(cfg) && Serene(cfg, s) && !Get(s, seat).gate && !Hold(Get(s, seat))
    ensures Nearer(s, Step(cfg, s, Go(seat, 0, IDLE)))
  {
    hide Serene, Step, Capture, Pump;
    RestPumps(cfg, s, seat);
    PassCaptures(cfg, s, seat);
    CaptureKeeps(cfg.d, Get(s, seat), IDLE);
    CaptureGates(cfg.d, Get(s, seat), IDLE);
  }

  /** A pump that asks for nothing does nothing. */
  lemma RestPumps(cfg: Config, s: System, seat: Seat)
    requires Serene(cfg, s)
    ensures cfg.d >= 1 && Pump(cfg.d, s, seat, 0) == s
  {
    DrainShrinks(cfg.d, Fetch(s, seat, 0), seat);
    assert Fetch(s, seat, 0) == s;
  }

  lemma PassCaptures(cfg: Config, s: System, seat: Seat)
    requires cfg.d >= 1 && !Get(s, seat).gate && !Hold(Get(s, seat)) && Pump(cfg.d, s, seat, 0) == s
    ensures Step(cfg, s, Go(seat, 0, IDLE)) == Emit(s, seat, Capture(cfg.d, Get(s, seat), IDLE))
  {
    hide Capture, Pump;
  }

  lemma CaptureGates(d: nat, c: Con, cell: Cell)
    requires d >= 1
    ensures Capture(d, c, cell).0.gate
  {
  }

  /** Held, or waiting at a closed gate, with bytes on the way: pump. */
  lemma WaitingPumps(cfg: Config, s: System, seat: Seat)
    requires Legal(cfg) && Serene(cfg, s) && Inbound(s, seat) != []
    requires if Get(s, seat).gate then !Open(cfg.d, Get(s, seat)) else Hold(Get(s, seat))
    ensures Nearer(s, Step(cfg, s, Go(seat, READ_MAX, IDLE)))
  {
    hide Step, Pump, Serene, Open, InFlightBytes, Unread, Resting;
    SereneRests(cfg, s);
    WaitingStep(cfg, s, seat);
    PumpKeepsGates(cfg, s, seat);
    PumpProgresses(cfg.d, s, seat);
  }

  lemma SereneRests(cfg: Config, s: System)
    requires Serene(cfg, s)
    ensures Resting(s, Host) && Resting(s, Guest)
  {
  }

  /** A pump moves no console to or from the gate and plays no tick. */
  lemma PumpKeepsGates(cfg: Config, s: System, seat: Seat)
    requires Serene(cfg, s) && (Get(s, seat).gate ==> !Open(cfg.d, Get(s, seat)))
    ensures var s' := Pump(cfg.d, s, seat, READ_MAX);
            && s'.host.gate == s.host.gate && s'.guest.gate == s.guest.gate
            && s'.host.used == s.host.used && s'.guest.used == s.guest.used
  {
    hide Drain, Stable, Bytes, Fetch;
    DrainPlaysNothing(cfg.d, Fetch(s, seat, READ_MAX), seat);
    if seat == Host {
      HostPumps(cfg, s, READ_MAX);
    } else {
      GuestPumps(cfg, s, READ_MAX);
    }
    FetchPlaysNothing(s, seat);
  }

  lemma FetchPlaysNothing(s: System, seat: Seat)
    ensures var s' := Fetch(s, seat, READ_MAX); s'.host == s.host && s'.guest == s.guest
  {
  }

  lemma WaitingStep(cfg: Config, s: System, seat: Seat)
    requires cfg.d >= 1
    requires if Get(s, seat).gate then !Open(cfg.d, Get(s, seat)) else Hold(Get(s, seat))
    ensures Step(cfg, s, Go(seat, READ_MAX, IDLE)) == Pump(cfg.d, s, seat, READ_MAX)
  {
    hide Pump;
  }

  /** The host never holds, and a held guest has bytes on the way. */
  lemma HeldHasBytes(cfg: Config, s: System)
    requires Serene(cfg, s)
    ensures !Hold(s.host) && (Hold(s.guest) ==> s.down != [])
  {
  }

  /** Two closed gates have bytes on the way. */
  lemma ClosedHasBytes(cfg: Config, s: System)
    requires Serene(cfg, s) && s.host.gate && s.guest.gate && !Open(cfg.d, s.host) && !Open(cfg.d, s.guest)
    ensures s.up != [] || s.down != []
  {
    if s.up == [] && s.down == [] {
      DrainedGates(cfg, s);
    }
  }

  /** Where to go next. */
  lemma NextMove(cfg: Config, s: System) returns (a: Action)
    requires Serene(cfg, s)
    ensures !a.Fault?
    ensures TicksPlayed(Step(cfg, s, a)) == TicksPlayed(s) + 1 || Nearer(s, Step(cfg, s, a))
  {
    HeldHasBytes(cfg, s);
    if s.host.gate && Open(cfg.d, s.host) {
      a := Go(Host, 0, IDLE);
      OpenGatePlays(cfg, s, Host);
    } else if s.guest.gate && Open(cfg.d, s.guest) {
      a := Go(Guest, 0, IDLE);
      OpenGatePlays(cfg, s, Guest);
    } else if !s.host.gate {
      a := Go(Host, 0, IDLE);
      FreePasses(cfg, s, Host);
    } else if !s.guest.gate && !Hold(s.guest) {
      a := Go(Guest, 0, IDLE);
      FreePasses(cfg, s, Guest);
    } else if s.down != [] {
      a := Go(Guest, READ_MAX, IDLE);
      WaitingPumps(cfg, s, Guest);
    } else {
      a := Go(Host, READ_MAX, IDLE);
      ClosedHasBytes(cfg, s);
      WaitingPumps(cfg, s, Host);
    }
  }

  /** From every serene state some schedule plays exactly one more tick. */
  lemma {:induction false} OneMoreTick(cfg: Config, s: System) returns (more: seq<Action>)
    requires Legal(cfg) && Serene(cfg, s)
    ensures var s' := Run(cfg, s, more); Serene(cfg, s') && TicksPlayed(s') == TicksPlayed(s) + 1
    decreases ShortOfGate(s), InFlightBytes(s), Unread(s)
  {
    hide Serene, Step, Run, TicksPlayed;
    var a := NextMove(cfg, s);
    SereneStep(cfg, s, a);
    var s1 := Step(cfg, s, a);
    if TicksPlayed(s1) == TicksPlayed(s) + 1 {
      more := [a];
      RunCons(cfg, s, a, []);
      assert [a] + [] == [a];
      RunNone(cfg, s1);
    } else {
      var rest := OneMoreTick(cfg, s1);
      more := [a] + rest;
      RunCons(cfg, s, a, rest);
    }
  }

  lemma RunNone(cfg: Config, s: System)
    requires cfg.d >= 1
    ensures Run(cfg, s, []) == s
  {
  }

  lemma {:induction false} ManyMoreTicks(cfg: Config, s: System, n: nat) returns (more: seq<Action>)
    requires Legal(cfg) && Serene(cfg, s)
    ensures var s' := Run(cfg, s, more); Serene(cfg, s') && TicksPlayed(s') == TicksPlayed(s) + n
    decreases n
  {
    hide Serene, Run, TicksPlayed;
    if n == 0 {
      more := [];
      RunNone(cfg, s);
    } else {
      var first := OneMoreTick(cfg, s);
      var rest := ManyMoreTicks(cfg, Run(cfg, s, first), n - 1);
      more := first + rest;
      RunAppend(cfg, s, first, rest);
    }
  }

  /** Never stuck, with resyncs: for delays up to 15, whatever faults hit and
      whatever pushes are under way, every reachable state can go on for any
      number of ticks. */
  lemma NeverStuck(cfg: Config, sim: Sim, acts: seq<Action>, n: nat) returns (more: seq<Action>)
    requires ShortDelay(cfg)
    ensures TicksPlayed(Run(cfg, Start(cfg, sim), acts + more)) == TicksPlayed(Run(cfg, Start(cfg, sim), acts)) + n
  {
    AlwaysCalm(cfg, Start(cfg, sim), acts);
    RunStable(cfg, sim, acts);
    more := ManyMoreTicks(cfg, Run(cfg, Start(cfg, sim), acts), n);
    RunAppend(cfg, Start(cfg, sim), acts, more);
  }

  /** Never stuck in plain lockstep, for delays up to 127. */
  lemma NeverStuckLockstep(cfg: Config, sim: Sim, acts: seq<Action>, n: nat) returns (more: seq<Action>)
    requires Legal(cfg) && FaultFree(acts)
    ensures TicksPlayed(Run(cfg, Start(cfg, sim), acts + more)) == TicksPlayed(Run(cfg, Start(cfg, sim), acts)) + n
  {
    QuietRun(cfg, sim, acts);
    StableUndisturbed(cfg, Run(cfg, Start(cfg, sim), acts));
    more := ManyMoreTicks(cfg, Run(cfg, Start(cfg, sim), acts), n);
    RunAppend(cfg, Start(cfg, sim), acts, more);
  }
}
