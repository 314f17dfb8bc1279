/** What makes the host push: every resync goes back to a fault, and no fault
    causes more than four. */
module Causes {
  import opened Words
  import opened GameState
  import opened Wire
  import opened Ideal
  import opened IdealInvariant
  import opened History
  import opened IdealRuns

  /** A request is only ever sent from an epoch a fault hit. */
  ghost predicate RequestsCaused(s: System) {
    forall i :: 0 <= i < |s.up| && s.up[i].Req? ==> s.up[i].ep in s.bad
  }

  // ---- requests ------------------------------------------------------------

  lemma GuestAsksCaused(cfg: Config, s: System)
    requires cfg.d >= 1 && Good(cfg, s) && s.down != []
    ensures var out := Receive(cfg.d, Guest, s.guest, s.down[0]).1;
            forall i :: 0 <= i < |out| ==> out[i].Req? && out[i].ep in s.bad
  {
    var f := s.down[0];
    if f.Crc? {
      GuestHearsCrc(cfg, s);
      CrcResult(cfg.d, Guest, s.guest.(rx := Next(cfg.d, s.guest.rx, f)), f.ep, f.t, f.crc);
    }
    hide Inv, Recorded, ReceiveCrc, Next;
  }

  lemma GuestDeliverCaused(cfg: Config, s: System)
    requires cfg.d >= 1 && Good(cfg, s) && Ready(s, Guest) && RequestsCaused(s)
    ensures RequestsCaused(Deliver(cfg.d, s, Guest))
  {
    GuestAsksCaused(cfg, s);
    hide Good, Receive;
    var s', out := Deliver(cfg.d, s, Guest), Receive(cfg.d, Guest, s.guest, s.down[0]).1;
    assert s'.up == s.up + out && s'.bad == s.bad;
  }

  lemma {:induction false} GuestDrainCaused(cfg: Config, s: System)
    requires cfg.d >= 1 && Good(cfg, s) && s.downAcc <= Bytes(s.down) && Resting(s, Host) && RequestsCaused(s)
    requires s.downAcc < 4 + RS_CHUNK || (s.guest.gate ==> !Open(cfg.d, s.guest))
    requires s.down != [] ==> s.downAcc < Size(s.down[0]) + 4 + RS_CHUNK
    ensures RequestsCaused(Drain(cfg.d, s, Guest))
    decreases |s.down|
  {
    if Ready(s, Guest) {
      FullFirstChunk(cfg.d, s.guest.rx, s.down[0]);
      GuestDelivers(cfg, s);
      GuestDeliverCaused(cfg, s);
      hide Good, Deliver, Resting, RequestsCaused;
      GuestDrainCaused(cfg, Deliver(cfg.d, s, Guest));
    }
  }

  lemma GuestPumpCaused(cfg: Config, s: System, k: nat)
    requires cfg.d >= 1 && Stable(cfg, s) && RequestsCaused(s) && (s.guest.gate ==> !Open(cfg.d, s.guest))
    ensures RequestsCaused(Pump(cfg.d, s, Guest, k))
  {
    FetchKeeps(cfg, s, Guest, k);
    hide Good;
    GuestDrainCaused(cfg, Fetch(s, Guest, k));
  }

  // ---- the ledger ----------------------------------------------------------

  /** The pushes so far, and the one wanted, accounted for: each by a mismatch
      the host found itself in a faulty epoch, or by the request of one. */
  ghost predicate Ledger(s: System, found: set<Epoch>, asked: set<Epoch>) {
    && found <= s.bad && asked <= s.bad
    && s.host.ep.no + Count(s.host.pend) <= |found| + |asked|
    && (forall e :: e in found ==> e.no < s.host.ep.no || (e == s.host.ep && s.host.pend))
    && (forall e :: e in asked ==> e.no < s.host.rx.ep.no || (e == s.host.rx.ep && s.host.rx.req))
  }

  /** What a frame from the guest does to the ledger's fields. */
  lemma HostHearsFields(d: nat, h: Con, f: Frame)
    requires d >= 1 && Sane(d, h.rx) && Admissible(d, true, h.rx, f)
    ensures var rx := Next(d, h.rx, f);
            && h.rx.ep.no <= rx.ep.no && (rx.ep.no == h.rx.ep.no ==> rx.ep == h.rx.ep && (h.rx.req ==> rx.req))
            && (f.Req? ==> rx.ep == f.ep && rx.req && !(f.ep == h.rx.ep && h.rx.req))
  {
  }

  /** A report makes the host pend only by a mismatch, in a faulty epoch. */
  lemma AlarmCaused(cfg: Config, s: System)
    requires cfg.d >= 1 && Good(cfg, s) && s.up != [] && s.up[0].Crc?
    requires Receive(cfg.d, Host, s.host, s.up[0]).0.pend && !s.host.pend
    ensures s.host.ep in s.bad
  {
    var f := s.up[0];
    HostHearsCrc(cfg, s);
    CrcResult(cfg.d, Host, s.host.(rx := Next(cfg.d, s.host.rx, f)), f.ep, f.t, f.crc);
    hide Inv, Recorded, ReceiveCrc, Next;
  }

  /** One frame reaching the host: it starts to pend exactly by a request, or by
      a mismatch in a faulty epoch. */
  lemma HostDeliverFacts(cfg: Config, s: System)
    requires cfg.d >= 1 && Good(cfg, s) && Ready(s, Host)
    ensures var s', f, h := Deliver(cfg.d, s, Host), s.up[0], s.host;
            && s'.up == s.up[1..] && s'.bad == s.bad && s'.host.ep == h.ep
            && h.rx.ep.no <= s'.host.rx.ep.no
            && (s'.host.rx.ep.no == h.rx.ep.no ==> s'.host.rx.ep == h.rx.ep && (h.rx.req ==> s'.host.rx.req))
            && (f.Req? ==> s'.host.rx.ep == f.ep && s'.host.rx.req && !(f.ep == h.rx.ep && h.rx.req) && s'.host.pend)
            && (h.pend ==> s'.host.pend) && (s'.host.pend && !h.pend ==> f.Req? || h.ep in s.bad)
  {
    HeadOfUp(cfg.d, s);
    HostFields(cfg.d, s.host, s.up[0]);
    HostSane(cfg.d, s);
    HostHearsFields(cfg.d, s.host, s.up[0]);
    HostDeliverShape(cfg, s);
    hide Inv, Recorded, Receive, Next, Deliver, Admissible, Sane, Hold;
    if s.up[0].Crc? && Receive(cfg.d, Host, s.host, s.up[0]).0.pend && !s.host.pend {
      AlarmCaused(cfg, s);
    }
  }

  lemma HostDeliverLedger(cfg: Config, s: System, found: set<Epoch>, asked: set<Epoch>)
    returns (found': set<Epoch>, asked': set<Epoch>)
    requires cfg.d >= 1 && Good(cfg, s) && Ready(s, Host) && RequestsCaused(s) && Ledger(s, found, asked)
    ensures RequestsCaused(Deliver(cfg.d, s, Host)) && Ledger(Deliver(cfg.d, s, Host), found', asked')
  {
    hide Good, Deliver;
    HostDeliverFacts(cfg, s);
    var f, s' := s.up[0], Deliver(cfg.d, s, Host);
    found', asked' := found, asked;
    if s'.host.pend && !s.host.pend {
      if f.Req? {
        asked' := asked + {f.ep};
      } else {
        found' := found + {s.host.ep};
      }
    }
    forall i | 0 <= i < |s'.up| && s'.up[i].Req? ensures s'.up[i].ep in s'.bad {
      assert s'.up[i] == s.up[i + 1];
    }
  }

  lemma HostSane(d: nat, s: System)
    requires d >= 1 && Inv(d, s)
    ensures Sane(d, s.host.rx) && !Hold(s.host)
  {
  }

  lemma {:induction false} HostDrainLedger(cfg: Config, s: System, found: set<Epoch>, asked: set<Epoch>)
    returns (found': set<Epoch>, asked': set<Epoch>)
    requires cfg.d >= 1 && Good(cfg, s) && s.upAcc <= Bytes(s.up) && Resting(s, Guest)
    requires RequestsCaused(s) && Ledger(s, found, asked)
    ensures var s' := Drain(cfg.d, s, Host); RequestsCaused(s') && Ledger(s', found', asked')
    decreases |s.up|
  {
    found', asked' := found, asked;
    if Ready(s, Host) {
      HostDelivers(cfg, s);
      found', asked' := HostDeliverLedger(cfg, s, found, asked);
      hide Good, Deliver, Resting, RequestsCaused, Ledger;
      found', asked' := HostDrainLedger(cfg, Deliver(cfg.d, s, Host), found', asked');
    }
  }

  lemma HostPumpLedger(cfg: Config, s: System, k: nat, found: set<Epoch>, asked: set<Epoch>)
    returns (found': set<Epoch>, asked': set<Epoch>)
    requires cfg.d >= 1 && Stable(cfg, s) && RequestsCaused(s) && Ledger(s, found, asked)
    ensures var s' := Pump(cfg.d, s, Host, k); RequestsCaused(s') && Ledger(s', found', asked')
  {
    FetchKeeps(cfg, s, Host, k);
    hide Good;
    found', asked' := HostDrainLedger(cfg, Fetch(s, Host, k), found, asked);
  }

  /** The host's own moves: a push spends what was pending. */
  lemma HostTurnLedger(cfg: Config, s: System, found: set<Epoch>, asked: set<Epoch>)
    requires Legal(cfg) && Stable(cfg, s) && s.host.gate && Open(cfg.d, s.host)
    requires RequestsCaused(s) && Ledger(s, found, asked)
    ensures var s' := Emit(s, Host, PlayAndPend(cfg, Host, s.host)); RequestsCaused(s') && Ledger(s', found, asked)
  {
    hide PlayAndPend, Play, Stable, Open;
    HostTurns(cfg, s);
    PlayAndPendRx(cfg, s.host);
  }

  lemma PlayAndPendRx(cfg: Config, h: Con)
    requires cfg.d >= 1
    ensures PlayAndPend(cfg, Host, h).0.rx == h.rx
  {
    hide Fold, PushFrames;
  }

  lemma CaptureLedger(d: nat, s: System, seat: Seat, cell: Cell, found: set<Epoch>, asked: set<Epoch>)
    requires d >= 1 && RequestsCaused(s) && Ledger(s, found, asked)
    ensures var s' := Emit(s, seat, Capture(d, Get(s, seat), cell)); RequestsCaused(s') && Ledger(s', found, asked)
  {
    CaptureKeeps(d, Get(s, seat), cell);
    hide Capture;
  }

  lemma GuestTurnLedger(cfg: Config, s: System, found: set<Epoch>, asked: set<Epoch>)
    requires cfg.d >= 1 && RequestsCaused(s) && Ledger(s, found, asked)
    ensures var s' := Emit(s, Guest, PlayAndPend(cfg, Guest, s.guest)); RequestsCaused(s') && Ledger(s', found, asked)
  {
    GuestPendsNothing(cfg, s.guest);
    PlayKeeps(cfg, Guest, s.guest);
    hide Play, PlayAndPend;
  }

  lemma FaultLedger(cfg: Config, s: System, a: Action, found: set<Epoch>, asked: set<Epoch>)
    requires cfg.d >= 1 && a.Fault? && RequestsCaused(s) && Ledger(s, found, asked)
    ensures var s' := Step(cfg, s, a); RequestsCaused(s') && Ledger(s', found, asked)
  {
    hide Pump;
    assert s.down + [] == s.down && s.up + [] == s.up;
  }

  lemma StepLedger(cfg: Config, s: System, a: Action, found: set<Epoch>, asked: set<Epoch>)
    returns (found': set<Epoch>, asked': set<Epoch>)
    requires Legal(cfg) && Stable(cfg, s) && RequestsCaused(s) && Ledger(s, found, asked)
    ensures var s' := Step(cfg, s, a); RequestsCaused(s') && Ledger(s', found', asked')
  {
    hide Stable, Open, PlayAndPend, Capture, Pump, Ledger, RequestsCaused;
    found', asked' := found, asked;
    match a {
      case Fault(_, _) =>
        FaultLedger(cfg, s, a, found, asked);
      case Poll(Host, k) =>
        if !s.host.gate { found', asked' := HostPumpLedger(cfg, s, k, found, asked); }
      case Poll(Guest, k) =>
        if !s.guest.gate { GuestPumpOnly(cfg, s, k, found, asked); }
      case Go(Host, k, cell) =>
        if s.host.gate && Open(cfg.d, s.host) {
          HostTurnLedger(cfg, s, found, asked);
        } else {
          found', asked' := HostPumpLedger(cfg, s, k, found, asked);
          CaptureLedger(cfg.d, Pump(cfg.d, s, Host, k), Host, cell, found', asked');
        }
      case Go(Guest, k, cell) =>
        if s.guest.gate && Open(cfg.d, s.guest) {
          GuestTurnLedger(cfg, s, found, asked);
        } else {
          GuestPumpOnly(cfg, s, k, found, asked);
          CaptureLedger(cfg.d, Pump(cfg.d, s, Guest, k), Guest, cell, found, asked);
        }
    }
  }

  lemma GuestPumpOnly(cfg: Config, s: System, k: nat, found: set<Epoch>, asked: set<Epoch>)
    requires cfg.d >= 1 && Stable(cfg, s) && RequestsCaused(s) && Ledger(s, found, asked)
    requires s.guest.gate ==> !Open(cfg.d, s.guest)
    ensures var s' := Pump(cfg.d, s, Guest, k); RequestsCaused(s') && Ledger(s', found, asked)
  {
    GuestPumps(cfg, s, k);
    GuestPumpCaused(cfg, s, k);
    hide Pump, Stable;
  }

  // ---- over runs -------------------------------------------------------------

  /** How many faults a run has. */
  function Faults(acts: seq<Action>): nat {
    if acts == [] then 0 else Faults(acts[..|acts| - 1]) + if acts[|acts| - 1].Fault? then 1 else 0
  }

  lemma {:induction false} RunLedger(cfg: Config, sim: Sim, acts: seq<Action>)
    returns (found: set<Epoch>, asked: set<Epoch>)
    requires Legal(cfg) && CalmRun(cfg, Start(cfg, sim), acts)
    ensures var s := Run(cfg, Start(cfg, sim), acts);
            && RequestsCaused(s) && Ledger(s, found, asked) && |s.bad| <= 2 * Faults(acts)
    decreases |acts|
  {
    if acts == [] {
      found, asked := {}, {};
    } else {
      var before, a := acts[..|acts| - 1], acts[|acts| - 1];
      found, asked := RunLedger(cfg, sim, before);
      RunStable(cfg, sim, before);
      var s := Run(cfg, Start(cfg, sim), before);
      found, asked := StepLedger(cfg, s, a, found, asked);
      hide Stable, RequestsCaused, Ledger;
      StepSpoils(cfg, s, a);
    }
  }

  lemma StepSpoils(cfg: Config, s: System, a: Action)
    requires Legal(cfg) && Stable(cfg, s)
    ensures |Step(cfg, s, a).bad| <= |s.bad| + if a.Fault? then 2 else 0
  {
    if a.Fault? {
      var c := Get(s, a.seat);
      var more := if c.rx.image.Image? then {c.ep, c.rx.image.next} else {c.ep};
      SetUnion(s.bad, Spoiled(c), c.ep, if c.rx.image.Image? then c.rx.image.next else c.ep);
    } else {
      BadOnlyByFault(cfg, s, a);
    }
    hide Stable;
  }

  lemma SetUnion(s: set<Epoch>, t: set<Epoch>, a: Epoch, b: Epoch)
    requires t <= {a, b}
    ensures |s + t| <= |s| + 2
  {
    assert s + t == s + (t - s);
    assert |s + (t - s)| == |s| + |t - s|;
    Subset(t - s, {a, b});
  }

  lemma {:induction false} Subset(s: set<Epoch>, t: set<Epoch>)
    requires s <= t
    ensures |s| <= |t|
  {
    assert t == s + (t - s);
  }

  /** On every run, the resyncs the host has pushed or wants are at most two for
      each faulty epoch, and so at most four for each fault. */
  lemma PushesBounded(cfg: Config, sim: Sim, acts: seq<Action>)
    requires Legal(cfg) && CalmRun(cfg, Start(cfg, sim), acts)
    ensures var s := Run(cfg, Start(cfg, sim), acts);
            && s.host.ep.no + Count(s.host.pend) <= 2 * |s.bad|
            && s.host.ep.no + Count(s.host.pend) <= 4 * Faults(acts)
  {
    var found, asked := RunLedger(cfg, sim, acts);
    var s := Run(cfg, Start(cfg, sim), acts);
    Subset(found, s.bad);
    Subset(asked, s.bad);
  }

  // ---- pending in an unspoiled epoch -----------------------------------------

  /** Some frame among the first n on their way to the host is a request. */
  predicate Asks(up: seq<Frame>, n: nat)
    requires n <= |up|
  {
    exists i :: 0 <= i < n && up[i].Req?
  }

  lemma {:induction false} DrainPends(cfg: Config, s: System)
    requires cfg.d >= 1 && Good(cfg, s) && s.upAcc <= Bytes(s.up) && Resting(s, Guest)
    requires s.host.ep !in s.bad
    ensures var s' := Drain(cfg.d, s, Host);
            && |s'.up| <= |s.up|
            && (s'.host.pend <==> s.host.pend || Asks(s.up, |s.up| - |s'.up|))
    decreases |s.up|
  {
    hide Good, Deliver, Resting, Asks, Listened;
    if Ready(s, Host) {
      var s1 := Deliver(cfg.d, s, Host);
      HostDelivers(cfg, s);
      HostDeliverFacts(cfg, s);
      DrainPends(cfg, s1);
      AsksTail(s.up, s1.up, |s.up| - |Drain(cfg.d, s1, Host).up|);
    } else {
      AsksNobody(s.up);
    }
  }

  lemma AsksNobody(up: seq<Frame>)
    ensures !Asks(up, 0)
  {
  }

  lemma AsksTail(up: seq<Frame>, rest: seq<Frame>, n: nat)
    requires up != [] && rest == up[1..] && 0 < n <= |up|
    ensures Asks(up, n) <==> up[0].Req? || Asks(rest, n - 1)
  {
    if Asks(rest, n - 1) {
      var i :| 0 <= i < n - 1 && rest[i].Req?;
      assert up[i + 1].Req?;
    }
    if Asks(up, n) && !up[0].Req? {
      var i :| 0 <= i < n && up[i].Req?;
      assert rest[i - 1].Req?;
    }
  }

  /** In an epoch no fault hit, a pump makes the host want a resync exactly when
      it dispatches a request; and every request on its way was sent from an
      earlier epoch, one that a fault hit. */
  lemma PendsUnspoiled(cfg: Config, sim: Sim, acts: seq<Action>, k: nat)
    requires Legal(cfg) && CalmRun(cfg, Start(cfg, sim), acts)
    requires var s := Run(cfg, Start(cfg, sim), acts);
             s.host.ep !in s.bad && !s.host.pend
    ensures var s := Run(cfg, Start(cfg, sim), acts);
            var s' := Pump(cfg.d, s, Host, k);
            && |s'.up| <= |s.up|
            && (s'.host.pend <==> Asks(s.up, |s.up| - |s'.up|))
            && (forall i :: 0 <= i < |s.up| && s.up[i].Req? ==> s.up[i].ep.no < s.host.ep.no && s.up[i].ep in s.bad)
  {
    var s := Run(cfg, Start(cfg, sim), acts);
    RunStable(cfg, sim, acts);
    var found, asked := RunLedger(cfg, sim, acts);
    hide Run, Start, CalmRun;
    StandApart(cfg.d, s);
    Between2(cfg.d, s);
    RequestsOld(cfg, s);
    FetchKeeps(cfg, s, Host, k);
    hide Good;
    DrainPends(cfg, Fetch(s, Host, k));
  }

  lemma RequestsOld(cfg: Config, s: System)
    requires Legal(cfg) && Stable(cfg, s) && RequestsCaused(s) && s.host.ep !in s.bad
    ensures forall i :: 0 <= i < |s.up| && s.up[i].Req? ==> s.up[i].ep.no < s.host.ep.no && s.up[i].ep in s.bad
  {
    StandApart(cfg.d, s);
    Between2(cfg.d, s);
    forall i | 0 <= i < |s.up| && s.up[i].Req? ensures s.up[i].ep.no < s.host.ep.no {
      assert Between(cfg.d, s.host.rx, s.up[i], s.guest.tx);
    }
  }
}
