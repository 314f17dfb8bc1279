/** The invariants over whole runs: every interleaving of passes, pumps and
    faults. */
module IdealRuns {
  import opened Words
  import opened GameState
  import opened Wire
  import opened Ideal
  import opened IdealInvariant
  import opened History

  ghost predicate Good(cfg: Config, s: System)
    requires cfg.d >= 1
  {
    Inv(cfg.d, s) && Recorded(cfg, s)
  }

  /** Between pumps a console has parsed all it can. */
  ghost predicate Resting(s: System, seat: Seat) {
    Buffered(s, seat) <= Bytes(Inbound(s, seat)) && !Ready(s, seat)
  }

  /** What holds between any two actions of a run. */
  ghost predicate Stable(cfg: Config, s: System)
    requires cfg.d >= 1
  {
    Good(cfg, s) && Resting(s, Host) && Resting(s, Guest)
  }

  lemma RestingExtends(s: System, seat: Seat, r: (Con, seq<Frame>))
    requires Resting(s, Host) && Resting(s, Guest)
    ensures Resting(Emit(s, seat, r), Host) && Resting(Emit(s, seat, r), Guest)
  {
    BytesExtend(s.down, r.1);
    BytesExtend(s.up, r.1);
  }

  /** What listening leaves of the host. */
  predicate Listened(h: Con, h': Con) {
    && h'.gate == h.gate && h'.ep == h.ep && h'.tick == h.tick && h'.tx == h.tx && Hold(h') == Hold(h)
    && (h.pend ==> h'.pend && h'.ptmo == h.ptmo)
  }

  lemma {:induction false} HostDrains(cfg: Config, s: System)
    requires cfg.d >= 1 && Good(cfg, s) && s.upAcc <= Bytes(s.up) && Resting(s, Guest)
    ensures var s' := Drain(cfg.d, s, Host);
            && Stable(cfg, s') && s'.guest == s.guest && s'.down == s.down && s'.bad == s.bad
            && Listened(s.host, s'.host)
    decreases |s.up|
  {
    if Ready(s, Host) {
      var s1 := Deliver(cfg.d, s, Host);
      HostDelivers(cfg, s);
      HostDrains(cfg, s1);
    }
  }

  lemma HostDelivers(cfg: Config, s: System)
    requires cfg.d >= 1 && Good(cfg, s) && s.upAcc <= Bytes(s.up) && Resting(s, Guest) && Ready(s, Host)
    ensures var s' := Deliver(cfg.d, s, Host);
            && Good(cfg, s') && s'.upAcc <= Bytes(s'.up) && Resting(s', Guest)
            && s'.guest == s.guest && s'.down == s.down && s'.bad == s.bad && s'.up == s.up[1..]
            && Listened(s.host, s'.host)
  {
    HostHears(cfg.d, s);
    HostHearsRecorded(cfg, s);
    HostDeliverShape(cfg, s);
    hide Receive, Deliver, Inv, Recorded, Local, Admissible, Listened;
  }

  lemma HostDeliverShape(cfg: Config, s: System)
    requires cfg.d >= 1 && Inv(cfg.d, s) && Ready(s, Host)
    ensures var h' := Receive(cfg.d, Host, s.host, s.up[0]).0;
            && Listened(s.host, h')
            && Deliver(cfg.d, s, Host) == s.(host := h', up := s.up[1..], upAcc := s.upAcc - Size(s.up[0]))
  {
    HeadOfUp(cfg.d, s);
    HostReceives(cfg.d, s.host, s.up[0]);
    HostFields(cfg.d, s.host, s.up[0]);
    assert s.down + [] == s.down;
    hide Receive;
  }

  lemma RestingAfterGuest(s: System, r: (Con, seq<Frame>))
    requires Resting(s, Host) && Ready(s, Guest)
    ensures Resting(Emit(Pop(s, Guest), Guest, r), Host)
  {
    BytesExtend(s.up, r.1);
  }

  /** The first image bytes come with a full-size chunk, inside a push. */
  lemma ImageStarts(d: nat, w: Wire, f: Frame)
    requires d >= 1 && Admissible(d, false, w, f)
    requires !(w.image.Image? && w.image.buf != []) && (w.image.NoImage? || Size(f) < 4 + RS_CHUNK)
    ensures var n := Next(d, w, f); !(n.image.Image? && n.image.buf != [])
  {
  }

  lemma FullFirstChunk(d: nat, w: Wire, f: Frame)
    requires d >= 1 && Admissible(d, false, w, f)
    ensures f.Chunk? && f.pos == 0 ==> Size(f) == 4 + RS_CHUNK
  {
  }

  /** One frame reaching the guest. */
  lemma GuestDelivers(cfg: Config, s: System)
    requires cfg.d >= 1 && Good(cfg, s) && s.downAcc <= Bytes(s.down) && Resting(s, Host) && Ready(s, Guest)
    requires s.guest.gate && s.down[0].Chunk? && s.down[0].pos == 0 ==> !Open(cfg.d, s.guest)
    ensures var s' := Deliver(cfg.d, s, Guest);
            && Good(cfg, s') && s'.downAcc <= Bytes(s'.down) && Resting(s', Host)
            && s'.guest.gate == s.guest.gate && s'.host == s.host && s'.bad == s.bad
            && s'.downAcc + Size(s.down[0]) == s.downAcc && s'.down == s.down[1..]
            && (!Partial(s.guest) && s.downAcc < 4 + RS_CHUNK ==> !Partial(s'.guest))
            && (!Hold(s.guest) ==> !Partial(s'.guest))
  {
    hide Local, HostOk, Bounds, Fold, Recorded, Receive;
    var s' := Deliver(cfg.d, s, Guest);
    GuestHears(cfg.d, s);
    GuestHearsRecorded(cfg, s);
    GuestReceives(cfg.d, s.guest, s.down[0]);
    RestingAfterGuest(s, Receive(cfg.d, Guest, s.guest, s.down[0]));
    if !Partial(s.guest) && (!Hold(s.guest) || s.downAcc < 4 + RS_CHUNK) {
      ImageStarts(cfg.d, s.guest.rx, s.down[0]);
    }
    assert s'.guest.rx == Next(cfg.d, s.guest.rx, s.down[0]);
  }

  /** With fewer than 100 bytes buffered the first chunk of an image cannot be
      complete, so no image application starts. */
  lemma {:induction false} GuestDrainsShort(cfg: Config, s: System)
    requires cfg.d >= 1 && Good(cfg, s) && s.downAcc <= Bytes(s.down) && Resting(s, Host)
    requires s.downAcc < 4 + RS_CHUNK
    ensures var s' := Drain(cfg.d, s, Guest);
            && Stable(cfg, s') && s'.guest.gate == s.guest.gate && s'.host == s.host && s'.bad == s.bad
            && (!Partial(s.guest) ==> !Partial(s'.guest))
    decreases |s.down|
  {
    if Ready(s, Guest) {
      FullFirstChunk(cfg.d, s.guest.rx, s.down[0]);
      GuestDelivers(cfg, s);
      GuestDrainsShort(cfg, Deliver(cfg.d, s, Guest));
    }
  }

  lemma FetchKeeps(cfg: Config, s: System, seat: Seat, k: nat)
    requires cfg.d >= 1 && Stable(cfg, s)
    ensures var s' := Fetch(s, seat, k);
            && Good(cfg, s') && Resting(s', if seat == Host then Guest else Host)
            && Buffered(s', seat) <= Bytes(Inbound(s', seat))
            && Buffered(s', seat) <= Buffered(s, seat) + READ_MAX
  {
    var s' := Fetch(s, seat, k);
    assert Linked(cfg.d, s') && Bounds(cfg.d, s');
    assert Undisturbed(s');
  }

  lemma HostPumps(cfg: Config, s: System, k: nat)
    requires cfg.d >= 1 && Stable(cfg, s)
    ensures var s' := Pump(cfg.d, s, Host, k);
            && Stable(cfg, s') && s'.guest == s.guest && s'.down == s.down && s'.bad == s.bad
            && Listened(s.host, s'.host)
  {
    FetchKeeps(cfg, s, Host, k);
    HostDrains(cfg, Fetch(s, Host, k));
  }

  /** Only the first frame completed by a pump can be a 100-byte chunk: what
      the pump read after it is at most 63 bytes. */
  lemma GuestPumps(cfg: Config, s: System, k: nat)
    requires cfg.d >= 1 && Stable(cfg, s)
    requires s.guest.gate ==> !Open(cfg.d, s.guest)
    ensures var s' := Pump(cfg.d, s, Guest, k);
            && Stable(cfg, s') && s'.guest.gate == s.guest.gate && s'.host == s.host && s'.bad == s.bad
            && (!Hold(s.guest) ==> !Partial(s'.guest))
  {
    var s1 := Fetch(s, Guest, k);
    FetchKeeps(cfg, s, Guest, k);
    if Ready(s1, Guest) {
      GuestDelivers(cfg, s1);
      GuestDrainsShort(cfg, Deliver(cfg.d, s1, Guest));
    }
  }

  /** States in which the resume offset of 16 suffices: delay at most 15, or no
      push so far. */
  predicate Calm(cfg: Config, s: System) {
    cfg.d <= 15 || s.host.ep.no == 0
  }

  lemma HostGoes(cfg: Config, s: System, k: nat, cell: Cell)
    requires Legal(cfg) && Stable(cfg, s)
    requires Calm(cfg, Step(cfg, s, Go(Host, k, cell)))
    ensures Stable(cfg, Step(cfg, s, Go(Host, k, cell)))
  {
    if !s.host.gate {
      HostPumps(cfg, s, k);
      var s1 := Pump(cfg.d, s, Host, k);
      HostCaptures(cfg.d, s1, cell);
      HostCapturesRecorded(cfg, s1, cell);
      RestingExtends(s1, Host, Capture(cfg.d, s1.host, cell));
    } else if Open(cfg.d, s.host) {
      HostPlaysAndPends(cfg, s);
    } else {
      HostPumps(cfg, s, k);
    }
  }

  lemma EmitTwice(s: System, c1: Con, out1: seq<Frame>, c2: Con, out2: seq<Frame>)
    ensures Emit(s, Host, (c2, out1 + out2)) == Emit(Emit(s, Host, (c1, out1)), Host, (c2, out2))
  {
    assert s.down + (out1 + out2) == s.down + out1 + out2;
  }

  lemma PushCounts(d: nat, c: Con)
    requires d >= 1
    ensures Push(d, c).0.ep.no == c.ep.no + 1
  {
  }

  lemma HostPlaysAndPends(cfg: Config, s: System)
    requires Legal(cfg) && Stable(cfg, s) && s.host.gate && Open(cfg.d, s.host)
    requires Calm(cfg, Emit(s, Host, PlayAndPend(cfg, Host, s.host)))
    ensures Stable(cfg, Emit(s, Host, PlayAndPend(cfg, Host, s.host)))
  {
    var d := cfg.d;
    var (c1, out1) := Play(cfg, Host, s.host);
    var (c2, out2) := Pending(d, Host, c1);
    var s1 := Emit(s, Host, (c1, out1));
    HostPlays(cfg, s);
    HostPlaysRecorded(cfg, s);
    SelfPlays(cfg, Host, s.host);
    PendingCases(d, c1);
    PushCounts(d, c1);
    HostPends(d, s1);
    HostPendsRecorded(cfg, s1);
    EmitTwice(s, c1, out1, c2, out2);
    RestingExtends(s, Host, (c2, out1 + out2));
  }

  /** The host's flags and epoch after RS_PENDING. */
  ghost predicate Pended(h: Con, h': Con) {
    if PushDue(h) then
      && h'.ep == Epoch(h.ep.no + 1, h.tick + 16) && h'.tick == h'.ep.base && !h'.pend
      && h'.tx.starts == h.tx.starts[h'.ep := Clamp(h.sim)]
    else
      && h'.ep == h.ep && h'.tick == h.tick && h'.pend == h.pend && h'.tx.starts == h.tx.starts
      && h'.ptmo == h.ptmo + Count(h.pend)
  }

  lemma PendingDoes(d: nat, h: Con)
    requires d >= 1 && Local(d, h) && HostOk(d, h) && !h.gate
    ensures Pended(h, Pending(d, Host, h).0)
  {
    PendingCases(d, h);
    if PushDue(h) {
      PushKeeps(d, h);
    }
    hide Pending, Push, Local, HostOk;
  }

  /** One host tick with its RS_PENDING call. */
  lemma HostTurns(cfg: Config, s: System)
    requires Legal(cfg) && Stable(cfg, s) && s.host.gate && Open(cfg.d, s.host)
    ensures var h1 := Play(cfg, Host, s.host).0;
            && Pended(h1, PlayAndPend(cfg, Host, s.host).0)
            && h1.ep == s.host.ep && h1.tick == s.host.tick + 1 && h1.tx.starts == s.host.tx.starts
            && h1.pend == s.host.pend && (h1.pend ==> h1.ptmo == s.host.ptmo)
  {
    HostPlays(cfg, s);
    PlayKeeps(cfg, Host, s.host);
    PlayWaits(cfg, Host, s.host);
    hide Play, Pending, Pended;
    PendingDoes(cfg.d, Play(cfg, Host, s.host).0);
  }

  lemma PlayWaits(cfg: Config, seat: Seat, c: Con)
    requires cfg.d >= 1
    ensures Play(cfg, seat, c).0.ptmo == c.ptmo
  {
  }

  lemma GuestPendsNothing(cfg: Config, c: Con)
    requires cfg.d >= 1
    ensures PlayAndPend(cfg, Guest, c) == Play(cfg, Guest, c)
  {
    assert Play(cfg, Guest, c).1 + [] == Play(cfg, Guest, c).1;
  }

  lemma GuestGoes(cfg: Config, s: System, k: nat, cell: Cell)
    requires Legal(cfg) && Stable(cfg, s) && Calm(cfg, s)
    ensures Stable(cfg, Step(cfg, s, Go(Guest, k, cell)))
  {
    var d := cfg.d;
    if !s.guest.gate {
      GuestPumps(cfg, s, k);
      var s1 := Pump(d, s, Guest, k);
      if !Hold(s.guest) {
        GuestCaptures(d, s1, cell);
        GuestCapturesRecorded(cfg, s1, cell);
        RestingExtends(s1, Guest, Capture(d, s1.guest, cell));
      }
    } else if Open(d, s.guest) {
      GuestPendsNothing(cfg, s.guest);
      GuestPlays(cfg, s);
      GuestPlaysRecorded(cfg, s);
      RestingExtends(s, Guest, Play(cfg, Guest, s.guest));
    } else {
      GuestPumps(cfg, s, k);
    }
  }

  lemma FaultInv(cfg: Config, s: System, seat: Seat, sim: Sim)
    requires Legal(cfg) && Inv(cfg.d, s) && Resting(s, Host) && Resting(s, Guest)
    ensures var s' := Step(cfg, s, Fault(seat, sim)); Inv(cfg.d, s') && Resting(s', Host) && Resting(s', Guest)
  {
    hide Local, HostOk, GuestOk, Linked, Bounds;
    var s' := Step(cfg, s, Fault(seat, sim));
    assert s.down + [] == s.down && s.up + [] == s.up;
    var c := Get(s, seat);
    FaultLocal(cfg.d, c, sim);
    FaultLinks(cfg.d, s, s');
  }

  lemma FaultLocal(d: nat, c: Con, sim: Sim)
    requires d >= 1 && Local(d, c)
    ensures var c' := c.(sim := sim);
            Local(d, c') && (HostOk(d, c) ==> HostOk(d, c')) && (GuestOk(d, c) ==> GuestOk(d, c'))
  {
  }

  lemma FaultLinks(d: nat, s: System, s': System)
    requires d >= 1 && Linked(d, s) && Bounds(d, s) && s'.down == s.down && s'.up == s.up
    requires s'.host == s.host.(sim := s'.host.sim) && s'.guest == s.guest.(sim := s'.guest.sim)
    ensures Linked(d, s') && Bounds(d, s')
  {
    hide Chain, Fold, StaleOk;
  }

  lemma FaultKeeps(cfg: Config, s: System, seat: Seat, sim: Sim)
    requires Legal(cfg) && Stable(cfg, s)
    ensures Stable(cfg, Step(cfg, s, Fault(seat, sim)))
  {
    FaultInv(cfg, s, seat, sim);
    FaultRecorded(cfg, s, seat, sim);
  }

  lemma StepKeeps(cfg: Config, s: System, a: Action)
    requires Legal(cfg) && Stable(cfg, s)
    requires Calm(cfg, s) && Calm(cfg, Step(cfg, s, a))
    ensures Stable(cfg, Step(cfg, s, a))
  {
    match a
    case Fault(seat, sim) => FaultKeeps(cfg, s, seat, sim);
    case Poll(Host, k) => HostPumps(cfg, s, k);
    case Poll(Guest, k) => if !s.guest.gate { GuestPumps(cfg, s, k); }
    case Go(Host, k, cell) => HostGoes(cfg, s, k, cell);
    case Go(Guest, k, cell) => GuestGoes(cfg, s, k, cell);
  }

  // ---- runs --------------------------------------------------------------

  /** Calm at every moment of the run. */
  ghost predicate CalmRun(cfg: Config, s: System, acts: seq<Action>)
    requires cfg.d >= 1
    decreases |acts|
  {
    Calm(cfg, Run(cfg, s, acts)) && (acts != [] ==> CalmRun(cfg, s, acts[..|acts| - 1]))
  }

  lemma RunSnoc(cfg: Config, s: System, acts: seq<Action>, a: Action)
    requires cfg.d >= 1
    ensures Run(cfg, s, acts + [a]) == Step(cfg, Run(cfg, s, acts), a)
  {
    assert (acts + [a])[..|acts|] == acts;
  }

  lemma {:induction false} RunStable(cfg: Config, sim: Sim, acts: seq<Action>)
    requires Legal(cfg) && CalmRun(cfg, Start(cfg, sim), acts)
    ensures Stable(cfg, Run(cfg, Start(cfg, sim), acts))
    decreases |acts|
  {
    if acts == [] {
      StartInv(cfg, sim);
      StartRecorded(cfg, sim);
    } else {
      var before := acts[..|acts| - 1];
      RunStable(cfg, sim, before);
      StepKeeps(cfg, Run(cfg, Start(cfg, sim), before), acts[|acts| - 1]);
    }
  }

  /** Without a push so far and none wanted, the next action pushes nothing. */
  lemma NoPushYet(cfg: Config, s: System, a: Action)
    requires Legal(cfg) && Stable(cfg, s) && s.host.ep.no == 0 && !s.host.pend
    ensures Step(cfg, s, a).host.ep.no == 0
  {
    match a
    case Fault(_, _) =>
    case Poll(Host, k) => HostPumps(cfg, s, k);
    case Poll(Guest, k) => if !s.guest.gate { GuestPumps(cfg, s, k); }
    case Go(Host, k, cell) =>
      if s.host.gate && Open(cfg.d, s.host) {
        SelfPlays(cfg, Host, s.host);
        PendingCases(cfg.d, Play(cfg, Host, s.host).0);
        PlayKeeps(cfg, Host, s.host);
      } else {
        HostPumps(cfg, s, k);
        CaptureKeeps(cfg.d, Pump(cfg.d, s, Host, k).host, cell);
      }
    case Go(Guest, k, cell) =>
      if !(s.guest.gate && Open(cfg.d, s.guest)) {
        GuestPumps(cfg, s, k);
      }
  }

  predicate FaultFree(acts: seq<Action>) {
    forall i :: 0 <= i < |acts| ==> !acts[i].Fault?
  }

  /** Runs without faults never push, whatever the delay. */
  lemma {:induction false} FaultFreeCalm(cfg: Config, sim: Sim, acts: seq<Action>)
    requires Legal(cfg) && FaultFree(acts)
    ensures CalmRun(cfg, Start(cfg, sim), acts)
    ensures Run(cfg, Start(cfg, sim), acts).bad == {}
    decreases |acts|
  {
    if acts != [] {
      var before := acts[..|acts| - 1];
      var a := acts[|acts| - 1];
      var s := Run(cfg, Start(cfg, sim), before);
      FaultFreeCalm(cfg, sim, before);
      RunStable(cfg, sim, before);
      NoPushYet(cfg, s, a);
      BadOnlyByFault(cfg, s, a);
    }
  }

  lemma BadOnlyByFault(cfg: Config, s: System, a: Action)
    requires Legal(cfg) && Stable(cfg, s) && !a.Fault?
    ensures Step(cfg, s, a).bad == s.bad
  {
    match a
    case Poll(Host, k) => HostPumps(cfg, s, k);
    case Poll(Guest, k) => if !s.guest.gate { GuestPumps(cfg, s, k); }
    case Go(Host, k, cell) => HostPumps(cfg, s, k);
    case Go(Guest, k, cell) => if !(s.guest.gate && Open(cfg.d, s.guest)) { GuestPumps(cfg, s, k); }
  }
}
