/** What the record of a run says: the inputs every tick read, the states they
    led to, and the checksum reports. */
module History {
  import opened Words
  import opened GameState
  import opened Wire
  import opened Ideal
  import opened IdealInvariant

  // ---- the record's invariant --------------------------------------------

  /** Every tick read exactly the inputs the two seats sent for it. */
  ghost predicate Truthful(c: Con, log0: map<At, Cell>, log1: map<At, Cell>) {
    forall k :: k in c.used ==> c.used[k] == InputsAt(log0, log1, k.ep, k.t)
  }

  /** Ticks already played lie below everything still to be sent. */
  ghost predicate Past(d: nat, c: Con) {
    forall k :: k in c.used ==> k.ep.no <= c.ep.no && (k.ep.no == c.ep.no ==> k.ep == c.ep && k.t < c.tick)
  }

  ghost predicate HostPast(d: nat, h: Con, g: Con) {
    forall k :: k in h.used ==> (k.ep == g.ep ==> k.t < NextSend(d, g)) && (g.ep.no < k.ep.no ==> k.t < k.ep.base + d)
  }

  /** One recorded state: the epoch's starting state, or the cart's tick of the
      state before it, unless a fault hit the epoch. */
  ghost predicate Derived(cfg: Config, c: Con, starts: map<Epoch, Sim>, bad: set<Epoch>, k: At)
    requires k in c.sims
  {
    var p := At(k.ep, k.t - 1);
    && k.ep.base <= k.t
    && k.ep.no <= c.ep.no && (k.ep.no == c.ep.no ==> k.ep == c.ep && k.t <= c.tick)
    && (k.t == k.ep.base && k.ep !in bad ==> k.ep in starts && c.sims[k] == starts[k.ep])
    && (k.ep.base < k.t ==> p in c.sims && p in c.used)
    && (k.ep.base < k.t && k.ep !in bad ==> c.sims[k] == cfg.cart(c.sims[p], c.used[p], Wrap(p.t)))
  }

  ghost predicate Traced(cfg: Config, c: Con, starts: map<Epoch, Sim>, bad: set<Epoch>) {
    && (forall k {:trigger Derived(cfg, c, starts, bad, k)} :: k in c.sims ==> Derived(cfg, c, starts, bad, k))
    && At(c.ep, c.tick) in c.sims
    && (!Partial(c) && c.ep !in bad ==> c.sim == c.sims[At(c.ep, c.tick)])
    && (Partial(c) && c.rx.image.next !in bad ==>
          |c.rx.image.buf| <= IMG_TOTAL && c.sim[..|c.rx.image.buf|] == c.rx.image.buf)
  }

  /** A report is the checksum of the state its tick led to. */
  ghost predicate ReportsTrue(c: Con) {
    forall k :: k in c.tx.crcs ==>
      var n := At(k.ep, k.t + 1);
      n in c.sims && c.tx.crcs[k] == Checksum(c.sims[n])
  }

  /** Bookkeeping of the comparisons. */
  ghost predicate Compared(c: Con) {
    && c.alarms <= c.compared <= c.seen
    && (forall k :: k in c.seen ==> k in c.rx.crcs)
    && (forall k :: k in c.compared ==>
          k in c.tx.crcs && (k in c.alarms <==> c.tx.crcs[k] != c.rx.crcs[k]))
  }

  ghost predicate NoFalseAlarm(c: Con, bad: set<Epoch>) {
    forall k :: k in c.alarms ==> k.ep in bad
  }

  /** A report both ends saw was compared at one of them. */
  ghost predicate OneCompares(h: Con, g: Con) {
    forall k :: k in h.seen && k in g.seen ==> k in h.compared || k in g.compared
  }

  /** Without faults nobody ever wants a resync. */
  ghost predicate Undisturbed(s: System) {
    s.bad == {} ==>
      && !s.host.pend && !s.guest.pend && s.host.ep.no == 0
      && (forall i :: 0 <= i < |s.up| ==> !s.up[i].Req?)
  }

  ghost predicate Recorded(cfg: Config, s: System) {
    && Agreeing(cfg, s.host, s.guest, s.bad)
    && Past(cfg.d, s.host) && Past(cfg.d, s.guest) && HostPast(cfg.d, s.host, s.guest)
    && Compared(s.host) && Compared(s.guest) && OneCompares(s.host, s.guest)
    && NoFalseAlarm(s.host, s.bad) && NoFalseAlarm(s.guest, s.bad)
    && Undisturbed(s)
  }

  lemma StartRecorded(cfg: Config, sim: Sim)
    requires Legal(cfg)
    ensures Recorded(cfg, Start(cfg, sim))
  {
  }

  // ---- what it implies ---------------------------------------------------

  lemma SameInputs(h: Con, g: Con, log0: map<At, Cell>, log1: map<At, Cell>, k: At)
    requires Truthful(h, log0, log1) && Truthful(g, log0, log1) && k in h.used && k in g.used
    ensures h.used[k] == g.used[k]
  {
  }

  lemma DerivedAt(cfg: Config, c: Con, starts: map<Epoch, Sim>, bad: set<Epoch>, k: At)
    requires Traced(cfg, c, starts, bad) && k in c.sims
    ensures Derived(cfg, c, starts, bad, k)
  {
  }

  /** In an epoch no fault hit, both consoles were in the same state. */
  lemma {:induction false} SameState(cfg: Config, h: Con, g: Con, log0: map<At, Cell>, log1: map<At, Cell>,
                                     starts: map<Epoch, Sim>, bad: set<Epoch>, k: At)
    requires Truthful(h, log0, log1) && Truthful(g, log0, log1)
    requires Traced(cfg, h, starts, bad) && Traced(cfg, g, starts, bad)
    requires k in h.sims && k in g.sims && k.ep !in bad
    ensures h.sims[k] == g.sims[k]
    decreases k.t - k.ep.base
  {
    DerivedAt(cfg, h, starts, bad, k);
    DerivedAt(cfg, g, starts, bad, k);
    if k.ep.base < k.t {
      var p := At(k.ep, k.t - 1);
      SameInputs(h, g, log0, log1, p);
      SameState(cfg, h, g, log0, log1, starts, bad, p);
    }
  }

  ghost predicate Agreeing(cfg: Config, h: Con, g: Con, bad: set<Epoch>) {
    && Truthful(h, h.tx.log, g.tx.log) && Truthful(g, h.tx.log, g.tx.log)
    && Traced(cfg, h, h.tx.starts, bad) && Traced(cfg, g, h.tx.starts, bad)
    && ReportsTrue(h) && ReportsTrue(g)
  }

  lemma SameReports(cfg: Config, h: Con, g: Con, bad: set<Epoch>, k: At)
    requires Agreeing(cfg, h, g, bad) && k in h.tx.crcs && k in g.tx.crcs && k.ep !in bad
    ensures h.tx.crcs[k] == g.tx.crcs[k]
  {
    hide Traced, Truthful, Checksum;
    SameState(cfg, h, g, h.tx.log, g.tx.log, h.tx.starts, bad, At(k.ep, k.t + 1));
  }

  // ---- delivery ----------------------------------------------------------

  /** A report of tick k, with what it can change. */
  ghost predicate CrcEffect(c: Con, c': Con, out: seq<Frame>, k: At, bad: set<Epoch>) {
    && Compared(c') && NoFalseAlarm(c', bad)
    && c'.used == c.used && c'.sims == c.sims && c'.sim == c.sim && c'.ep == c.ep
    && c'.tick == c.tick && c'.gate == c.gate && c'.tx.log == c.tx.log && c'.tx.crcs == c.tx.crcs
    && c'.tx.starts == c.tx.starts && c'.rx.image == c.rx.image && c'.rx.log == c.rx.log
    && (c'.pend && !c.pend ==> k.ep in bad) && (out != [] ==> k.ep in bad)
    && c'.seen <= c.seen + {k} && c.compared <= c'.compared
    && (k in c.tx.crcs && k in c'.seen ==> k in c'.compared)
  }

  lemma CrcFrame(d: nat, seat: Seat, c: Con, ep: Epoch, t: nat, crc: word)
    requires d >= 1
    ensures var (c', out) := Receive(d, seat, c, Crc(ep, t, crc));
            var k := At(ep, t);
            && c'.used == c.used && c'.sims == c.sims && c'.sim == c.sim && c'.ep == c.ep
            && c'.tick == c.tick && c'.gate == c.gate && c'.tx.log == c.tx.log && c'.tx.crcs == c.tx.crcs
            && c'.tx.starts == c.tx.starts && c'.rx.image == c.rx.image && c'.rx.log == c.rx.log
            && c'.rx.crcs == c.rx.crcs[k := crc]
            && (if !Attends(c, ep) then
                  c'.pend == c.pend && c'.seen == c.seen && c'.compared == c.compared && c'.alarms == c.alarms && out == []
                else
                  && c'.seen == c.seen + {k}
                  && c'.compared == (if k in c.tx.crcs then c.compared + {k} else c.compared)
                  && (if Differs(c, k, crc) then c'.alarms == c.alarms + {k}
                      else c'.alarms == c.alarms && c'.pend == c.pend && out == []))
  {
    var rx := Next(d, c.rx, Crc(ep, t, crc));
    var c1 := c.(rx := rx);
    NextCrc(d, c.rx, ep, t, crc);
    RequestKeeps(d, c.tx, c.ep, t);
    hide Next;
    assert Attends(c1, ep) == Attends(c, ep) && Differs(c1, At(ep, t), crc) == Differs(c, At(ep, t), crc);
  }

  lemma RequestKeeps(d: nat, w: Wire, ep: Epoch, t: nat)
    requires d >= 1
    ensures var n := Next(d, w, Req(ep, t));
            n.log == w.log && n.crcs == w.crcs && n.starts == w.starts && n.image == w.image
  {
  }

  lemma CrcRecorded(cfg: Config, seat: Seat, c: Con, ep: Epoch, t: nat, crc: word, bad: set<Epoch>)
    requires cfg.d >= 1 && Compared(c) && NoFalseAlarm(c, bad)
    requires At(ep, t) !in c.rx.crcs
    requires ep !in bad && At(ep, t) in c.tx.crcs ==> c.tx.crcs[At(ep, t)] == crc
    ensures var (c', out) := Receive(cfg.d, seat, c, Crc(ep, t, crc));
            CrcEffect(c, c', out, At(ep, t), bad)
  {
    hide ReceiveCrc, Receive, Next, Mark;
    CrcFrame(cfg.d, seat, c, ep, t, crc);
    var k := At(ep, t);
    var (c', out) := Receive(cfg.d, seat, c, Crc(ep, t, crc));
    assert k !in c.seen;
    forall j | j in c'.compared
      ensures j in c'.tx.crcs && (j in c'.alarms <==> c'.tx.crcs[j] != c'.rx.crcs[j])
    {
    }
  }

  /** Traced depends only on the fields a checksum report leaves alone. */
  lemma TracedFrame(cfg: Config, c: Con, c': Con, starts: map<Epoch, Sim>, bad: set<Epoch>)
    requires Traced(cfg, c, starts, bad)
    requires c'.used == c.used && c'.sims == c.sims && c'.sim == c.sim && c'.ep == c.ep && c'.tick == c.tick
    requires Partial(c') == Partial(c) && (Partial(c) ==> c'.rx.image == c.rx.image)
    ensures Traced(cfg, c', starts, bad)
  {
    forall k | k in c'.sims ensures Derived(cfg, c', starts, bad, k) {
      assert Derived(cfg, c, starts, bad, k);
    }
  }

  /** Fields the record speaks of, all kept but the received wire. */
  ghost predicate SameRecord(c: Con, c': Con) {
    && c'.used == c.used && c'.sims == c.sims && c'.sim == c.sim && c'.ep == c.ep && c'.tick == c.tick
    && c'.gate == c.gate && c'.tx == c.tx
    && c'.seen == c.seen && c'.compared == c.compared && c'.alarms == c.alarms
  }

  lemma HostOtherFrame(d: nat, h: Con, f: Frame)
    requires d >= 1 && Admissible(d, true, h.rx, f) && !f.Crc?
    ensures var (h', out) := Receive(d, Host, h, f);
            && SameRecord(h, h') && out == [] && h'.rx.crcs == h.rx.crcs && !Partial(h')
            && (h'.pend && !h.pend ==> f.Req?)
  {
  }

  /** What Agreeing and the Past predicates read of a console. */
  ghost predicate Kept(c: Con, c': Con) {
    && c'.used == c.used && c'.sims == c.sims && c'.sim == c.sim && c'.ep == c.ep && c'.tick == c.tick
    && c'.gate == c.gate && c'.tx.log == c.tx.log && c'.tx.crcs == c.tx.crcs && c'.tx.starts == c.tx.starts
    && Partial(c') == Partial(c) && (Partial(c) ==> c'.rx.image == c.rx.image)
  }

  lemma KeptRecorded(cfg: Config, s: System, s': System)
    requires Recorded(cfg, s) && Kept(s.host, s'.host) && Kept(s.guest, s'.guest) && s'.bad == s.bad
    requires Compared(s'.host) && Compared(s'.guest) && OneCompares(s'.host, s'.guest)
    requires NoFalseAlarm(s'.host, s.bad) && NoFalseAlarm(s'.guest, s.bad)
    requires Undisturbed(s')
    ensures Recorded(cfg, s')
  {
    TracedFrame(cfg, s.host, s'.host, s.host.tx.starts, s.bad);
    TracedFrame(cfg, s.guest, s'.guest, s.host.tx.starts, s.bad);
    assert Agreeing(cfg, s'.host, s'.guest, s.bad);
  }

  lemma HostHearsKept(cfg: Config, s: System)
    requires cfg.d >= 1 && Inv(cfg.d, s) && Recorded(cfg, s) && s.up != []
    ensures var (h', out) := Receive(cfg.d, Host, s.host, s.up[0]);
            && Kept(s.host, h') && Compared(h') && NoFalseAlarm(h', s.bad) && OneCompares(h', s.guest)
            && (s.bad == {} ==> !h'.pend)
  {
    var f := s.up[0];
    HeadOfUp(cfg.d, s);
    if f.Crc? {
      HostHearsCrc(cfg, s);
    } else {
      HostOtherFrame(cfg.d, s.host, f);
    }
  }

  lemma HostHearsRecorded(cfg: Config, s: System)
    requires cfg.d >= 1 && Inv(cfg.d, s) && Recorded(cfg, s) && Ready(s, Host)
    ensures Recorded(cfg, Deliver(cfg.d, s, Host))
  {
    var f := s.up[0];
    var (h', out) := Receive(cfg.d, Host, s.host, f);
    HeadOfUp(cfg.d, s);
    HostReceives(cfg.d, s.host, f);
    HostHearsKept(cfg, s);
    HostRecorded(cfg, s, h', s.upAcc - Size(f));
    assert s.down + out == s.down;
  }

  lemma HostRecorded(cfg: Config, s: System, h': Con, acc: nat)
    requires Recorded(cfg, s) && s.up != []
    requires Kept(s.host, h') && Compared(h') && NoFalseAlarm(h', s.bad) && OneCompares(h', s.guest)
    requires s.bad == {} ==> !h'.pend
    ensures Recorded(cfg, s.(host := h', up := s.up[1..], upAcc := acc))
  {
    var s' := s.(host := h', up := s.up[1..], upAcc := acc);
    assert forall i :: 0 <= i < |s'.up| ==> s'.up[i] == s.up[i + 1];
    assert Kept(s.guest, s.guest);
    KeptRecorded(cfg, s, s');
  }

  /** A report at the head of a channel, seen from its receiver c and its
      sender p: new to c, and equal to c's own report in an unspoiled epoch. */
  ghost predicate HonestReport(c: Con, p: Con, k: At, crc: word, bad: set<Epoch>) {
    && k !in c.rx.crcs
    && (k.ep !in bad && k in c.tx.crcs ==> c.tx.crcs[k] == crc)
    && (k in p.seen ==> k in c.tx.crcs)
  }

  lemma HostHeadReport(cfg: Config, s: System)
    requires cfg.d >= 1 && Inv(cfg.d, s) && Agreeing(cfg, s.host, s.guest, s.bad) && Compared(s.guest)
    requires s.up != [] && s.up[0].Crc?
    ensures var f := s.up[0]; HonestReport(s.host, s.guest, At(f.ep, f.t), f.crc, s.bad)
  {
    var h, g, f := s.host, s.guest, s.up[0];
    var k := At(f.ep, f.t);
    InFlightHead(cfg.d, true, s.up, h.rx);
    FoldKeeps(cfg.d, false, s.down, g.rx);
    if f.ep !in s.bad && k in h.tx.crcs {
      SameReports(cfg, h, g, s.bad, k);
    }
  }

  lemma GuestHeadReport(cfg: Config, s: System)
    requires cfg.d >= 1 && Inv(cfg.d, s) && Agreeing(cfg, s.host, s.guest, s.bad) && Compared(s.host)
    requires s.down != [] && s.down[0].Crc?
    ensures var f := s.down[0]; HonestReport(s.guest, s.host, At(f.ep, f.t), f.crc, s.bad)
  {
    var h, g, f := s.host, s.guest, s.down[0];
    var k := At(f.ep, f.t);
    InFlightHead(cfg.d, false, s.down, g.rx);
    FoldKeeps(cfg.d, true, s.up, h.rx);
    if f.ep !in s.bad && k in g.tx.crcs {
      SameReports(cfg, h, g, s.bad, k);
    }
  }

  lemma HonestCompared(c: Con, c': Con, p: Con, out: seq<Frame>, k: At, crc: word, bad: set<Epoch>)
    requires HonestReport(c, p, k, crc, bad) && CrcEffect(c, c', out, k, bad)
    requires forall j :: j in c.seen && j in p.seen ==> j in c.compared || j in p.compared
    ensures forall j :: j in c'.seen && j in p.seen ==> j in c'.compared || j in p.compared
  {
  }

  lemma HostHearsCrc(cfg: Config, s: System)
    requires cfg.d >= 1 && Inv(cfg.d, s) && Recorded(cfg, s) && s.up != [] && s.up[0].Crc?
    ensures var f := s.up[0];
            var (h', out) := Receive(cfg.d, Host, s.host, f);
            CrcEffect(s.host, h', out, At(f.ep, f.t), s.bad)
            && OneCompares(h', s.guest)
  {
    var h, f := s.host, s.up[0];
    var (h', out) := Receive(cfg.d, Host, h, f);
    HostHeadReport(cfg, s);
    hide Inv, Agreeing, Receive, CrcEffect;
    CrcRecorded(cfg, Host, h, f.ep, f.t, f.crc, s.bad);
    HonestCompared(h, h', s.guest, out, At(f.ep, f.t), f.crc, s.bad);
  }

  lemma GuestOtherFrame(d: nat, g: Con, f: Frame)
    requires d >= 1 && Admissible(d, false, g.rx, f) && (f.Input? || f.Begin?)
    ensures var (g', out) := Receive(d, Guest, g, f);
            && SameRecord(g, g') && out == [] && g'.rx.crcs == g.rx.crcs && !Partial(g')
            && g'.pend == g.pend && !Partial(g)
  {
  }

  lemma GuestHearsCrc(cfg: Config, s: System)
    requires cfg.d >= 1 && Inv(cfg.d, s) && Recorded(cfg, s) && s.down != [] && s.down[0].Crc?
    ensures var f := s.down[0];
            var (g', out) := Receive(cfg.d, Guest, s.guest, f);
            CrcEffect(s.guest, g', out, At(f.ep, f.t), s.bad)
            && OneCompares(s.host, g')
  {
    var g, f := s.guest, s.down[0];
    var (g', out) := Receive(cfg.d, Guest, g, f);
    GuestHeadReport(cfg, s);
    hide Inv, Agreeing, Receive, CrcEffect;
    CrcRecorded(cfg, Guest, g, f.ep, f.t, f.crc, s.bad);
    HonestCompared(g, g', s.host, out, At(f.ep, f.t), f.crc, s.bad);
  }

  lemma GuestAppliesChunk(cfg: Config, g: Con, f: Frame, starts: map<Epoch, Sim>, bad: set<Epoch>)
    requires cfg.d >= 1 && Admissible(cfg.d, false, g.rx, f) && f.Chunk?
    requires Traced(cfg, g, starts, bad)
    ensures var (g', out) := Receive(cfg.d, Guest, g, f);
            && Traced(cfg, g', starts, bad) && out == []
            && SameRecord(g, g'.(sim := g.sim)) && g'.rx.crcs == g.rx.crcs && g'.pend == g.pend
  {
    hide Overlay, ReceiveCrc, Mark;
    var (g', out) := Receive(cfg.d, Guest, g, f);
    forall k | k in g'.sims ensures Derived(cfg, g', starts, bad, k) {
      assert Derived(cfg, g, starts, bad, k);
    }
    if g.rx.image.next !in bad {
      AppliedSoFar(g.sim, g.rx.image.buf, f.data);
    }
  }

  /** A chunk laid over a state that has the image so far. */
  lemma AppliedSoFar(s: Sim, buf: seq<byte>, data: seq<byte>)
    requires |buf| + |data| <= IMG_TOTAL && (buf != [] ==> s[..|buf|] == buf)
    ensures Overlay(s, |buf|, data)[..|buf| + |data|] == buf + data
  {
    assert s[..|buf|] == buf;
  }

  lemma SoFar(cfg: Config, c: Con, starts: map<Epoch, Sim>, bad: set<Epoch>)
    requires Traced(cfg, c, starts, bad)
    ensures forall k :: k in c.sims ==> k.ep.no <= c.ep.no && (k.ep == c.ep ==> k.t <= c.tick)
  {
    forall k | k in c.sims ensures k.ep.no <= c.ep.no && (k.ep == c.ep ==> k.t <= c.tick) {
      DerivedAt(cfg, c, starts, bad, k);
    }
  }

  lemma GuestRebaseTraced(cfg: Config, g: Con, starts: map<Epoch, Sim>, bad: set<Epoch>)
    requires cfg.d >= 1 && Local(cfg.d, g) && GuestOk(cfg.d, g) && Admissible(cfg.d, false, g.rx, End)
    requires Traced(cfg, g, starts, bad)
    requires var w := Next(cfg.d, g.rx, End); w.ep in starts && starts[w.ep] == w.starts[w.ep]
    ensures var (g', out) := Receive(cfg.d, Guest, g, End);
            && Traced(cfg, g', starts, bad) && out == [] && !Partial(g') && !g'.pend
            && g'.used == g.used && g'.tx == g.tx && g'.rx.crcs == g.rx.crcs && g'.rx.log == g.rx.log
            && g'.seen == g.seen && g'.compared == g.compared && g'.alarms == g.alarms
            && g'.ep == g.rx.image.next && g'.tick == g'.ep.base
            && (forall k :: k in g.sims ==> k in g'.sims && g'.sims[k] == g.sims[k])
  {
    var (g', out) := Receive(cfg.d, Guest, g, End);
    var next := g.rx.image.next;
    assert g'.rx == Next(cfg.d, g.rx, End);
    assert g.sim[..IMG_TOTAL] == g.sim;
    SoFar(cfg, g, starts, bad);
    forall k | k in g'.sims ensures Derived(cfg, g', starts, bad, k) {
      if k in g.sims {
        assert Derived(cfg, g, starts, bad, k);
      }
    }
  }

  /** A guest that kept its record, or extended it by a rebase. */
  ghost predicate Continued(cfg: Config, g: Con, g': Con, starts: map<Epoch, Sim>, bad: set<Epoch>) {
    && Traced(cfg, g', starts, bad)
    && g'.used == g.used && g'.tx.log == g.tx.log && g'.tx.crcs == g.tx.crcs
    && (forall k :: k in g.sims ==> k in g'.sims && g'.sims[k] == g.sims[k])
    && (if g.ep.no < g'.ep.no then NextSend(cfg.d, g') >= g'.ep.base + cfg.d
        else g'.ep == g.ep && NextSend(cfg.d, g') == NextSend(cfg.d, g) && g'.tick == g.tick)
  }

  lemma GuestRecorded(cfg: Config, s: System, s': System, out: seq<Frame>)
    requires Recorded(cfg, s) && s'.host == s.host && s'.bad == s.bad && s'.up == s.up + out
    requires Continued(cfg, s.guest, s'.guest, s.host.tx.starts, s.bad)
    requires Compared(s'.guest) && NoFalseAlarm(s'.guest, s.bad) && OneCompares(s.host, s'.guest)
    requires s.bad == {} ==> !s'.guest.pend && out == []
    ensures Recorded(cfg, s')
  {
    assert Agreeing(cfg, s'.host, s'.guest, s.bad);
    assert Past(cfg.d, s'.guest) && HostPast(cfg.d, s'.host, s'.guest);
    assert s.bad == {} ==> s'.up == s.up;
  }

  lemma KeptContinues(cfg: Config, g: Con, g': Con, starts: map<Epoch, Sim>, bad: set<Epoch>)
    requires Traced(cfg, g, starts, bad) && Kept(g, g')
    ensures Continued(cfg, g, g', starts, bad)
  {
    TracedFrame(cfg, g, g', starts, bad);
  }

  lemma GuestHearsEnd(cfg: Config, s: System)
    requires cfg.d >= 1 && Inv(cfg.d, s) && Recorded(cfg, s) && s.down != [] && s.down[0].End?
    ensures var (g', out) := Receive(cfg.d, Guest, s.guest, End);
            && Continued(cfg, s.guest, g', s.host.tx.starts, s.bad) && out == []
            && Compared(g') && g'.alarms == s.guest.alarms && g'.seen == s.guest.seen
            && g'.compared == s.guest.compared && !g'.pend
  {
    var d, g := cfg.d, s.guest;
    SaneNext(d, false, g.rx, End);
    FoldKeeps(d, false, s.down[1..], Next(d, g.rx, End));
    GuestRebaseTraced(cfg, g, s.host.tx.starts, s.bad);
  }

  lemma GuestHearsContinued(cfg: Config, s: System)
    requires cfg.d >= 1 && Inv(cfg.d, s) && Recorded(cfg, s) && s.down != []
    ensures var (g', out) := Receive(cfg.d, Guest, s.guest, s.down[0]);
            && Continued(cfg, s.guest, g', s.host.tx.starts, s.bad)
            && Compared(g') && NoFalseAlarm(g', s.bad) && OneCompares(s.host, g')
            && (s.bad == {} ==> !g'.pend && out == [])
  {
    hide Local, HostOk, GuestOk, Bounds, Traced, ReportsTrue, Truthful, Past, HostPast, Receive, Next;
    var d, g, f := cfg.d, s.guest, s.down[0];
    var (g', out) := Receive(d, Guest, g, f);
    match f
    case Input(_, _, _) =>
      GuestOtherFrame(d, g, f);
      KeptContinues(cfg, g, g', s.host.tx.starts, s.bad);
    case Begin(_) =>
      GuestOtherFrame(d, g, f);
      KeptContinues(cfg, g, g', s.host.tx.starts, s.bad);
    case Crc(_, _, _) =>
      GuestHearsCrc(cfg, s);
      KeptContinues(cfg, g, g', s.host.tx.starts, s.bad);
    case Chunk(_, _) =>
      GuestAppliesChunk(cfg, g, f, s.host.tx.starts, s.bad);
    case End =>
      GuestHearsEnd(cfg, s);
  }

  lemma GuestHearsRecorded(cfg: Config, s: System)
    requires cfg.d >= 1 && Inv(cfg.d, s) && Recorded(cfg, s) && Ready(s, Guest)
    ensures Recorded(cfg, Deliver(cfg.d, s, Guest))
  {
    var (g', out) := Receive(cfg.d, Guest, s.guest, s.down[0]);
    GuestHearsContinued(cfg, s);
    GuestRecorded(cfg, s, Deliver(cfg.d, s, Guest), out);
  }

  // ---- capture -----------------------------------------------------------

  /** A cell sent for a tick nobody has played leaves what was read alone. */
  lemma TruthfulExtends(c: Con, log0: map<At, Cell>, log1: map<At, Cell>, k: At, cell: Cell)
    requires Truthful(c, log0, log1)
    requires forall j :: j in c.used && j.ep == k.ep ==> j.t < k.t
    ensures Truthful(c, log0[k := cell], log1) && Truthful(c, log0, log1[k := cell])
  {
  }

  lemma CaptureKeeps(d: nat, c: Con, cell: Cell)
    requires d >= 1
    ensures var (c', out) := Capture(d, c, cell);
            && c'.used == c.used && c'.sims == c.sims && c'.sim == c.sim && c'.ep == c.ep && c'.tick == c.tick
            && c'.tx.log == c.tx.log[At(c.ep, c.tick + d) := cell] && c'.tx.crcs == c.tx.crcs
            && c'.tx.starts == c.tx.starts && c'.rx == c.rx && c'.pend == c.pend
            && c'.seen == c.seen && c'.compared == c.compared && c'.alarms == c.alarms
            && out == [Input(c.ep, c.tick + d, cell)]
            && (!c.gate ==> NextSend(d, c') == NextSend(d, c) + 1)
  {
  }

  lemma HostCapturesRecorded(cfg: Config, s: System, cell: Cell)
    requires cfg.d >= 1 && Inv(cfg.d, s) && Recorded(cfg, s) && !s.host.gate
    ensures Recorded(cfg, Emit(s, Host, Capture(cfg.d, s.host, cell)))
  {
    var d, h, g := cfg.d, s.host, s.guest;
    hide Traced, Truthful, ReportsTrue, Past, HostPast, Compared, NoFalseAlarm, OneCompares, Undisturbed, Inv, Capture;
    var (h', out) := Capture(d, h, cell);
    var k := At(h.ep, h.tick + d);
    CaptureKeeps(d, h, cell);
    HostSendsAhead(d, s);
    TruthfulExtends(h, h.tx.log, g.tx.log, k, cell);
    TruthfulExtends(g, h.tx.log, g.tx.log, k, cell);
    TracedFrame(cfg, h, h', h.tx.starts, s.bad);
    HostCapturedKeeps(d, h, g, h', s.bad);
    TruthfulKeeps(h, h', h'.tx.log, g.tx.log);
    HostUndisturbed(s, Emit(s, Host, (h', out)));
  }

  /** What the host is about to send is for a tick neither has played. */
  lemma HostSendsAhead(d: nat, s: System)
    requires d >= 1 && Inv(d, s) && Past(d, s.host) && Past(d, s.guest) && !s.host.gate
    ensures forall j :: j in s.host.used && j.ep == s.host.ep ==> j.t < s.host.tick + d
    ensures forall j :: j in s.guest.used && j.ep == s.host.ep ==> j.t < s.host.tick + d
  {
    StandApart(d, s);
    hide Linked, Bounds, HostOk, GuestOk;
  }

  lemma HostCapturedKeeps(d: nat, h: Con, g: Con, h': Con, bad: set<Epoch>)
    requires h'.used == h.used && h'.sims == h.sims && h'.ep == h.ep && h'.tick == h.tick && h'.tx.crcs == h.tx.crcs
    requires h'.rx == h.rx && h'.seen == h.seen && h'.compared == h.compared && h'.alarms == h.alarms
    ensures Past(d, h) ==> Past(d, h')
    ensures HostPast(d, h, g) ==> HostPast(d, h', g)
    ensures ReportsTrue(h) ==> ReportsTrue(h')
    ensures Compared(h) ==> Compared(h')
    ensures NoFalseAlarm(h, bad) ==> NoFalseAlarm(h', bad)
    ensures OneCompares(h, g) ==> OneCompares(h', g)
  {
    hide NextSend;
  }

  lemma HostUndisturbed(s: System, s': System)
    requires Undisturbed(s) && s'.bad == s.bad && s'.guest == s.guest && s'.up == s.up
    requires s'.host.pend == s.host.pend && s'.host.ep == s.host.ep
    ensures Undisturbed(s')
  {
  }

  lemma GuestCapturesRecorded(cfg: Config, s: System, cell: Cell)
    requires cfg.d >= 1 && Inv(cfg.d, s) && Recorded(cfg, s) && !s.guest.gate
    ensures Recorded(cfg, Emit(s, Guest, Capture(cfg.d, s.guest, cell)))
  {
    var d, h, g := cfg.d, s.host, s.guest;
    hide Traced, Truthful, ReportsTrue, Past, HostPast, Compared, NoFalseAlarm, OneCompares, Undisturbed, Inv, Capture;
    var (g', out) := Capture(d, g, cell);
    var k := At(g.ep, g.tick + d);
    CaptureKeeps(d, g, cell);
    GuestSendsAhead(d, h, g);
    TruthfulExtends(h, h.tx.log, g.tx.log, k, cell);
    TruthfulExtends(g, h.tx.log, g.tx.log, k, cell);
    TracedFrame(cfg, g, g', h.tx.starts, s.bad);
    CapturedKeeps(d, h, g, g', s.bad);
    TruthfulKeeps(g, g', h.tx.log, g'.tx.log);
    UndisturbedOn(s, Emit(s, Guest, (g', out)), out);
  }

  /** What the guest is about to send is for a tick neither has played. */
  lemma GuestSendsAhead(d: nat, h: Con, g: Con)
    requires d >= 1 && Past(d, g) && HostPast(d, h, g) && !g.gate
    ensures forall j :: j in g.used && j.ep == g.ep ==> j.t < g.tick + d
    ensures forall j :: j in h.used && j.ep == g.ep ==> j.t < g.tick + d
  {
  }

  lemma TruthfulKeeps(c: Con, c': Con, log0: map<At, Cell>, log1: map<At, Cell>)
    requires Truthful(c, log0, log1) && c'.used == c.used
    ensures Truthful(c', log0, log1)
  {
  }

  lemma CapturedKeeps(d: nat, h: Con, g: Con, g': Con, bad: set<Epoch>)
    requires g'.used == g.used && g'.sims == g.sims && g'.ep == g.ep && g'.tick == g.tick && g'.tx.crcs == g.tx.crcs
    requires g'.rx == g.rx && g'.seen == g.seen && g'.compared == g.compared && g'.alarms == g.alarms
    requires NextSend(d, g) <= NextSend(d, g')
    ensures Past(d, g) ==> Past(d, g')
    ensures HostPast(d, h, g) ==> HostPast(d, h, g')
    ensures ReportsTrue(g) ==> ReportsTrue(g')
    ensures Compared(g) ==> Compared(g')
    ensures NoFalseAlarm(g, bad) ==> NoFalseAlarm(g', bad)
    ensures OneCompares(h, g) ==> OneCompares(h, g')
  {
    hide NextSend;
  }

  lemma UndisturbedOn(s: System, s': System, out: seq<Frame>)
    requires Undisturbed(s) && s'.bad == s.bad && s'.host == s.host && s'.guest.pend == s.guest.pend
    requires s'.up == s.up + out && forall j :: 0 <= j < |out| ==> !out[j].Req?
    ensures Undisturbed(s')
  {
    assert forall i :: 0 <= i < |s'.up| ==> s'.up[i] == if i < |s.up| then s.up[i] else out[i - |s.up|];
  }

  // ---- play --------------------------------------------------------------

  /** The cells a console reads at an open gate are the ones sent. */
  lemma ReadsTruth(d: nat, up: bool, c: Con, ch: seq<Frame>, peer: map<At, Cell>, t: int)
    requires d >= 1 && Local(d, c) && Chain(d, up, ch, c.rx) && Fold(d, ch, c.rx).log == peer
    requires t <= Watermark(d, c)
    ensures Look(c.rx.log, c.ep, t) == Look(peer, c.ep, t)
  {
    FoldSettled(d, up, ch, c.rx, At(c.ep, t));
  }

  lemma ReadsAgree(d: nat, s: System, seat: Seat)
    requires d >= 1 && Inv(d, s) && Open(d, Get(s, seat))
    ensures var c := Get(s, seat);
            Reads(seat, c) == InputsAt(s.host.tx.log, s.guest.tx.log, c.ep, c.tick)
  {
    if seat == Host {
      ReadsTruth(d, true, s.host, s.up, s.guest.tx.log, s.host.tick);
      ReadsTruth(d, true, s.host, s.up, s.guest.tx.log, s.host.tick - 1);
    } else {
      ReadsTruth(d, false, s.guest, s.down, s.host.tx.log, s.guest.tick);
      ReadsTruth(d, false, s.guest, s.down, s.host.tx.log, s.guest.tick - 1);
    }
  }

  lemma PlayKeeps(cfg: Config, seat: Seat, c: Con)
    requires cfg.d >= 1
    ensures var (c', out) := Play(cfg, seat, c);
            var i := Reads(seat, c);
            var sim := cfg.cart(c.sim, i, Wrap(c.tick));
            && c'.used == c.used[At(c.ep, c.tick) := i] && c'.sim == sim
            && c'.sims == c.sims[At(c.ep, c.tick + 1) := sim]
            && c'.ep == c.ep && c'.tick == c.tick + 1 && !c'.gate && c'.pend == c.pend
            && c'.tx.log == c.tx.log && c'.tx.starts == c.tx.starts && c'.rx == c.rx
            && c'.seen == c.seen && c'.compared == c.compared && c'.alarms == c.alarms
            && (if c.tick % 64 == 0 then c'.tx.crcs == c.tx.crcs[At(c.ep, c.tick) := Checksum(sim)]
                else c'.tx.crcs == c.tx.crcs)
            && (forall j :: 0 <= j < |out| ==> out[j].Crc?)
  {
  }

  lemma PlayTraced(cfg: Config, seat: Seat, c: Con, starts: map<Epoch, Sim>, bad: set<Epoch>)
    requires cfg.d >= 1 && Traced(cfg, c, starts, bad) && !Partial(c) && Past(cfg.d, c) && c.ep.base <= c.tick
    ensures var (c', out) := Play(cfg, seat, c); Traced(cfg, c', starts, bad) && Past(cfg.d, c')
  {
    var (c', out) := Play(cfg, seat, c);
    PlayKeeps(cfg, seat, c);
    SoFar(cfg, c, starts, bad);
    forall k | k in c'.sims ensures Derived(cfg, c', starts, bad, k) {
      if k in c.sims {
        assert Derived(cfg, c, starts, bad, k);
      }
    }
  }

  lemma PlayReports(cfg: Config, seat: Seat, c: Con, starts: map<Epoch, Sim>, bad: set<Epoch>)
    requires cfg.d >= 1 && Traced(cfg, c, starts, bad) && ReportsTrue(c) && Compared(c)
    requires At(c.ep, c.tick) !in c.tx.crcs
    ensures var (c', out) := Play(cfg, seat, c); ReportsTrue(c') && Compared(c')
  {
    var (c', out) := Play(cfg, seat, c);
    PlayKeeps(cfg, seat, c);
    SoFar(cfg, c, starts, bad);
    ReportsAfterPlay(cfg, seat, c, c');
  }

  lemma ReportsAfterPlay(cfg: Config, seat: Seat, c: Con, c': Con)
    requires ReportsTrue(c) && Compared(c) && At(c.ep, c.tick) !in c.tx.crcs
    requires forall k :: k in c.sims ==> k != At(c.ep, c.tick + 1)
    requires c'.sims == c.sims[At(c.ep, c.tick + 1) := c'.sim]
    requires c'.tx.crcs == if c.tick % 64 == 0 then c.tx.crcs[At(c.ep, c.tick) := Checksum(c'.sim)] else c.tx.crcs
    requires c'.seen == c.seen && c'.compared == c.compared && c'.alarms == c.alarms && c'.rx == c.rx
    ensures ReportsTrue(c') && Compared(c')
  {
    hide Checksum;
  }

  lemma PlayTruthful(cfg: Config, seat: Seat, c: Con, log0: map<At, Cell>, log1: map<At, Cell>)
    requires cfg.d >= 1 && Truthful(c, log0, log1)
    requires Reads(seat, c) == InputsAt(log0, log1, c.ep, c.tick)
    ensures Truthful(Play(cfg, seat, c).0, log0, log1)
  {
    PlayKeeps(cfg, seat, c);
  }

  /** What the record needs to know of a console about to tick. */
  ghost predicate AboutToPlay(d: nat, seat: Seat, c: Con, log0: map<At, Cell>, log1: map<At, Cell>) {
    && c.ep.base <= c.tick && c.gate && !Partial(c) && At(c.ep, c.tick) !in c.tx.crcs
    && Reads(seat, c) == InputsAt(log0, log1, c.ep, c.tick)
  }

  lemma HostAboutToPlay(d: nat, s: System)
    requires d >= 1 && Inv(d, s) && s.host.gate && Open(d, s.host)
    ensures AboutToPlay(d, Host, s.host, s.host.tx.log, s.guest.tx.log)
    ensures s.host.ep == s.guest.ep ==> s.host.tick < NextSend(d, s.guest)
    ensures s.guest.ep.no < s.host.ep.no ==> s.host.tick < s.host.ep.base + d
  {
    StandApart(d, s);
    ReadsAgree(d, s, Host);
  }

  lemma GuestAboutToPlay(d: nat, s: System)
    requires d >= 1 && Inv(d, s) && s.guest.gate && Open(d, s.guest)
    ensures AboutToPlay(d, Guest, s.guest, s.host.tx.log, s.guest.tx.log)
  {
    ReadsAgree(d, s, Guest);
  }

  /** The player's own part of the record after its tick. */
  lemma PlayerRecorded(cfg: Config, seat: Seat, c: Con, log0: map<At, Cell>, log1: map<At, Cell>,
                       starts: map<Epoch, Sim>, bad: set<Epoch>)
    requires cfg.d >= 1 && AboutToPlay(cfg.d, seat, c, log0, log1)
    requires Truthful(c, log0, log1) && Past(cfg.d, c) && Traced(cfg, c, starts, bad)
    requires ReportsTrue(c) && Compared(c)
    ensures var c' := Play(cfg, seat, c).0;
            && Truthful(c', log0, log1) && Past(cfg.d, c') && Traced(cfg, c', starts, bad)
            && ReportsTrue(c') && Compared(c')
  {
    PlayTruthful(cfg, seat, c, log0, log1);
    PlayTraced(cfg, seat, c, starts, bad);
    PlayReports(cfg, seat, c, starts, bad);
  }

  lemma HostPastPlays(d: nat, h: Con, g: Con, h': Con, i: Inputs)
    requires HostPast(d, h, g) && h'.used == h.used[At(h.ep, h.tick) := i]
    requires h.ep == g.ep ==> h.tick < NextSend(d, g)
    requires g.ep.no < h.ep.no ==> h.tick < h.ep.base + d
    ensures HostPast(d, h', g)
  {
  }

  lemma HostPlaysRecorded(cfg: Config, s: System)
    requires cfg.d >= 1 && Inv(cfg.d, s) && Recorded(cfg, s) && s.host.gate && Open(cfg.d, s.host)
    ensures Recorded(cfg, Emit(s, Host, Play(cfg, Host, s.host)))
  {
    HostAboutToPlay(cfg.d, s);
    HostPlayRecorded(cfg, s);
  }

  lemma HostPlayRecorded(cfg: Config, s: System)
    requires cfg.d >= 1 && Recorded(cfg, s) && AboutToPlay(cfg.d, Host, s.host, s.host.tx.log, s.guest.tx.log)
    requires s.host.ep == s.guest.ep ==> s.host.tick < NextSend(cfg.d, s.guest)
    requires s.guest.ep.no < s.host.ep.no ==> s.host.tick < s.host.ep.base + cfg.d
    ensures Recorded(cfg, Emit(s, Host, Play(cfg, Host, s.host)))
  {
    var h, g := s.host, s.guest;
    var (h', out) := Play(cfg, Host, h);
    PlayKeeps(cfg, Host, h);
    hide Truthful, Past, HostPast, Traced, ReportsTrue, Compared, Play, Reads, NextSend, AboutToPlay;
    PlayerRecorded(cfg, Host, h, h.tx.log, g.tx.log, h.tx.starts, s.bad);
    HostPastPlays(cfg.d, h, g, h', Reads(Host, h));
    assert Agreeing(cfg, h', g, s.bad);
  }

  lemma GuestPlaysRecorded(cfg: Config, s: System)
    requires cfg.d >= 1 && Inv(cfg.d, s) && Recorded(cfg, s) && s.guest.gate && Open(cfg.d, s.guest)
    ensures Recorded(cfg, Emit(s, Guest, Play(cfg, Guest, s.guest)))
  {
    GuestAboutToPlay(cfg.d, s);
    GuestPlayRecorded(cfg, s);
  }

  /** Playing does not change which INPUT comes next. */
  lemma SendsNext(d: nat, seat: Seat, c: Con, c': Con, log0: map<At, Cell>, log1: map<At, Cell>)
    requires AboutToPlay(d, seat, c, log0, log1) && c'.tick == c.tick + 1 && !c'.gate
    ensures NextSend(d, c') == NextSend(d, c)
  {
  }

  lemma GuestPlayRecorded(cfg: Config, s: System)
    requires cfg.d >= 1 && Recorded(cfg, s) && AboutToPlay(cfg.d, Guest, s.guest, s.host.tx.log, s.guest.tx.log)
    ensures Recorded(cfg, Emit(s, Guest, Play(cfg, Guest, s.guest)))
  {
    hide Truthful, Past, Traced, ReportsTrue, Compared, Play, Reads, AboutToPlay;
    var h, g := s.host, s.guest;
    var (g', out) := Play(cfg, Guest, g);
    var s' := Emit(s, Guest, (g', out));
    PlayKeeps(cfg, Guest, g);
    SendsNext(cfg.d, Guest, g, g', h.tx.log, g.tx.log);
    assert HostPast(cfg.d, h, g');
    PlayerRecorded(cfg, Guest, g, h.tx.log, g.tx.log, h.tx.starts, s.bad);
    UndisturbedOn(s, s', out);
    assert Agreeing(cfg, h, g', s.bad);
  }

  // ---- push --------------------------------------------------------------

  lemma StartsExtend(cfg: Config, c: Con, starts: map<Epoch, Sim>, bad: set<Epoch>, next: Epoch, sim: Sim)
    requires Traced(cfg, c, starts, bad) && next !in starts
    ensures Traced(cfg, c, starts[next := sim], bad)
  {
    forall k | k in c.sims ensures Derived(cfg, c, starts[next := sim], bad, k) {
      assert Derived(cfg, c, starts, bad, k);
    }
  }

  lemma PushTraced(cfg: Config, h: Con, bad: set<Epoch>)
    requires cfg.d >= 1 && Local(cfg.d, h) && HostOk(cfg.d, h) && !h.gate && h.pend
    requires Traced(cfg, h, h.tx.starts, bad) && ReportsTrue(h)
    ensures var (h', out) := Push(cfg.d, h);
            Traced(cfg, h', h'.tx.starts, bad) && ReportsTrue(h')
  {
    var (h', out) := Push(cfg.d, h);
    PushKeeps(cfg.d, h);
    SoFar(cfg, h, h.tx.starts, bad);
    TracedAfterPush(cfg, h, h', bad);
  }

  lemma TracedAfterPush(cfg: Config, h: Con, h': Con, bad: set<Epoch>)
    requires Traced(cfg, h, h.tx.starts, bad) && ReportsTrue(h) && !Partial(h')
    requires forall k :: k in h.sims ==> k.ep.no <= h.ep.no
    requires h'.ep.no == h.ep.no + 1 && h'.tick == h'.ep.base && h'.ep !in h.tx.starts
    requires h'.sims == h.sims[At(h'.ep, h'.tick) := h'.sim] && h'.used == h.used && h'.tx.crcs == h.tx.crcs
    requires h'.tx.starts == h.tx.starts[h'.ep := h'.sim]
    ensures Traced(cfg, h', h'.tx.starts, bad) && ReportsTrue(h')
  {
    hide Checksum;
    forall k | k in h'.sims ensures Derived(cfg, h', h'.tx.starts, bad, k) {
      if k in h.sims {
        assert Derived(cfg, h, h.tx.starts, bad, k);
      }
    }
  }

  lemma HostPushesRecorded(cfg: Config, s: System)
    requires cfg.d >= 1 && Inv(cfg.d, s) && Recorded(cfg, s) && !s.host.gate && s.host.pend
    ensures Recorded(cfg, Emit(s, Host, Push(cfg.d, s.host)))
  {
    var d, h, g := cfg.d, s.host, s.guest;
    var (h', out) := Push(d, h);
    PushKeeps(d, h);
    PushTraced(cfg, h, s.bad);
    StartsExtend(cfg, g, h.tx.starts, s.bad, h'.ep, Clamp(h.sim));
    HostPushed(cfg, s, h', out);
  }

  lemma HostPushed(cfg: Config, s: System, h': Con, out: seq<Frame>)
    requires cfg.d >= 1 && Recorded(cfg, s)
    requires Traced(cfg, h', h'.tx.starts, s.bad) && ReportsTrue(h') && Traced(cfg, s.guest, h'.tx.starts, s.bad)
    requires h'.used == s.host.used && h'.tx.log == s.host.tx.log && h'.tx.crcs == s.host.tx.crcs
    requires h'.rx == s.host.rx && !h'.pend && s.host.pend && h'.ep.no == s.host.ep.no + 1
    requires h'.seen == s.host.seen && h'.compared == s.host.compared && h'.alarms == s.host.alarms
    ensures Recorded(cfg, Emit(s, Host, (h', out)))
  {
    hide Traced, ReportsTrue, InputsAt, Clamp;
    assert Agreeing(cfg, h', s.guest, s.bad);
    assert Past(cfg.d, h') && HostPast(cfg.d, h', s.guest);
  }

  lemma HostPendsRecorded(cfg: Config, s: System)
    requires cfg.d >= 1 && Inv(cfg.d, s) && Recorded(cfg, s) && !s.host.gate
    ensures Recorded(cfg, Emit(s, Host, Pending(cfg.d, Host, s.host)))
  {
    var h := s.host;
    PendingCases(cfg.d, h);
    if PushDue(h) {
      HostPushesRecorded(cfg, s);
    } else {
      assert s.down + [] == s.down;
      var h' := Pending(cfg.d, Host, h).0;
      assert Kept(h, h') && Kept(s.guest, s.guest);
      assert Compared(h');
      KeptRecorded(cfg, s, s.(host := h'));
    }
  }

  // ---- faults ------------------------------------------------------------

  lemma FaultTraced(cfg: Config, c: Con, starts: map<Epoch, Sim>, bad: set<Epoch>, more: set<Epoch>)
    requires Traced(cfg, c, starts, bad)
    ensures Traced(cfg, c, starts, bad + more)
    ensures Spoiled(c) <= more ==> forall sim: Sim :: Traced(cfg, c.(sim := sim), starts, bad + more)
  {
    forall k | k in c.sims ensures Derived(cfg, c, starts, bad + more, k) {
      assert Derived(cfg, c, starts, bad, k);
    }
    if Spoiled(c) <= more {
      assert c.ep in Spoiled(c);
      assert Partial(c) ==> c.rx.image.next in Spoiled(c);
      forall sim: Sim ensures Traced(cfg, c.(sim := sim), starts, bad + more) {
        var c' := c.(sim := sim);
        forall k | k in c'.sims ensures Derived(cfg, c', starts, bad + more, k) {
          assert Derived(cfg, c, starts, bad + more, k);
        }
      }
    }
  }

  lemma FaultRecorded(cfg: Config, s: System, seat: Seat, sim: Sim)
    requires cfg.d >= 1 && Recorded(cfg, s)
    ensures Recorded(cfg, Step(cfg, s, Fault(seat, sim)))
  {
    var s' := Step(cfg, s, Fault(seat, sim));
    var more := Spoiled(Get(s, seat));
    assert s.down + [] == s.down && s.up + [] == s.up;
    assert s'.bad == s.bad + more && Get(s, seat).ep in more;
    FaultTraced(cfg, s.host, s.host.tx.starts, s.bad, more);
    FaultTraced(cfg, s.guest, s.host.tx.starts, s.bad, more);
    assert Agreeing(cfg, s'.host, s'.guest, s'.bad);
  }
}
