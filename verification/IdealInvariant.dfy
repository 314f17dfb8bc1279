/** The invariant of the ideal protocol and its preservation by every step. */
module IdealInvariant {
  import opened Words
  import opened GameState
  import opened Wire
  import opened Ideal

  /** The tick the next INPUT will carry. */
  function NextSend(d: nat, c: Con): nat {
    c.tick + d + if c.gate then 1 else 0
  }

  /** The last INPUT tick sent in this epoch. */
  function Top(d: nat, c: Con): nat
    requires d >= 1
  {
    Mark(d, c.tx, c.ep).last
  }

  /** The 64-tick boundaries of this epoch this console has played. */
  predicate Reported(c: Con, t: int) {
    c.ep.base <= t < c.tick && t % 64 == 0
  }

  ghost predicate Local(d: nat, c: Con)
    requires d >= 1
  {
    && Sane(d, c.rx) && Sane(d, c.tx) && c.tx.image.NoImage?
    && c.ep.base <= c.tick <= Watermark(d, c) + 1
    && c.tx.ep.no <= c.ep.no && (c.tx.ep.no == c.ep.no ==> c.tx.ep == c.ep)
    && c.rx.ep.no <= c.ep.no && (c.rx.ep.no == c.ep.no ==> c.rx.ep == c.ep)
    && (Top(d, c) == NextSend(d, c) - 1
        || (Top(d, c) == FirstMark(d, c.ep) && NextSend(d, c) == c.ep.base + d + 1))
    && (forall t: int :: At(c.ep, t) in c.tx.crcs <==> Reported(c, t))
    && (forall k :: k in c.tx.crcs ==> k.ep.no < c.ep.no || k.ep == c.ep)
  }

  function Count(b: bool): nat {
    if b then 1 else 0
  }

  ghost predicate HostOk(d: nat, h: Con)
    requires d >= 1
  {
    && h.rx.image.NoImage?
    && h.tx.ep == h.ep && h.tx.last + 1 == NextSend(d, h)
    && (h.pend ==> h.ptmo < PEND_MAX)
    && h.ep.no + Count(h.pend) <= h.rx.ep.no + 1 + Count(h.rx.req)
    && (forall e :: e in h.tx.starts ==> e.no <= h.ep.no)
  }

  /** Some image bytes have been applied and the rebase has not happened. */
  predicate Partial(g: Con) {
    g.rx.image.Image? && g.rx.image.buf != []
  }

  ghost predicate GuestOk(d: nat, g: Con)
    requires d >= 1
  {
    && g.rx.ep == g.ep
    && (g.tx.ep == g.ep && g.tx.req ==> g.pend)
    && (g.gate && Partial(g) ==> !Open(d, g))
  }

  /** FIFO delivery, both ways. */
  ghost predicate Linked(d: nat, s: System)
    requires d >= 1
  {
    && Chain(d, false, s.down, s.guest.rx) && Fold(d, s.down, s.guest.rx) == s.host.tx
    && Chain(d, true, s.up, s.host.rx) && Fold(d, s.up, s.host.rx) == s.guest.tx
  }

  /** How far the host can have run ahead of an epoch that is `behind` pushes
      old, when it has heard nothing from the later ones. */
  function Slack(behind: int): int {
    31 * behind
  }

  ghost predicate NextOk(h: Epoch, next: Epoch) {
    h.base <= next.base + Slack(h.no - next.no)
  }

  /** A frame of a dead epoch on its way to the host: just below the host's
      resume tick. */
  ghost predicate StaleOk(d: nat, h: Epoch, f: Frame) {
    && (f.Input? && f.ep.no < h.no ==>
          f.t < h.base + d && h.base <= f.t + 17 + Slack(h.no - f.ep.no))
    && (f.Crc? && f.ep.no < h.no ==>
          f.t < h.base && h.base <= f.t + d + 17 + Slack(h.no - f.ep.no))
  }

  ghost predicate Bounds(d: nat, s: System) {
    var h := s.host.ep;
    && (forall i :: 0 <= i < |s.down| && s.down[i].Begin? ==> NextOk(h, s.down[i].next))
    && (s.guest.rx.image.Image? ==> NextOk(h, s.guest.rx.image.next))
    && (s.guest.ep.no < h.no ==> h.base <= s.guest.tick + d + 17 + Slack(h.no - s.guest.ep.no))
    && (forall i :: 0 <= i < |s.up| ==> StaleOk(d, h, s.up[i]))
  }

  ghost predicate Inv(d: nat, s: System)
    requires d >= 1
  {
    && Local(d, s.host) && Local(d, s.guest)
    && HostOk(d, s.host) && GuestOk(d, s.guest)
    && Linked(d, s)
    && Bounds(d, s)
  }

  /** Where the two consoles stand relative to each other. */
  ghost predicate Apart(d: nat, h: Con, g: Con)
    requires d >= 1
  {
    && g.ep.no <= h.ep.no <= g.ep.no + 2
    && h.rx.ep.no <= g.ep.no
    && (g.ep.no == h.ep.no ==> g.ep == h.ep && Watermark(d, h) < NextSend(d, g) && Watermark(d, g) < NextSend(d, h)
                               && g.rx.image.NoImage?)
    && (g.ep.no < h.ep.no ==> Watermark(d, g) + 17 <= h.ep.base + d)
    && (h.rx.ep.no < h.ep.no ==> Watermark(d, h) < h.ep.base + d)
  }

  lemma StandApart(d: nat, s: System)
    requires d >= 1 && Inv(d, s)
    ensures Apart(d, s.host, s.guest)
  {
    var h, g := s.host, s.guest;
    FoldForward(d, false, s.down, g.rx);
    FoldForward(d, true, s.up, h.rx);
    if g.rx.image.Image? {
      FoldImage(d, false, s.down, g.rx);
    }
  }

  lemma Between2(d: nat, s: System)
    requires d >= 1 && Inv(d, s)
    ensures forall i :: 0 <= i < |s.up| ==> Between(d, s.host.rx, s.up[i], s.guest.tx)
    ensures forall i :: 0 <= i < |s.down| ==> Between(d, s.guest.rx, s.down[i], s.host.tx)
  {
    forall i | 0 <= i < |s.up| ensures Between(d, s.host.rx, s.up[i], s.guest.tx) {
      InFlight(d, true, s.up, s.host.rx, i);
    }
    forall i | 0 <= i < |s.down| ensures Between(d, s.guest.rx, s.down[i], s.host.tx) {
      InFlight(d, false, s.down, s.guest.rx, i);
    }
  }

  lemma StartInv(cfg: Config, sim: Sim)
    requires Legal(cfg)
    ensures Inv(cfg.d, Start(cfg, sim))
  {
  }

  // ---- delivery ----------------------------------------------------------

  /** What a report can change of the flags and the sent wire. */
  lemma CrcResult(d: nat, seat: Seat, c: Con, ep: Epoch, t: nat, crc: word)
    requires d >= 1
    ensures var (c', out) := ReceiveCrc(d, seat, c, ep, t, crc);
            var alarm := Attends(c, ep) && Differs(c, At(ep, t), crc);
            && c'.ep == c.ep && c'.tick == c.tick && c'.gate == c.gate && c'.rx == c.rx
            && c'.pend == (c.pend || alarm) && c'.ptmo == (if alarm then 0 else c.ptmo)
            && out == (if alarm && seat == Guest then [Req(c.ep, t)] else [])
            && c'.tx == (if alarm && seat == Guest then Next(d, c.tx, Req(c.ep, t)) else c.tx)
  {
    hide Next;
  }

  lemma HostCrcFields(d: nat, h: Con, ep: Epoch, t: nat, crc: word)
    requires d >= 1
    ensures var f := Crc(ep, t, crc);
            var (h', out) := Receive(d, Host, h, f);
            && out == [] && h'.tx == h.tx && h'.ep == h.ep && h'.tick == h.tick && h'.gate == h.gate
            && h'.rx == Next(d, h.rx, f)
            && ((h'.pend == h.pend && h'.ptmo == h.ptmo)
                || (h'.pend && !h.pend && h'.ptmo == 0 && ep == h.ep))
  {
    var c1 := h.(rx := Next(d, h.rx, Crc(ep, t, crc)));
    CrcResult(d, Host, c1, ep, t, crc);
    hide ReceiveCrc, Next;
  }

  /** The host's fields after a frame, whatever it was. */
  lemma HostFields(d: nat, h: Con, f: Frame)
    requires d >= 1 && Admissible(d, true, h.rx, f)
    ensures var (h', out) := Receive(d, Host, h, f);
            && out == [] && h'.tx == h.tx && h'.ep == h.ep && h'.tick == h.tick && h'.gate == h.gate
            && h'.rx == Next(d, h.rx, f)
            && ((h'.pend == h.pend && h'.ptmo == h.ptmo)
                || (h'.pend && !h.pend && h'.ptmo == 0 && (f.Req? || (f.Crc? && f.ep == h.ep))))
            && (f.Req? && !Hold(h) ==> h'.pend)
  {
    if f.Crc? {
      HostCrcFields(d, h, f.ep, f.t, f.crc);
    }
    hide Next, ReceiveCrc;
  }

  lemma HostReceives(d: nat, h: Con, f: Frame)
    requires d >= 1 && Local(d, h) && HostOk(d, h) && Admissible(d, true, h.rx, f)
    requires f.ep.no <= h.ep.no && (f.ep.no == h.ep.no ==> f.ep == h.ep)
    ensures var (h', out) := Receive(d, Host, h, f);
            && out == [] && h'.tx == h.tx && h'.ep == h.ep && h'.tick == h.tick && h'.gate == h.gate
            && h'.rx == Next(d, h.rx, f)
            && Local(d, h') && HostOk(d, h')
  {
    var (h', out) := Receive(d, Host, h, f);
    SaneNext(d, true, h.rx, f);
    HostFields(d, h, f);
    hide Receive;
    assert Watermark(d, h) <= Watermark(d, h');
  }

  lemma BoundsAfterHostHears(d: nat, s: System, s': System)
    requires Bounds(d, s) && s.up != []
    requires s'.host.ep == s.host.ep && s'.guest == s.guest && s'.down == s.down && s'.up == s.up[1..]
    ensures Bounds(d, s')
  {
    forall i | 0 <= i < |s'.up| ensures StaleOk(d, s'.host.ep, s'.up[i]) {
      assert s'.up[i] == s.up[i + 1];
    }
  }

  lemma HeadOfUp(d: nat, s: System)
    requires d >= 1 && Inv(d, s) && s.up != []
    ensures var f := s.up[0];
            && Admissible(d, true, s.host.rx, f)
            && f.ep.no <= s.host.ep.no && (f.ep.no == s.host.ep.no ==> f.ep == s.host.ep)
  {
    StandApart(d, s);
    InFlightHead(d, true, s.up, s.host.rx);
  }

  lemma LinkedAfterHostHears(d: nat, s: System, s': System)
    requires d >= 1 && Linked(d, s) && s.up != []
    requires s'.host.rx == Next(d, s.host.rx, s.up[0]) && s'.host.tx == s.host.tx
    requires s'.guest == s.guest && s'.down == s.down && s'.up == s.up[1..]
    ensures Linked(d, s')
  {
  }

  lemma HostHears(d: nat, s: System)
    requires d >= 1 && Inv(d, s) && Ready(s, Host)
    ensures Inv(d, Deliver(d, s, Host))
  {
    var f := s.up[0];
    var (h', out) := Receive(d, Host, s.host, f);
    HeadOfUp(d, s);
    HostReceives(d, s.host, f);
    var s' := s.(host := h', up := s.up[1..], upAcc := s.upAcc - Size(f));
    assert Deliver(d, s, Host) == s' by { assert s.down + out == s.down; }
    BoundsAfterHostHears(d, s, s');
    LinkedAfterHostHears(d, s, s');
  }

  /** A checksum, with the request the guest may answer it with. */
  lemma GuestComparesCrc(d: nat, g: Con, ep: Epoch, t: nat, crc: word)
    requires d >= 1 && Local(d, g) && GuestOk(d, g)
    ensures var (g', out) := ReceiveCrc(d, Guest, g, ep, t, crc);
            && Local(d, g') && GuestOk(d, g')
            && Chain(d, true, out, g.tx) && Fold(d, out, g.tx) == g'.tx
            && (forall i :: 0 <= i < |out| ==> out[i].Req?)
            && g'.rx == g.rx && g'.ep == g.ep && g'.tick == g.tick && g'.gate == g.gate
  {
    CrcResult(d, Guest, g, ep, t, crc);
    var (g', out) := ReceiveCrc(d, Guest, g, ep, t, crc);
    if out != [] {
      RequestOnWire(d, g, t);
    }
    hide ReceiveCrc, Chain, Fold, Admissible, Next;
  }

  lemma RequestOnWire(d: nat, g: Con, t: nat)
    requires d >= 1 && Local(d, g) && GuestOk(d, g) && !g.pend
    ensures var f := Req(g.ep, t);
            var n := Next(d, g.tx, f);
            && Chain(d, true, [f], g.tx) && Fold(d, [f], g.tx) == n && Sane(d, n)
            && n.crcs == g.tx.crcs && n.image == g.tx.image && n.ep == g.ep && n.req
            && n.last == Mark(d, g.tx, g.ep).last && n.log == g.tx.log
  {
    var f := Req(g.ep, t);
    SaneNext(d, true, g.tx, f);
    assert [f][1..] == [];
  }

  lemma GuestRebases(d: nat, g: Con)
    requires d >= 1 && Local(d, g) && GuestOk(d, g) && Admissible(d, false, g.rx, End)
    ensures var (g', out) := Receive(d, Guest, g, End);
            && out == [] && Local(d, g') && GuestOk(d, g')
            && g'.rx == Next(d, g.rx, End) && g'.tx == g.tx && g'.rx.image.NoImage?
            && g'.ep == g.rx.image.next && g'.tick == g'.ep.base && g'.gate == g.gate
  {
    SaneNext(d, false, g.rx, End);
    var (g', out) := Receive(d, Guest, g, End);
    assert g'.rx == Next(d, g.rx, End);
    forall t: int ensures At(g'.ep, t) in g'.tx.crcs <==> Reported(g', t) {
    }
  }

  lemma GuestReceives(d: nat, g: Con, f: Frame)
    requires d >= 1 && Local(d, g) && GuestOk(d, g) && Admissible(d, false, g.rx, f)
    requires g.gate && f.Chunk? && f.pos == 0 ==> !Open(d, g)
    ensures var (g', out) := Receive(d, Guest, g, f);
            && g'.rx == Next(d, g.rx, f) && g'.gate == g.gate
            && Local(d, g') && GuestOk(d, g')
            && Chain(d, true, out, g.tx) && Fold(d, out, g.tx) == g'.tx
            && (forall i :: 0 <= i < |out| ==> out[i].Req?)
            && (if f.End? then g'.ep == g.rx.image.next && g'.tick == g'.ep.base && g'.rx.image.NoImage?
                else g'.ep == g.ep && g'.tick == g.tick)
  {
    var c1 := g.(rx := Next(d, g.rx, f));
    SaneNext(d, false, g.rx, f);
    match f
    case Input(_, _, _) => hide ReceiveCrc;
    case Crc(ep, t, crc) =>
      assert c1.rx.(crcs := g.rx.crcs) == g.rx;
      assert Local(d, c1) && GuestOk(d, c1);
      GuestComparesCrc(d, c1, ep, t, crc);
    case Begin(_) =>
    case Chunk(_, _) =>
    case End => GuestRebases(d, g);
  }

  lemma BoundsAfterGuestHears(d: nat, s: System, s': System, out: seq<Frame>)
    requires d >= 1 && Inv(d, s) && s.down != []
    requires s'.host == s.host && s'.down == s.down[1..] && s'.up == s.up + out
    requires forall i :: 0 <= i < |out| ==> out[i].Req?
    requires s'.guest.rx == Next(d, s.guest.rx, s.down[0])
    requires if s.down[0].End? then
               s'.guest.ep == s.guest.rx.image.next && s'.guest.tick == s'.guest.ep.base
               && s'.guest.rx.image.NoImage?
             else s'.guest.ep == s.guest.ep && s'.guest.tick == s.guest.tick
    ensures Bounds(d, s')
  {
    forall i | 0 <= i < |s'.down| && s'.down[i].Begin? ensures NextOk(s.host.ep, s'.down[i].next) {
      assert s'.down[i] == s.down[i + 1];
    }
    forall i | 0 <= i < |s'.up| ensures StaleOk(d, s.host.ep, s'.up[i]) {
      assert i < |s.up| ==> s'.up[i] == s.up[i];
    }
  }

  lemma GuestHears(d: nat, s: System)
    requires d >= 1 && Inv(d, s) && Ready(s, Guest)
    requires s.guest.gate && s.down[0].Chunk? && s.down[0].pos == 0 ==> !Open(d, s.guest)
    ensures Inv(d, Deliver(d, s, Guest))
  {
    var f := s.down[0];
    var (g', out) := Receive(d, Guest, s.guest, f);
    GuestReceives(d, s.guest, f);
    Extend(d, true, s.up, out, s.host.rx);
    var s' := s.(guest := g', down := s.down[1..], downAcc := s.downAcc - Size(f), up := s.up + out);
    assert Deliver(d, s, Guest) == s';
    BoundsAfterGuestHears(d, s, s', out);
    assert Linked(d, s');
  }

  // ---- capture -----------------------------------------------------------

  lemma SelfCaptures(d: nat, up: bool, c: Con, cell: Cell)
    requires d >= 1 && Local(d, c) && !c.gate
    requires !up ==> c.tx.ep == c.ep && c.tx.last + 1 == NextSend(d, c)
    ensures var (c', out) := Capture(d, c, cell);
            && Local(d, c') && c'.rx == c.rx && c'.ep == c.ep && c'.tick == c.tick
            && Chain(d, up, out, c.tx) && Fold(d, out, c.tx) == c'.tx
            && c'.tx.ep == c.ep && c'.tx.last == c.tick + d
            && (c.tx.ep == c.ep ==> c'.tx.req == c.tx.req) && (c.tx.ep != c.ep ==> !c'.tx.req)
            && c'.tx.starts == c.tx.starts
  {
    var (c', out) := Capture(d, c, cell);
    var f := out[0];
    assert out[1..] == [];
    assert Admissible(d, up, c.tx, f);
    SaneNext(d, up, c.tx, f);
    assert Chain(d, up, out[1..], c'.tx) && Fold(d, out[1..], c'.tx) == c'.tx;
  }

  lemma HostCaptures(d: nat, s: System, cell: Cell)
    requires d >= 1 && Inv(d, s) && !s.host.gate
    ensures Inv(d, Emit(s, Host, Capture(d, s.host, cell)))
  {
    var (h', out) := Capture(d, s.host, cell);
    SelfCaptures(d, false, s.host, cell);
    Extend(d, false, s.down, out, s.guest.rx);
  }

  lemma GuestCaptures(d: nat, s: System, cell: Cell)
    requires d >= 1 && Inv(d, s) && !s.guest.gate && !Partial(s.guest)
    requires d <= 15 || s.host.ep.no == 0
    ensures Inv(d, Emit(s, Guest, Capture(d, s.guest, cell)))
  {
    var (g', out) := Capture(d, s.guest, cell);
    StandApart(d, s);
    SelfCaptures(d, true, s.guest, cell);
    Extend(d, true, s.up, out, s.host.rx);
    assert StaleOk(d, s.host.ep, out[0]);
  }

  // ---- the game tick -----------------------------------------------------

  lemma SelfPlays(cfg: Config, seat: Seat, c: Con)
    requires cfg.d >= 1 && Local(cfg.d, c) && c.gate && Open(cfg.d, c)
    requires seat == Host ==> c.tx.ep == c.ep && c.tx.last + 1 == NextSend(cfg.d, c)
    ensures var (c', out) := Play(cfg, seat, c);
            && Local(cfg.d, c') && c'.rx == c.rx && c'.ep == c.ep && c'.tick == c.tick + 1 && !c'.gate
            && Chain(cfg.d, seat == Guest, out, c.tx) && Fold(cfg.d, out, c.tx) == c'.tx
            && (c.tx.ep == c.ep ==> c'.tx.ep == c.ep && c'.tx.last == c.tx.last && c'.tx.req == c.tx.req)
            && (c.tx.ep != c.ep && c'.tx.ep == c.ep ==> !c'.tx.req)
            && c'.tx.starts == c.tx.starts
            && (forall i :: 0 <= i < |out| ==> out[i].Crc? && out[i].ep == c.ep && out[i].t == c.tick)
  {
    hide Reads, Checksum, Chain, Fold, Admissible;
    var (c', out) := Play(cfg, seat, c);
    if out != [] {
      ReportOnWire(cfg.d, seat == Guest, c, out[0].crc);
      assert out == [out[0]];
    } else {
      NothingOnWire(cfg.d, seat == Guest, c.tx);
    }
    forall t: int ensures At(c'.ep, t) in c'.tx.crcs <==> Reported(c', t) {
      assert At(c.ep, t) in c.tx.crcs <==> Reported(c, t);
    }
  }

  lemma NothingOnWire(d: nat, up: bool, w: Wire)
    requires d >= 1
    ensures Chain(d, up, [], w) && Fold(d, [], w) == w
  {
  }

  /** A report of the tick behind an open gate is one its wire can carry. */
  lemma ReportOnWire(d: nat, up: bool, c: Con, crc: word)
    requires d >= 1 && Local(d, c) && c.gate && Open(d, c) && c.tick % 64 == 0
    requires !up ==> c.tx.ep == c.ep && c.tx.last + 1 == NextSend(d, c)
    ensures var f := Crc(c.ep, c.tick, crc);
            && Chain(d, up, [f], c.tx) && Fold(d, [f], c.tx) == Next(d, c.tx, f) && Sane(d, Next(d, c.tx, f))
  {
    var f := Crc(c.ep, c.tick, crc);
    assert At(c.ep, c.tick) !in c.tx.crcs;
    assert Admissible(d, up, c.tx, f);
    SaneNext(d, up, c.tx, f);
    assert [f][1..] == [];
  }

  lemma HostPlays(cfg: Config, s: System)
    requires cfg.d >= 1 && Inv(cfg.d, s) && s.host.gate && Open(cfg.d, s.host)
    ensures Inv(cfg.d, Emit(s, Host, Play(cfg, Host, s.host)))
  {
    var (h', out) := Play(cfg, Host, s.host);
    SelfPlays(cfg, Host, s.host);
    Extend(cfg.d, false, s.down, out, s.guest.rx);
  }

  lemma GuestPlays(cfg: Config, s: System)
    requires cfg.d >= 1 && Inv(cfg.d, s) && s.guest.gate && Open(cfg.d, s.guest)
    requires cfg.d <= 15 || s.host.ep.no == 0
    ensures Inv(cfg.d, Emit(s, Guest, Play(cfg, Guest, s.guest)))
  {
    hide Reads, Checksum, Local, Bounds, Chain, Fold;
    var (g', out) := Play(cfg, Guest, s.guest);
    var s' := Emit(s, Guest, (g', out));
    SelfPlays(cfg, Guest, s.guest);
    GuestReportStale(cfg, s, out);
    Extend(cfg.d, true, s.up, out, s.host.rx);
    BoundsAfterGuestPlays(cfg.d, s, s', out);
    assert Linked(cfg.d, s');
  }

  /** What the guest reports of a tick is already as stale as the bounds allow. */
  lemma GuestReportStale(cfg: Config, s: System, out: seq<Frame>)
    requires cfg.d >= 1 && Inv(cfg.d, s) && Open(cfg.d, s.guest) && (cfg.d <= 15 || s.host.ep.no == 0)
    requires forall i :: 0 <= i < |out| ==> out[i].Crc? && out[i].ep == s.guest.ep && out[i].t == s.guest.tick
    ensures forall i :: 0 <= i < |out| ==> StaleOk(cfg.d, s.host.ep, out[i])
  {
    StandApart(cfg.d, s);
    assert Bounds(cfg.d, s);
    hide Local, HostOk, GuestOk, Linked;
  }

  lemma BoundsAfterGuestPlays(d: nat, s: System, s': System, out: seq<Frame>)
    requires Bounds(d, s) && s'.host == s.host && s'.down == s.down && s'.up == s.up + out
    requires s'.guest.rx == s.guest.rx && s'.guest.ep == s.guest.ep && s.guest.tick <= s'.guest.tick
    requires forall i :: 0 <= i < |out| ==> StaleOk(d, s.host.ep, out[i])
    ensures Bounds(d, s')
  {
    hide StaleOk;
    forall i | 0 <= i < |s'.up| ensures StaleOk(d, s.host.ep, s'.up[i]) {
      assert s'.up[i] == if i < |s.up| then s.up[i] else out[i - |s.up|];
    }
  }

  // ---- the push ----------------------------------------------------------

  /** The chunks of a state, put on a wire that has its first pos bytes. */
  lemma {:induction false} ChunksOnWire(d: nat, s: Sim, pos: nat, w: Wire)
    requires d >= 1 && pos <= IMG_TOTAL
    requires w.image.Image? && w.image.buf == s[..pos]
    ensures Chain(d, false, Chunks(s, pos), w)
    ensures Fold(d, Chunks(s, pos), w)
            == w.(ep := w.image.next, last := FirstMark(d, w.image.next), req := false, image := NoImage,
                  starts := w.starts[w.image.next := Clamp(s)])
    decreases IMG_TOTAL - pos
  {
    if pos == IMG_TOTAL {
      assert s[..pos] == s;
      var fs: seq<Frame> := [End];
      assert fs[0] == End && fs[1..] == [];
    } else {
      var n := ChunkLen(pos);
      var f := Chunk(pos, s[pos..pos + n]);
      var rest := Chunks(s, pos + n);
      var w' := w.(image := Image(w.image.next, s[..pos + n]));
      assert s[..pos] + s[pos..pos + n] == s[..pos + n];
      assert Next(d, w, f) == w';
      ChunksOnWire(d, s, pos + n, w');
      assert Chunks(s, pos)[0] == f && Chunks(s, pos)[1..] == rest;
    }
  }

  lemma PushOnWire(d: nat, next: Epoch, s: Sim, w: Wire)
    requires d >= 1 && Admissible(d, false, w, Begin(next))
    ensures Chain(d, false, PushFrames(next, s), w)
    ensures Fold(d, PushFrames(next, s), w)
            == w.(ep := next, last := FirstMark(d, next), req := false, starts := w.starts[next := Clamp(s)])
  {
    var fs := PushFrames(next, s);
    assert fs[0] == Begin(next) && fs[1..] == Chunks(s, 0);
    ChunksOnWire(d, s, 0, Next(d, w, Begin(next)));
  }

  lemma {:induction false} ChunksHaveNoBegin(s: Sim, pos: nat)
    requires pos <= IMG_TOTAL
    ensures forall i :: 0 <= i < |Chunks(s, pos)| ==> !Chunks(s, pos)[i].Begin?
    decreases IMG_TOTAL - pos
  {
    if pos < IMG_TOTAL {
      ChunksHaveNoBegin(s, pos + ChunkLen(pos));
    }
  }

  lemma PushHasOneBegin(next: Epoch, s: Sim)
    ensures forall i :: 0 < i < |PushFrames(next, s)| ==> !PushFrames(next, s)[i].Begin?
  {
    ChunksHaveNoBegin(s, 0);
    var fs := PushFrames(next, s);
    assert forall i :: 0 < i < |fs| ==> fs[i] == Chunks(s, 0)[i - 1];
  }

  lemma PushKeeps(d: nat, h: Con)
    requires d >= 1 && Local(d, h) && HostOk(d, h) && !h.gate && h.pend
    ensures var (h', out) := Push(d, h);
            var next := Epoch(h.ep.no + 1, h.tick + 16);
            && h'.ep == next && h'.tick == next.base && !h'.pend && h'.sim == Clamp(h.sim)
            && Chain(d, false, out, h.tx) && Fold(d, out, h.tx) == h'.tx
            && h'.tx.last == FirstMark(d, next) && h'.tx.image.NoImage? && !h'.tx.req
            && h'.tx.ep == next && h'.gate == h.gate && h'.ptmo == 0 && out == PushFrames(next, h.sim)
            && h'.used == h.used && h'.sims == h.sims[At(next, next.base) := Clamp(h.sim)]
            && h'.tx.log == h.tx.log && h'.tx.crcs == h.tx.crcs && h'.rx == h.rx
            && h'.tx.starts == h.tx.starts[next := Clamp(h.sim)] && next !in h.tx.starts
            && h'.seen == h.seen && h'.compared == h.compared && h'.alarms == h.alarms
  {
    var next := Epoch(h.ep.no + 1, h.tick + 16);
    assert next !in h.tx.starts;
    PushOnWire(d, next, h.sim, h.tx);
  }

  lemma SelfPushes(d: nat, h: Con)
    requires d >= 1 && Local(d, h) && HostOk(d, h) && !h.gate && h.pend
    ensures var (h', out) := Push(d, h);
            && Local(d, h') && HostOk(d, h') && h'.rx == h.rx
            && h'.ep == Epoch(h.ep.no + 1, h.tick + 16) && out == PushFrames(h'.ep, h.sim)
            && Chain(d, false, out, h.tx) && Fold(d, out, h.tx) == h'.tx
  {
    PushKeeps(d, h);
    PushedOk(d, h, Push(d, h).0);
  }

  /** What rebasing to T+16 leaves of the host's invariant. */
  lemma PushedOk(d: nat, h: Con, h': Con)
    requires d >= 1 && Local(d, h) && HostOk(d, h) && !h.gate && h.pend
    requires h'.ep == Epoch(h.ep.no + 1, h.tick + 16) && h'.tick == h'.ep.base && !h'.gate && !h'.pend
    requires h'.rx == h.rx && h'.tx.crcs == h.tx.crcs && h'.tx.starts == h.tx.starts[h'.ep := Clamp(h.sim)]
    requires h'.tx.ep == h'.ep && h'.tx.last == FirstMark(d, h'.ep) && h'.tx.image.NoImage?
    ensures Local(d, h') && HostOk(d, h')
  {
    hide Clamp;
    forall t: int ensures At(h'.ep, t) in h'.tx.crcs <==> Reported(h', t) {
    }
  }

  /** After a push every frame and push still under way is as stale as the
      bounds allow. */
  lemma BoundsAfterPush(d: nat, s: System, h': Con, out: seq<Frame>)
    requires 1 <= d <= 15 && Inv(d, s) && !s.host.gate
    requires h'.ep == Epoch(s.host.ep.no + 1, s.host.tick + 16) && out == PushFrames(h'.ep, s.host.sim)
    ensures Bounds(d, Emit(s, Host, (h', out)))
  {
    var s' := Emit(s, Host, (h', out));
    StandApart(d, s);
    Between2(d, s);
    BeginsAfterPush(d, s, h', out);
    UpAfterPush(d, s, h'.ep);
    hide Chain, Fold, StaleOk, Between, PushFrames;
    assert s'.up == s.up;
  }

  lemma BeginsAfterPush(d: nat, s: System, h': Con, out: seq<Frame>)
    requires 1 <= d <= 15 && Inv(d, s) && !s.host.gate
    requires forall i :: 0 <= i < |s.down| ==> Between(d, s.guest.rx, s.down[i], s.host.tx)
    requires h'.ep == Epoch(s.host.ep.no + 1, s.host.tick + 16) && out == PushFrames(h'.ep, s.host.sim)
    ensures forall i :: 0 <= i < |s.down + out| && (s.down + out)[i].Begin? ==> NextOk(h'.ep, (s.down + out)[i].next)
  {
    hide Between, Local, Linked, Chunks, NextOk;
    PushHasOneBegin(h'.ep, s.host.sim);
    StandApart(d, s);
    forall i | 0 <= i < |s.down + out| && (s.down + out)[i].Begin? ensures NextOk(h'.ep, (s.down + out)[i].next) {
      if i < |s.down| {
        OldBegin(d, s, s.down[i]);
      } else {
        NewBegin(h'.ep);
      }
    }
  }

  lemma NewBegin(next: Epoch)
    ensures NextOk(next, next)
  {
  }

  lemma OldBegin(d: nat, s: System, f: Frame)
    requires 1 <= d <= 15 && Local(d, s.host) && !s.host.gate && s.guest.rx.ep == s.guest.ep && s.host.tx.ep == s.host.ep
    requires Apart(d, s.host, s.guest) && f.Begin? && Between(d, s.guest.rx, f, s.host.tx) && NextOk(s.host.ep, f.next)
    ensures NextOk(Epoch(s.host.ep.no + 1, s.host.tick + 16), f.next)
  {
  }

  lemma UpAfterPush(d: nat, s: System, next: Epoch)
    requires 1 <= d <= 15 && Inv(d, s) && !s.host.gate && Apart(d, s.host, s.guest)
    requires forall i :: 0 <= i < |s.up| ==> Between(d, s.host.rx, s.up[i], s.guest.tx)
    requires next == Epoch(s.host.ep.no + 1, s.host.tick + 16)
    ensures forall i :: 0 <= i < |s.up| ==> StaleOk(d, next, s.up[i])
  {
    hide Local, HostOk, GuestOk, Linked, StaleOk, Apart;
    forall i | 0 <= i < |s.up| ensures StaleOk(d, next, s.up[i]) {
      assert Between(d, s.host.rx, s.up[i], s.guest.tx);
      assert StaleOk(d, s.host.ep, s.up[i]);
      UpFrameAfterPush(d, s, s.up[i]);
    }
  }

  lemma UpFrameAfterPush(d: nat, s: System, f: Frame)
    requires 1 <= d <= 15 && Inv(d, s) && !s.host.gate && Apart(d, s.host, s.guest)
    requires Between(d, s.host.rx, f, s.guest.tx) && StaleOk(d, s.host.ep, f)
    ensures StaleOk(d, Epoch(s.host.ep.no + 1, s.host.tick + 16), f)
  {
    var h, g := s.host, s.guest;
    if Tagged(f) && f.ep.no == h.ep.no {
      assert f.ep == g.tx.ep == g.ep == h.ep;
      if f.Crc? {
        assert Reported(g, f.t);
      }
    }
  }

  lemma HostWaits(d: nat, s: System, ptmo: nat)
    requires d >= 1 && Inv(d, s) && ptmo < PEND_MAX
    ensures Inv(d, s.(host := s.host.(ptmo := ptmo)))
  {
    var s' := s.(host := s.host.(ptmo := ptmo));
    assert Local(d, s'.host) && HostOk(d, s'.host);
    assert Linked(d, s') && Bounds(d, s');
  }

  lemma HostPushes(d: nat, s: System)
    requires 1 <= d <= 15 && Inv(d, s) && !s.host.gate && s.host.pend
    ensures Inv(d, Emit(s, Host, Push(d, s.host)))
  {
    var (h', out) := Push(d, s.host);
    var s' := Emit(s, Host, (h', out));
    SelfPushes(d, s.host);
    Extend(d, false, s.down, out, s.guest.rx);
    assert Linked(d, s');
    BoundsAfterPush(d, s, h', out);
  }

  lemma PendingCases(d: nat, h: Con)
    requires d >= 1 && !Hold(h)
    ensures PushDue(h) ==> Pending(d, Host, h) == Push(d, h)
    ensures !PushDue(h) ==> Pending(d, Host, h) == (if h.pend then h.(ptmo := h.ptmo + 1) else h, [])
  {
    hide Push;
  }

  lemma HostPends(d: nat, s: System)
    requires d >= 1 && Inv(d, s) && !s.host.gate
    requires d <= 15 || !PushDue(s.host)
    ensures Inv(d, Emit(s, Host, Pending(d, Host, s.host)))
  {
    var h := s.host;
    PendingCases(d, h);
    if PushDue(h) {
      HostPushes(d, s);
    } else {
      assert s.down + [] == s.down;
      if h.pend {
        HostWaits(d, s, h.ptmo + 1);
        assert Emit(s, Host, (h.(ptmo := h.ptmo + 1), [])) == s.(host := h.(ptmo := h.ptmo + 1));
      } else {
        assert Emit(s, Host, (h, [])) == s;
      }
    }
  }
}
