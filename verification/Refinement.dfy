/** The 16-bit console refines the ideal protocol: step for step, on every
    run. */
module Refinement {
  import opened Words
  import opened GameState
  import opened Wire
  import opened Ideal
  import opened IdealInvariant
  import opened History
  import opened IdealRuns
  import opened Console16

  // ---- frames ------------------------------------------------------------

  /** What a frame looks like on the wire: 16-bit ticks and no epoch. */
  function Encode(seat: Seat, f: Frame): Frame16 {
    match f
    case Input(_, t, cell) => Input16(SeatNo(seat), Wrap(t), cell)
    case Crc(_, t, crc) => Crc16(SeatNo(seat), Wrap(t), crc)
    case Req(_, t) => Req16(Wrap(t))
    case Begin(next) => Begin16(Wrap(next.base))
    case Chunk(pos, data) => Chunk16(pos, data)
    case End => End16
  }

  function EncodeAll(seat: Seat, fs: seq<Frame>): (r: seq<Frame16>)
    ensures |r| == |fs|
    ensures forall i :: 0 <= i < |fs| ==> r[i] == Encode(seat, fs[i])
  {
    seq(|fs|, i requires 0 <= i < |fs| => Encode(seat, fs[i]))
  }

  lemma EncodeAppend(seat: Seat, a: seq<Frame>, b: seq<Frame>)
    ensures EncodeAll(seat, a + b) == EncodeAll(seat, a) + EncodeAll(seat, b)
  {
  }

  lemma EncodeTail(seat: Seat, a: seq<Frame>)
    requires a != []
    ensures EncodeAll(seat, a)[1..] == EncodeAll(seat, a[1..])
  {
  }

  lemma {:induction false} EncodeBytes(seat: Seat, a: seq<Frame>)
    ensures Bytes16(EncodeAll(seat, a)) == Bytes(a)
    decreases |a|
  {
    if a != [] {
      EncodeTail(seat, a);
      EncodeBytes(seat, a[1..]);
    }
  }

  // ---- consoles ----------------------------------------------------------

  /** The last 64-tick boundary before tick whose record lives in slot k. */
  function Latest(tick: nat, k: nat): int {
    tick - 1 - (tick - 1 - 64 * k) % 256
  }

  function Own(seat: Seat, c: Con16): Ring {
    if seat == Host then c.ring0 else c.ring1
  }

  function Other(seat: Seat, c: Con16): Ring {
    if seat == Host then c.ring1 else c.ring0
  }

  /** A ring holds the log of an epoch over a window of ticks. */
  ghost predicate RingShows(r: Ring, log: map<At, Cell>, ep: Epoch, lo: int, hi: int) {
    forall t: int :: lo <= t <= hi ==> r[t % 256] == Look(log, ep, t)
  }

  /** Slot k holds the report of tick Latest(tick, k), if this epoch played it. */
  predicate SlotShows(r: Records, crcs: map<At, word>, ep: Epoch, tick: nat, k: nat)
    requires k < 4
  {
    var t := Latest(tick, k);
    if ep.base <= t then At(ep, t) in crcs && r[k] == Rec(Wrap(t), crcs[At(ep, t)])
    else r[k] == NO_RECORD
  }

  ghost predicate RecordsShow(c: Con16, a: Con) {
    forall k: nat :: k < 4 ==> SlotShows(c.records, a.tx.crcs, a.ep, a.tick, k)
  }

  /** Logged ticks lie between the epoch's first INPUT and its mark. */
  ghost predicate LogOk(d: nat, w: Wire) {
    forall k :: k in w.log ==> k.ep.base + d <= k.t && (k.ep.no < w.ep.no || (k.ep == w.ep && k.t <= w.last))
  }

  ghost predicate Shows(d: nat, seat: Seat, a: Con, c: Con16)
    requires d >= 1
  {
    && c.tick == Wrap(a.tick) && c.gate == a.gate && c.pend == a.pend && c.ptmo == a.ptmo
    && c.sim == a.sim && c.hold == Hold(a)
    && (Hold(a) ==> c.resume == Wrap(a.rx.image.next.base))
    && c.wm == Wrap(Watermark(d, a))
    && LogOk(d, a.rx) && LogOk(d, a.tx)
    && RingShows(Own(seat, c), a.tx.log, a.ep, a.tick - 1, NextSend(d, a) - 1)
    && RingShows(Other(seat, c), a.rx.log, a.ep, a.tick - 1, Watermark(d, a))
    && (Watermark(d, a) == FirstMark(d, a.ep) ==> Other(seat, c) == IdleRing())
    && (!Hold(a) ==> RecordsShow(c, a))
  }

  ghost predicate Related(d: nat, s: System, t: System16)
    requires d >= 1
  {
    && Shows(d, Host, s.host, t.host) && Shows(d, Guest, s.guest, t.guest)
    && t.down == EncodeAll(Host, s.down) && t.up == EncodeAll(Guest, s.up)
    && t.downAcc == s.downAcc && t.upAcc == s.upAcc
  }

  lemma StartRelated(cfg: Config, sim: Sim)
    requires Legal(cfg)
    ensures Related(cfg.d, Start(cfg, sim), Start16(cfg, sim))
  {
    var s, t := Start(cfg, sim), Start16(cfg, sim);
    forall k: nat | k < 4 ensures SlotShows(NoRecords(), map[], Epoch(0, 0), 0, k) {
    }
    assert Shows(cfg.d, Host, s.host, t.host);
    assert Shows(cfg.d, Guest, s.guest, t.guest);
  }

  // ---- windows -----------------------------------------------------------

  /** The watermark stays within a ring's reach of the tick, and so does the
      next INPUT to be accepted. */
  ghost predicate Reach(d: nat, c: Con)
    requires d >= 1
  {
    c.tick - 1 <= Watermark(d, c) <= c.tick + 255
  }

  lemma WithinReach(cfg: Config, s: System)
    requires Legal(cfg) && Good(cfg, s) && Calm(cfg, s)
    ensures Reach(cfg.d, s.host) && Reach(cfg.d, s.guest)
  {
    StandApart(cfg.d, s);
  }

  /** What keeps the ring from being lapped at the largest delay: a console is
      given INPUTs at its gate only while the gate is closed, and one pump's bytes
      hold few of them. */
  ghost predicate Near(d: nat, s: System, seat: Seat)
    requires d >= 1
  {
    var c := Get(s, seat);
    d <= 126 || !c.gate || 3 * (Watermark(d, c) - c.tick) + Buffered(s, seat) <= 300
  }

  /** An INPUT reaching its receiver is either of the receiver's epoch, one or
      two past its watermark and within the ring's reach, or stale by less than
      2^15. */
  lemma ArrivingInput(cfg: Config, s: System, seat: Seat)
    requires Legal(cfg) && Good(cfg, s) && Calm(cfg, s) && Near(cfg.d, s, seat)
    requires Inbound(s, seat) != [] && Inbound(s, seat)[0].Input?
    ensures InputPlace(cfg.d, Get(s, seat), Inbound(s, seat)[0])
  {
    hide InputPlace, Good, Near;
    if seat == Host {
      InputToHost(cfg, s);
    } else {
      InputToGuest(cfg, s);
    }
  }

  lemma InputToHost(cfg: Config, s: System)
    requires Legal(cfg) && Good(cfg, s) && Calm(cfg, s) && Near(cfg.d, s, Host) && s.up != [] && s.up[0].Input?
    ensures InputPlace(cfg.d, s.host, s.up[0])
  {
    hide Recorded;
    StandApart(cfg.d, s);
    HeadOfUp(cfg.d, s);
    InFlightHead(cfg.d, true, s.up, s.host.rx);
    assert StaleOk(cfg.d, s.host.ep, s.up[0]);
  }

  lemma InputToGuest(cfg: Config, s: System)
    requires Legal(cfg) && Good(cfg, s) && Calm(cfg, s) && Near(cfg.d, s, Guest) && s.down != [] && s.down[0].Input?
    ensures InputPlace(cfg.d, s.guest, s.down[0])
  {
    hide Recorded;
    var d := cfg.d;
    StandApart(d, s);
    InFlightHead(d, false, s.down, s.guest.rx);
    SaneNext(d, false, s.guest.rx, s.down[0]);
    FoldForward(d, false, s.down[1..], Next(d, s.guest.rx, s.down[0]));
  }

  lemma NearStays(cfg: Config, s: System, seat: Seat)
    requires Legal(cfg) && Good(cfg, s) && Calm(cfg, s) && Near(cfg.d, s, seat) && Ready(s, seat)
    ensures Near(cfg.d, Deliver(cfg.d, s, seat), seat)
  {
    hide Receive, Good, Watermark, Admissible, Hold;
    if cfg.d > 126 {
      FirstEpochHead(cfg, s, seat);
      MarkMoves(cfg.d, seat, Get(s, seat), Inbound(s, seat)[0]);
    }
  }

  /** Before any push everything on the way is of the first epoch. */
  lemma FirstEpochHead(cfg: Config, s: System, seat: Seat)
    requires cfg.d >= 1 && Good(cfg, s) && s.host.ep.no == 0 && Inbound(s, seat) != []
    ensures var f, a := Inbound(s, seat)[0], Get(s, seat);
            && Admissible(cfg.d, seat == Host, a.rx, f) && a.rx.ep == a.ep && !Hold(a) && !f.Begin?
            && (Tagged(f) ==> f.ep == a.ep)
  {
    hide Recorded, Bounds;
    StandApart(cfg.d, s);
    if seat == Host {
      HeadOfUp(cfg.d, s);
      InFlightHead(cfg.d, true, s.up, s.host.rx);
    } else {
      InFlightHead(cfg.d, false, s.down, s.guest.rx);
    }
  }

  /** Listening moves a watermark by INPUTs alone, by at most two each. */
  lemma MarkMoves(d: nat, seat: Seat, a: Con, f: Frame)
    requires d >= 1 && Admissible(d, seat == Host, a.rx, f) && a.rx.ep == a.ep && !Hold(a) && (Tagged(f) ==> f.ep == a.ep)
    requires !f.Begin?
    ensures var a' := Receive(d, seat, a, f).0;
            && a'.gate == a.gate && a'.tick == a.tick && a'.ep == a.ep
            && Watermark(d, a') <= Watermark(d, a) + if f.Input? then 2 else 0
  {
    if f.Crc? {
      CrcResult(d, seat, a.(rx := Next(d, a.rx, f)), f.ep, f.t, f.crc);
      NextCrc(d, a.rx, f.ep, f.t, f.crc);
    }
    hide ReceiveCrc;
  }

  lemma NearPump(cfg: Config, s: System, seat: Seat, k: nat)
    requires Legal(cfg) && Stable(cfg, s) && (Get(s, seat).gate ==> !Open(cfg.d, Get(s, seat)))
    ensures Near(cfg.d, Fetch(s, seat, k), seat)
  {
    FetchKeeps(cfg, s, seat, k);
    var ch := Inbound(s, seat);
    if ch != [] {
      assert Buffered(s, seat) < Size(ch[0]);
      HeadSize(cfg, s, seat);
    }
  }

  lemma HeadSize(cfg: Config, s: System, seat: Seat)
    requires cfg.d >= 1 && Good(cfg, s) && Inbound(s, seat) != []
    ensures Size(Inbound(s, seat)[0]) <= 4 + RS_CHUNK
  {
    var d := cfg.d;
    if seat == Host {
      assert Admissible(d, true, s.host.rx, s.up[0]);
    } else {
      assert Admissible(d, false, s.guest.rx, s.down[0]);
    }
  }

  /** Where a report on its way stands: of this epoch and near the tick, or
      stale. */
  ghost predicate CrcPlace(d: nat, c: Con, f: Frame)
    requires f.Crc?
  {
    && f.t % 64 == 0
    && (if f.ep == c.ep then c.ep.base <= f.t && c.tick - 128 <= f.t <= c.tick + 254
        else f.t < c.ep.base <= f.t + 1000 && c.tick <= c.ep.base + d)
  }

  lemma ArrivingCrc(cfg: Config, s: System, seat: Seat)
    requires Legal(cfg) && Good(cfg, s) && Calm(cfg, s)
    requires Inbound(s, seat) != [] && Inbound(s, seat)[0].Crc?
    ensures CrcPlace(cfg.d, Get(s, seat), Inbound(s, seat)[0])
  {
    hide Good, CrcPlace;
    StandingApart(cfg, s);
    if seat == Host {
      CrcToHost(cfg, s);
    } else {
      CrcToGuest(cfg, s);
    }
  }

  lemma StandingApart(cfg: Config, s: System)
    requires cfg.d >= 1 && Good(cfg, s)
    ensures Apart(cfg.d, s.host, s.guest)
  {
    StandApart(cfg.d, s);
  }

  lemma CrcToHost(cfg: Config, s: System)
    requires Legal(cfg) && Good(cfg, s) && Calm(cfg, s) && s.up != [] && s.up[0].Crc?
    ensures CrcPlace(cfg.d, s.host, s.up[0])
  {
    hide Recorded;
    WithinReach(cfg, s);
    StandApart(cfg.d, s);
    HeadOfUp(cfg.d, s);
    InFlightHead(cfg.d, true, s.up, s.host.rx);
    assert StaleOk(cfg.d, s.host.ep, s.up[0]);
  }

  lemma CrcToGuest(cfg: Config, s: System)
    requires Legal(cfg) && Good(cfg, s) && Calm(cfg, s) && s.down != [] && s.down[0].Crc?
    ensures CrcPlace(cfg.d, s.guest, s.down[0])
  {
    hide Recorded;
    WithinReach(cfg, s);
    StandApart(cfg.d, s);
    InFlightHead(cfg.d, false, s.down, s.guest.rx);
  }

  // ---- delivery ----------------------------------------------------------

  lemma LogNext(d: nat, up: bool, w: Wire, f: Frame)
    requires d >= 1 && Sane(d, w) && LogOk(d, w) && Admissible(d, up, w, f)
    ensures LogOk(d, Next(d, w, f))
  {
  }

  /** Storing one cell and moving the window's top to it. */
  lemma RingStore(r: Ring, log: map<At, Cell>, ep: Epoch, lo: int, hi: int, t: int, cell: Cell)
    requires RingShows(r, log, ep, lo, hi) && lo <= t < lo + 256
    requires hi < t && forall j :: hi < j < t ==> r[j % 256] == Look(log, ep, j)
    ensures RingShows(r[t % 256 := cell], log[At(ep, t) := cell], ep, lo, t)
  {
    forall j: int | lo <= j <= t
      ensures r[t % 256 := cell][j % 256] == Look(log[At(ep, t) := cell], ep, j)
    {
      if j < t {
        SlotsApart(j, t);
        assert At(ep, j) != At(ep, t);
        assert r[j % 256] == Look(log, ep, j);
      }
    }
  }

  /** Two ticks less than a page apart use different slots. */
  lemma SlotsApart(j: int, t: int)
    requires j < t < j + 256
    ensures j % 256 != t % 256
  {
    assert t - j == 256 * (t / 256 - j / 256) + (t % 256 - j % 256);
  }

  lemma LowByte(t: nat)
    ensures Wrap(t) % 256 == t % 256 && Slot(Wrap(t)) == (t % 256) / 64
  {
  }

  lemma RingForget(r: Ring, log: map<At, Cell>, ep: Epoch, lo: int, hi: int, k: At, cell: Cell)
    requires RingShows(r, log, ep, lo, hi) && k.ep != ep
    ensures RingShows(r, log[k := cell], ep, lo, hi)
  {
    forall j: int | lo <= j <= hi ensures r[j % 256] == Look(log[k := cell], ep, j) {
      assert At(ep, j) != k;
    }
  }

  lemma RecordsFrame(a: Con, c: Con16, a': Con, c': Con16)
    requires !Hold(a) ==> RecordsShow(c, a)
    requires c'.records == c.records && a'.tx.crcs == a.tx.crcs && a'.ep == a.ep && a'.tick == a.tick
    requires Hold(a') == Hold(a)
    ensures !Hold(a') ==> RecordsShow(c', a')
  {
  }

  /** The place an INPUT reaching a console has. */
  ghost predicate InputPlace(d: nat, a: Con, f: Frame)
    requires d >= 1 && f.Input?
  {
    var wm := Watermark(d, a);
    if f.ep == a.ep then
      && (f.t == wm + 1 || (f.t == wm + 2 && wm == FirstMark(d, a.ep)))
      && f.t <= a.tick + 254
    else f.t <= wm <= f.t + 1000 && f.ep.no < a.ep.no && a.rx.ep != a.ep
  }

  /** What both levels make of an INPUT. */
  lemma InputFields(d: nat, seat: Seat, a: Con, c: Con16, f: Frame)
    requires d >= 1 && f.Input? && InputPlace(d, a, f) && c.wm == Wrap(Watermark(d, a))
    ensures var peer := if seat == Host then Guest else Host;
            var a' := Receive(d, seat, a, f).0;
            var c' := Receive16(d, seat, c, Encode(peer, f)).0;
            && a' == a.(rx := Next(d, a.rx, f)) && a'.rx.image == a.rx.image
            && a'.rx.log == a.rx.log[At(f.ep, f.t) := f.cell]
            && (if f.ep == a.ep then
                  && Watermark(d, a') == f.t
                  && c' == (if seat == Host then c.(ring1 := c.ring1[f.t % 256 := f.cell], wm := Wrap(f.t))
                            else c.(ring0 := c.ring0[f.t % 256 := f.cell], wm := Wrap(f.t)))
                else Watermark(d, a') == Watermark(d, a) && c' == c)
  {
    var wm := Watermark(d, a);
    DeltaOrders(f.t, wm);
    assert Wrap(Wrap(f.t) - Wrap(wm)) == Wrap(Wrap(f.t) - c.wm);
    LowByte(f.t);
  }

  lemma InputShows(d: nat, seat: Seat, a: Con, c: Con16, f: Frame)
    requires 1 <= d && Local(d, a) && Shows(d, seat, a, c) && f.Input? && Reach(d, a)
    requires Admissible(d, seat == Host, a.rx, f) && InputPlace(d, a, f)
    ensures var peer := if seat == Host then Guest else Host;
            Shows(d, seat, Receive(d, seat, a, f).0, Receive16(d, seat, c, Encode(peer, f)).0)
  {
    hide Receive, Receive16, RecordsShow, LogOk, Local, Watermark, Admissible, Next, RingShows, InputPlace;
    var peer := if seat == Host then Guest else Host;
    var a' := Receive(d, seat, a, f).0;
    var c' := Receive16(d, seat, c, Encode(peer, f)).0;
    LogArrives(d, seat, a, f);
    InputFields(d, seat, a, c, f);
    if f.ep == a.ep {
      InputStored(d, Other(seat, c), a, f);
    } else {
      RingForget(Other(seat, c), a.rx.log, a.ep, a.tick - 1, Watermark(d, a), At(f.ep, f.t), f.cell);
    }
    RecordsFrame(a, c, a', c');
  }

  /** An INPUT of this epoch in its slot. */
  lemma InputStored(d: nat, r: Ring, a: Con, f: Frame)
    requires d >= 1 && Local(d, a) && LogOk(d, a.rx) && f.Input? && f.ep == a.ep && InputPlace(d, a, f)
    requires RingShows(r, a.rx.log, a.ep, a.tick - 1, Watermark(d, a))
    requires Watermark(d, a) == FirstMark(d, a.ep) ==> r == IdleRing()
    requires a.tick - 1 <= Watermark(d, a)
    ensures RingShows(r[f.t % 256 := f.cell], a.rx.log[At(a.ep, f.t) := f.cell], a.ep, a.tick - 1, f.t)
    ensures f.t != FirstMark(d, a.ep)
  {
    MarkAfterFirst(d, a);
    Unlogged(d, a);
    hide RingShows, LogOk, Local, Watermark;
    RingStore(r, a.rx.log, a.ep, a.tick - 1, Watermark(d, a), f.t, f.cell);
  }

  lemma MarkAfterFirst(d: nat, a: Con)
    requires d >= 1 && Local(d, a)
    ensures FirstMark(d, a.ep) <= Watermark(d, a)
  {
  }

  lemma LogArrives(d: nat, seat: Seat, a: Con, f: Frame)
    requires d >= 1 && Local(d, a) && LogOk(d, a.rx) && f.Input? && Admissible(d, seat == Host, a.rx, f)
    ensures LogOk(d, Receive(d, seat, a, f).0.rx)
  {
    LogNext(d, seat == Host, a.rx, f);
  }

  /** Nothing past the watermark is logged. */
  lemma Unlogged(d: nat, a: Con)
    requires d >= 1 && Local(d, a) && LogOk(d, a.rx)
    ensures forall j: int :: Watermark(d, a) < j ==> Look(a.rx.log, a.ep, j) == IDLE
  {
  }

  /** A stored record matches a frame's 16-bit tick exactly when it is the
      record of that very tick. */
  lemma LatestIs(tick: nat, t: nat)
    requires t % 64 == 0 && t < tick <= t + 256
    ensures Latest(tick, (t % 256) / 64) == t
  {
  }

  lemma LatestBounds(tick: nat, k: nat)
    requires k < 4
    ensures tick - 256 <= Latest(tick, k) < tick && Latest(tick, k) % 256 == 64 * k
  {
  }

  /** A 64-tick boundary stays one in 16 bits. */
  lemma WrapLow(t: nat)
    requires t % 64 == 0
    ensures Wrap(t) % 64 == 0
  {
    var q, p := t / 64, t / 0x1_0000;
    assert Wrap(t) == t - 0x1_0000 * p;
    assert Wrap(t) == 64 * (q - 1024 * p);
  }

  /** A slot's record against a frame's tick, over primitive facts. */
  lemma SlotMatches(r: Records, crcs: map<At, word>, ep: Epoch, tick: nat, t: nat, live: bool)
    requires t % 64 == 0 && SlotShows(r, crcs, ep, tick, (t % 256) / 64)
    requires if live then ep.base <= t && tick - 128 <= t <= tick + 254
             else t < ep.base <= t + 1000 && tick <= ep.base + 127
    ensures r[(t % 256) / 64].tick == Wrap(t) <==> live && t < tick
    ensures live && t < tick ==> At(ep, t) in crcs && r[(t % 256) / 64].crc == crcs[At(ep, t)]
  {
    var k := (t % 256) / 64;
    var l := Latest(tick, k);
    LatestBounds(tick, k);
    if ep.base <= l { WrapInjective(l, t); }
    WrapLow(t);
    if live && t < tick {
      LatestIs(tick, t);
    }
    hide Latest, Wrap;
  }

  lemma CrcMatches(d: nat, a: Con, c: Con16, ep: Epoch, t: nat)
    requires RecordsShow(c, a) && t % 64 == 0 && d <= 127
    requires if ep == a.ep then a.ep.base <= t && a.tick - 128 <= t <= a.tick + 254
             else t < a.ep.base <= t + 1000 && a.tick <= a.ep.base + d
    ensures c.records[Slot(Wrap(t))].tick == Wrap(t) <==> ep == a.ep && t < a.tick
    ensures ep == a.ep && t < a.tick ==>
              At(ep, t) in a.tx.crcs && c.records[Slot(Wrap(t))].crc == a.tx.crcs[At(ep, t)]
  {
    LowByte(t);
    SlotMatches(c.records, a.tx.crcs, a.ep, a.tick, t, ep == a.ep);
  }

  /** A report decides the same on both levels. */
  lemma CrcDecides(d: nat, seat: Seat, a: Con, c: Con16, f: Frame)
    requires 1 <= d <= 127 && Local(d, a) && Shows(d, seat, a, c) && f.Crc?
    requires if f.ep == a.ep then a.ep.base <= f.t && a.tick - 128 <= f.t <= a.tick + 254
             else f.t < a.ep.base <= f.t + 1000 && a.tick <= a.ep.base + d
    requires f.t % 64 == 0
    ensures var k := At(f.ep, f.t);
            var alarm := Attends(a, f.ep) && Differs(a, k, f.crc);
            ReceiveCrc16(seat, c, Wrap(f.t), f.crc) ==
              if alarm then (c.(pend := true, ptmo := 0), if seat == Host then [] else [Req16(Wrap(f.t))])
              else (c, [])
  {
    if !Hold(a) {
      CrcMatches(d, a, c, f.ep, f.t);
      assert f.ep == a.ep ==> (At(a.ep, f.t) in a.tx.crcs <==> Reported(a, f.t));
    }
  }

  /** Shows reads neither the peer's reports nor the request flag. */
  lemma ShowsFrame(d: nat, seat: Seat, a: Con, c: Con16, a': Con, c': Con16)
    requires d >= 1 && Shows(d, seat, a, c)
    requires c' == c.(pend := a'.pend, ptmo := a'.ptmo)
    requires a'.tick == a.tick && a'.gate == a.gate && a'.sim == a.sim && a'.ep == a.ep
    requires a'.rx.image == a.rx.image && a'.rx.log == a.rx.log && a'.tx.log == a.tx.log && a'.tx.crcs == a.tx.crcs
    requires Watermark(d, a') == Watermark(d, a) && LogOk(d, a'.rx) && LogOk(d, a'.tx)
    ensures Shows(d, seat, a', c')
  {
  }

  lemma CrcShows(d: nat, seat: Seat, a: Con, c: Con16, f: Frame)
    requires 1 <= d <= 127 && Local(d, a) && Shows(d, seat, a, c) && f.Crc?
    requires Admissible(d, seat == Host, a.rx, f)
    requires f.ep.no <= a.ep.no && (f.ep.no == a.ep.no ==> f.ep == a.ep)
    requires f.ep.no < a.ep.no ==> a.rx.ep != a.ep
    requires CrcPlace(d, a, f)
    ensures var peer := if seat == Host then Guest else Host;
            var (a', out) := Receive(d, seat, a, f);
            var (c', out16) := Receive16(d, seat, c, Encode(peer, f));
            Shows(d, seat, a', c') && out16 == EncodeAll(seat, out)
  {
    var (a', out) := Receive(d, seat, a, f);
    CrcDecides(d, seat, a, c, f);
    LogNext(d, seat == Host, a.rx, f);
    CrcWires(d, seat, a, f);
    ShowsFrame(d, seat, a, c, a', c.(pend := a'.pend, ptmo := a'.ptmo));
  }

  lemma CrcWires(d: nat, seat: Seat, a: Con, f: Frame)
    requires d >= 1 && Local(d, a) && f.Crc? && LogOk(d, a.tx)
    requires f.ep.no <= a.ep.no && (f.ep.no == a.ep.no ==> f.ep == a.ep)
    requires f.ep.no < a.ep.no ==> a.rx.ep != a.ep
    ensures var (a', out) := Receive(d, seat, a, f);
            var k := At(f.ep, f.t);
            var alarm := Attends(a, f.ep) && Differs(a, k, f.crc);
            && Watermark(d, a') == Watermark(d, a) && LogOk(d, a'.tx)
            && a'.rx == Next(d, a.rx, f) && a'.rx.image == a.rx.image && a'.rx.log == a.rx.log
            && a'.tx.log == a.tx.log && a'.tx.crcs == a.tx.crcs
            && a'.tick == a.tick && a'.gate == a.gate && a'.sim == a.sim && a'.ep == a.ep
            && a'.pend == (a.pend || alarm) && a'.ptmo == (if alarm then 0 else a.ptmo)
            && out == (if alarm && seat == Guest then [Req(a.ep, f.t)] else [])
  {
    var rx := Next(d, a.rx, f);
    var a1 := a.(rx := rx);
    NextCrc(d, a.rx, f.ep, f.t, f.crc);
    RequestKeeps(d, a.tx, a.ep, f.t);
    RequestLog(d, a.tx, a.ep, f.t);
    hide Next, LogOk;
    assert Attends(a1, f.ep) == Attends(a, f.ep) && Differs(a1, At(f.ep, f.t), f.crc) == Differs(a, At(f.ep, f.t), f.crc);
    assert Watermark(d, a1) == Watermark(d, a);
  }

  lemma RequestLog(d: nat, w: Wire, ep: Epoch, t: nat)
    requires d >= 1 && LogOk(d, w) && w.ep.no <= ep.no && (w.ep.no == ep.no ==> w.ep == ep)
    ensures LogOk(d, Next(d, w, Req(ep, t)))
  {
  }

  lemma ReqShows(d: nat, a: Con, c: Con16, f: Frame)
    requires d >= 1 && Local(d, a) && Shows(d, Host, a, c) && f.Req? && Admissible(d, true, a.rx, f)
    requires f.ep.no <= a.ep.no && (f.ep.no == a.ep.no ==> f.ep == a.ep)
    ensures var (a', out) := Receive(d, Host, a, f);
            var (c', out16) := Receive16(d, Host, c, Encode(Guest, f));
            Shows(d, Host, a', c') && out == [] && out16 == []
  {
    var (a', out) := Receive(d, Host, a, f);
    LogNext(d, true, a.rx, f);
    assert Watermark(d, a') == Watermark(d, a);
    ShowsFrame(d, Host, a, c, a', c.(pend := a'.pend, ptmo := a'.ptmo));
  }

  lemma BeginShows(d: nat, a: Con, c: Con16, f: Frame)
    requires d >= 1 && Local(d, a) && Shows(d, Guest, a, c) && f.Begin? && Admissible(d, false, a.rx, f)
    ensures var (a', out) := Receive(d, Guest, a, f);
            var (c', out16) := Receive16(d, Guest, c, Encode(Host, f));
            Shows(d, Guest, a', c') && out == [] && out16 == []
  {
  }

  lemma ChunkShows(d: nat, a: Con, c: Con16, f: Frame)
    requires d >= 1 && Local(d, a) && Shows(d, Guest, a, c) && f.Chunk? && Admissible(d, false, a.rx, f)
    ensures var (a', out) := Receive(d, Guest, a, f);
            var (c', out16) := Receive16(d, Guest, c, Encode(Host, f));
            Shows(d, Guest, a', c') && out == [] && out16 == []
  {
    assert ChunkAccepted(true, f.pos, |f.data|);
  }

  lemma Rebased16(d: nat, c: Con16, r: word)
    ensures var c' := Rebase16(d, c, r);
            && c'.tick == r && c'.gate == c.gate && !c'.pend && c'.ptmo == 0 && c'.sim == Clamp(c.sim)
            && !c'.hold && c'.ring0 == IdleRing() && c'.ring1 == IdleRing() && c'.records == NoRecords()
            && c'.wm == Wrap(r + d - 1)
  {
  }

  lemma RebaseShows(d: nat, seat: Seat, a: Con, c0: Con16, next: Epoch)
    requires d >= 1 && LogOk(d, a.rx) && LogOk(d, a.tx) && !Hold(a)
    requires c0.gate == a.gate && !a.pend && a.ptmo == 0 && a.sim == Clamp(c0.sim)
    requires a.ep == next && a.tick == next.base && Watermark(d, a) == FirstMark(d, next)
    requires forall k :: k in a.rx.log ==> k.ep.no < next.no
    requires forall k :: k in a.tx.log ==> k.ep.no < next.no
    ensures Shows(d, seat, a, Rebase16(d, c0, Wrap(next.base)))
  {
    var c := Rebase16(d, c0, Wrap(next.base));
    Rebased16(d, c0, Wrap(next.base));
    assert Wrap(Wrap(next.base) + d - 1) == Wrap(FirstMark(d, next));
    forall t: int ensures Look(a.tx.log, a.ep, t) == IDLE && Look(a.rx.log, a.ep, t) == IDLE {
      assert At(a.ep, t) !in a.tx.log && At(a.ep, t) !in a.rx.log;
    }
    forall k: nat | k < 4 ensures SlotShows(c.records, a.tx.crcs, a.ep, a.tick, k) {
      LatestBounds(a.tick, k);
    }
  }

  lemma EndRebases(d: nat, a: Con)
    requires d >= 1 && Local(d, a) && GuestOk(d, a) && Admissible(d, false, a.rx, End)
    ensures var (a', out) := Receive(d, Guest, a, End);
            var next := a.rx.image.next;
            && out == [] && a'.ep == next && a'.tick == next.base && a'.gate == a.gate && !a'.pend && a'.ptmo == 0
            && a'.sim == Clamp(a.sim) && !Hold(a') && a'.rx.log == a.rx.log && a'.tx == a.tx
            && a'.rx == Next(d, a.rx, End) && Watermark(d, a') == FirstMark(d, next)
            && a.rx.ep.no < next.no && a.tx.ep.no < next.no
  {
  }

  lemma LogsBefore(d: nat, w: Wire, no: nat)
    requires LogOk(d, w) && w.ep.no < no
    ensures forall k :: k in w.log ==> k.ep.no < no
  {
  }

  lemma EndShows(d: nat, a: Con, c: Con16)
    requires d >= 1 && Local(d, a) && GuestOk(d, a) && Shows(d, Guest, a, c) && Admissible(d, false, a.rx, End)
    ensures var (a', out) := Receive(d, Guest, a, End);
            var (c', out16) := Receive16(d, Guest, c, End16);
            Shows(d, Guest, a', c') && out == [] && out16 == []
  {
    var a' := Receive(d, Guest, a, End).0;
    var next := a.rx.image.next;
    EndRebases(d, a);
    LogNext(d, false, a.rx, End);
    LogsBefore(d, a.rx, next.no);
    LogsBefore(d, a.tx, next.no);
    RebaseShows(d, Guest, a', c, next);
  }

  /** What a console's invariant says when a frame reaches it. */
  lemma HeadFacts(cfg: Config, s: System, t: System16, seat: Seat)
    requires Legal(cfg) && Good(cfg, s) && Related(cfg.d, s, t) && Inbound(s, seat) != []
    ensures var a, c, f := Get(s, seat), Get16(t, seat), Inbound(s, seat)[0];
            && Local(cfg.d, a) && Shows(cfg.d, seat, a, c) && Admissible(cfg.d, seat == Host, a.rx, f)
            && (seat == Guest ==> GuestOk(cfg.d, a))
  {
    hide Shows, Recorded, Bounds, HostOk, Admissible;
  }

  /** One frame dispatched, on both levels. */
  lemma ReceiveShows(cfg: Config, s: System, t: System16, seat: Seat)
    requires Legal(cfg) && Good(cfg, s) && Calm(cfg, s) && Related(cfg.d, s, t) && Near(cfg.d, s, seat)
    requires Inbound(s, seat) != []
    ensures var peer := if seat == Host then Guest else Host;
            var f := Inbound(s, seat)[0];
            var (a', out) := Receive(cfg.d, seat, Get(s, seat), f);
            var (c', out16) := Receive16(cfg.d, seat, Get16(t, seat), Encode(peer, f));
            Shows(cfg.d, seat, a', c') && out16 == EncodeAll(seat, out)
  {
    hide Good, Related, Near, Calm, Local, Shows, Watermark, Receive, Receive16, GuestOk, Reach, CrcPlace;
    var d := cfg.d;
    var a, c, f := Get(s, seat), Get16(t, seat), Inbound(s, seat)[0];
    HeadFacts(cfg, s, t, seat);
    if f.Input? {
      WithinReach(cfg, s);
      ArrivingInput(cfg, s, seat);
      InputShows(d, seat, a, c, f);
      InputAnswers(d, seat, a, c, f);
    } else if f.Crc? {
      ArrivingCrc(cfg, s, seat);
      ArrivingTag(cfg, s, seat);
      CrcShows(d, seat, a, c, f);
    } else if seat == Host {
      HeadTag(cfg, s);
      ReqShows(d, a, c, f);
    } else {
      match f
      case Begin(_) => BeginShows(d, a, c, f);
      case Chunk(_, _) => ChunkShows(d, a, c, f);
      case End => EndShows(d, a, c);
    }
  }

  lemma HeadTag(cfg: Config, s: System)
    requires cfg.d >= 1 && Good(cfg, s) && s.up != []
    ensures var f := s.up[0];
            && Admissible(cfg.d, true, s.host.rx, f) && (f.Input? || f.Crc? || f.Req?)
            && f.ep.no <= s.host.ep.no && (f.ep.no == s.host.ep.no ==> f.ep == s.host.ep)
  {
    HeadOfUp(cfg.d, s);
  }

  lemma InputAnswers(d: nat, seat: Seat, a: Con, c: Con16, f: Frame)
    requires d >= 1 && f.Input?
    ensures var peer := if seat == Host then Guest else Host;
            Receive(d, seat, a, f).1 == [] && Receive16(d, seat, c, Encode(peer, f)).1 == EncodeAll(seat, [])
  {
  }

  lemma ArrivingTag(cfg: Config, s: System, seat: Seat)
    requires Legal(cfg) && Good(cfg, s) && Inbound(s, seat) != [] && Inbound(s, seat)[0].Crc?
    ensures var a := Get(s, seat);
            var f := Inbound(s, seat)[0];
            && f.ep.no <= a.ep.no && (f.ep.no == a.ep.no ==> f.ep == a.ep)
            && (f.ep.no < a.ep.no ==> a.rx.ep != a.ep)
  {
    if seat == Host {
      HeadOfUp(cfg.d, s);
      InFlightHead(cfg.d, true, s.up, s.host.rx);
    }
  }

  lemma HeadRelated(d: nat, s: System, t: System16, seat: Seat)
    requires d >= 1 && Related(d, s, t) && Ready(s, seat)
    ensures var peer := if seat == Host then Guest else Host;
            && Ready16(t, seat) && Inbound16(t, seat)[0] == Encode(peer, Inbound(s, seat)[0])
            && Related(d, Pop(s, seat), Popped16(t, seat))
  {
    var peer := if seat == Host then Guest else Host;
    assert Inbound16(t, seat)[0] == Encode(peer, Inbound(s, seat)[0]);
    EncodeTail(peer, Inbound(s, seat));
    hide Shows;
  }

  lemma DeliverRelated(cfg: Config, s: System, t: System16, seat: Seat)
    requires Legal(cfg) && Good(cfg, s) && Calm(cfg, s) && Related(cfg.d, s, t) && Ready(s, seat)
    requires Near(cfg.d, s, seat)
    ensures Ready16(t, seat) && Related(cfg.d, Deliver(cfg.d, s, seat), Deliver16(cfg.d, t, seat))
  {
    hide Shows, Receive, Receive16, Good, Calm, Related, Encode, Emit, Emit16;
    HeadRelated(cfg.d, s, t, seat);
    ReceiveShows(cfg, s, t, seat);
    var peer := if seat == Host then Guest else Host;
    var f := Inbound(s, seat)[0];
    EmitRelated(cfg.d, Pop(s, seat), Popped16(t, seat), seat, Receive(cfg.d, seat, Get(s, seat), f),
                Receive16(cfg.d, seat, Get16(t, seat), Encode(peer, f)));
  }

  function Popped16(t: System16, seat: Seat): System16
    requires Ready16(t, seat)
  {
    var f := Inbound16(t, seat)[0];
    if seat.Host? then t.(up := t.up[1..], upAcc := t.upAcc - Size16(f))
    else t.(down := t.down[1..], downAcc := t.downAcc - Size16(f))
  }

  // ---- capture, play, push -----------------------------------------------

  lemma CaptureShows(d: nat, seat: Seat, a: Con, c: Con16, cell: Cell)
    requires 1 <= d <= 127 && Local(d, a) && Shows(d, seat, a, c) && !a.gate
    ensures var (a', out) := Capture(d, a, cell);
            var (c', out16) := Capture16(d, seat, c, cell);
            Shows(d, seat, a', c') && out16 == EncodeAll(seat, out)
  {
    hide RingShows, LogOk, RecordsShow, Capture, Capture16, Watermark, Look;
    var (a', out) := Capture(d, a, cell);
    var (c', out16) := Capture16(d, seat, c, cell);
    CaptureKeeps(d, a, cell);
    CaptureRest(d, a, cell);
    Capture16Fields(d, seat, c, a.tick, cell);
    OwnStored(Own(seat, c), a.tx.log, a.ep, a.tick, d, cell);
    CaptureLog(d, a, cell);
    RecordsFrame(a, c, a', c');
  }

  lemma CaptureRest(d: nat, a: Con, cell: Cell)
    requires d >= 1
    ensures var a' := Capture(d, a, cell).0; a'.gate && a'.ptmo == a.ptmo && Watermark(d, a') == Watermark(d, a)
  {
  }

  lemma Capture16Fields(d: nat, seat: Seat, c: Con16, tick: nat, cell: Cell)
    requires c.tick == Wrap(tick)
    ensures var (c', out) := Capture16(d, seat, c, cell);
            && c' == (if seat == Host then c.(ring0 := c.ring0[(tick + d) % 256 := cell], gate := true)
                      else c.(ring1 := c.ring1[(tick + d) % 256 := cell], gate := true))
            && out == [Input16(SeatNo(seat), Wrap(tick + d), cell)]
  {
    WrapAdd(tick, d);
    LowByte(tick + d);
  }

  lemma OwnStored(r: Ring, log: map<At, Cell>, ep: Epoch, tick: nat, d: nat, cell: Cell)
    requires 1 <= d <= 127 && RingShows(r, log, ep, tick - 1, tick + d - 1)
    ensures RingShows(r[(tick + d) % 256 := cell], log[At(ep, tick + d) := cell], ep, tick - 1, tick + d)
  {
    RingStore(r, log, ep, tick - 1, tick + d - 1, tick + d, cell);
  }

  lemma CaptureLog(d: nat, a: Con, cell: Cell)
    requires 1 <= d && Local(d, a) && LogOk(d, a.tx) && !a.gate
    ensures LogOk(d, Capture(d, a, cell).0.tx)
  {
    assert a.tick + d >= a.ep.base + d;
    if a.tx.ep == a.ep {
      assert a.tx.last < a.tick + d;
    }
  }

  lemma OpenShows(d: nat, seat: Seat, a: Con, c: Con16)
    requires d >= 1 && Shows(d, seat, a, c) && Reach(d, a)
    ensures Open16(c) <==> Open(d, a)
  {
    DeltaOrders(Watermark(d, a), a.tick);
  }

  lemma RingAt(r: Ring, log: map<At, Cell>, ep: Epoch, lo: int, hi: int, tick: nat)
    requires RingShows(r, log, ep, lo, hi) && lo <= tick - 1 && tick <= hi
    ensures r[tick % 256] == Look(log, ep, tick)
    ensures r[(tick % 256 + 255) % 256] == Look(log, ep, tick - 1)
  {
    assert (tick % 256 + 255) % 256 == (tick - 1) % 256;
  }

  lemma ReadsShow(d: nat, seat: Seat, a: Con, c: Con16)
    requires d >= 1 && Open(d, a) && a.gate && c.tick == Wrap(a.tick)
    requires RingShows(Own(seat, c), a.tx.log, a.ep, a.tick - 1, NextSend(d, a) - 1)
    requires RingShows(Other(seat, c), a.rx.log, a.ep, a.tick - 1, Watermark(d, a))
    ensures Own(seat, c)[c.tick % 256] == Look(a.tx.log, a.ep, a.tick)
    ensures Own(seat, c)[(c.tick % 256 + 255) % 256] == Look(a.tx.log, a.ep, a.tick - 1)
    ensures Other(seat, c)[c.tick % 256] == Look(a.rx.log, a.ep, a.tick)
    ensures Other(seat, c)[(c.tick % 256 + 255) % 256] == Look(a.rx.log, a.ep, a.tick - 1)
    ensures Reads16(c) == Reads(seat, a)
  {
    LowByte(a.tick);
    RingAt(Own(seat, c), a.tx.log, a.ep, a.tick - 1, NextSend(d, a) - 1, a.tick);
    RingAt(Other(seat, c), a.rx.log, a.ep, a.tick - 1, Watermark(d, a), a.tick);
  }

  lemma ModNext(x: int)
    ensures (x + 1) % 256 == if x % 256 == 255 then 0 else x % 256 + 1
  {
  }

  /** Shifting by less than the modulus, on a dividend given as quotient and
      remainder. */
  lemma ModShift(q: int, r: int, x: int)
    requires 0 <= r < 256 && 0 <= x < 256
    ensures (256 * q + r - x) % 256 == 0 <==> r == x
  {
    if r >= x {
      assert (256 * q + r - x) % 256 == r - x;
    } else {
      assert 256 * q + r - x == 256 * (q - 1) + (r - x + 256);
      assert (256 * q + r - x) % 256 == r - x + 256;
    }
  }

  /** A low byte is a slot's boundary exactly when the tick is a multiple of 64
      living in that slot. */
  lemma SlotBoundary(r: nat, k: nat)
    requires r < 256 && k < 4
    ensures r % 64 == 0 && r / 64 == k <==> r == 64 * k
  {
  }

  lemma Mod64(q: int, r: nat)
    ensures (256 * q + r) % 64 == r % 64
  {
    assert 256 * q + r == 64 * (4 * q) + r;
  }

  lemma SlotOf(tick: nat, k: nat)
    requires k < 4
    ensures tick % 64 == 0 && (tick % 256) / 64 == k <==> (tick - 64 * k) % 256 == 0
  {
    var q, r := tick / 256, tick % 256;
    ModShift(q, r, 64 * k);
    SlotBoundary(r, k);
    Mod64(q, r);
  }

  lemma RecordStored(tick: nat, k: nat)
    requires k < 4
    ensures Latest(tick + 1, k) == if tick % 64 == 0 && (tick % 256) / 64 == k then tick else Latest(tick, k)
  {
    SlotOf(tick, k);
    ModNext(tick - 1 - 64 * k);
  }

  /** Recording the tick just played, or playing one off the boundary. */
  lemma SlotPlayed(r: Records, crcs: map<At, word>, ep: Epoch, tick: nat, k: nat, crc: word)
    requires k < 4 && SlotShows(r, crcs, ep, tick, k) && ep.base <= tick
    ensures tick % 64 == 0 ==>
              SlotShows(r[(tick % 256) / 64 := Rec(Wrap(tick), crc)], crcs[At(ep, tick) := crc], ep, tick + 1, k)
    ensures tick % 64 != 0 ==> SlotShows(r, crcs, ep, tick + 1, k)
  {
    RecordStored(tick, k);
    LatestBounds(tick, k);
  }

  /** The 16-bit tick's fields, next to the ideal one's. */
  lemma Play16Fields(cfg: Config, seat: Seat, c: Con16, tick: nat)
    requires c.tick == Wrap(tick)
    ensures var (c', out) := Play16(cfg, seat, c);
            var sim := cfg.cart(c.sim, Reads16(c), c.tick);
            && c'.sim == sim && !c'.gate && c'.tick == Wrap(tick + 1)
            && c'.hold == c.hold && c'.pend == c.pend && c'.ptmo == c.ptmo && c'.resume == c.resume
            && c'.wm == c.wm && c'.ring0 == c.ring0 && c'.ring1 == c.ring1
            && (if tick % 64 == 0 then
                  && c'.records == c.records[(tick % 256) / 64 := Rec(Wrap(tick), Checksum(sim))]
                  && out == [Crc16(SeatNo(seat), Wrap(tick), Checksum(sim))]
                else c'.records == c.records && out == [])
  {
    LowByte(tick);
    assert c.tick % 64 == tick % 64;
  }

  lemma PlaySends(cfg: Config, seat: Seat, a: Con)
    requires cfg.d >= 1
    ensures Play(cfg, seat, a).1 == if a.tick % 64 == 0 then
              [Crc(a.ep, a.tick, Checksum(cfg.cart(a.sim, Reads(seat, a), Wrap(a.tick))))] else []
  {
  }

  lemma RingShrinks(r: Ring, log: map<At, Cell>, ep: Epoch, lo: int, hi: int)
    requires RingShows(r, log, ep, lo, hi)
    ensures RingShows(r, log, ep, lo + 1, hi)
  {
  }

  /** Shows after a tick, from what the tick changed. */
  lemma ShowsPlayed(d: nat, seat: Seat, a: Con, c: Con16, a': Con, c': Con16)
    requires d >= 1 && Shows(d, seat, a, c) && a.gate && a.ep.base <= a.tick
    requires a'.ep == a.ep && a'.tick == a.tick + 1 && !a'.gate && a'.pend == a.pend && a'.ptmo == a.ptmo
    requires a'.rx == a.rx && a'.tx.log == a.tx.log && LogOk(d, a'.tx)
    requires c' == c.(tick := Wrap(a.tick + 1), gate := false, sim := a'.sim, records := c'.records)
    requires a.tick % 64 == 0 ==>
               && a'.tx.crcs == a.tx.crcs[At(a.ep, a.tick) := Checksum(a'.sim)]
               && c'.records == c.records[(a.tick % 256) / 64 := Rec(Wrap(a.tick), Checksum(a'.sim))]
    requires a.tick % 64 != 0 ==> a'.tx.crcs == a.tx.crcs && c'.records == c.records
    ensures Shows(d, seat, a', c')
  {
    RingShrinks(Own(seat, c), a.tx.log, a.ep, a.tick - 1, NextSend(d, a) - 1);
    RingShrinks(Other(seat, c), a.rx.log, a.ep, a.tick - 1, Watermark(d, a));
    if !Hold(a) {
      RecordsPlayed(a, c, a', c');
    }
    hide RingShows, LogOk, RecordsShow;
  }

  lemma RecordsPlayed(a: Con, c: Con16, a': Con, c': Con16)
    requires RecordsShow(c, a) && a.ep.base <= a.tick && a'.ep == a.ep && a'.tick == a.tick + 1
    requires a.tick % 64 == 0 ==>
               && a'.tx.crcs == a.tx.crcs[At(a.ep, a.tick) := Checksum(a'.sim)]
               && c'.records == c.records[(a.tick % 256) / 64 := Rec(Wrap(a.tick), Checksum(a'.sim))]
    requires a.tick % 64 != 0 ==> a'.tx.crcs == a.tx.crcs && c'.records == c.records
    ensures RecordsShow(c', a')
  {
    forall k: nat | k < 4 ensures SlotShows(c'.records, a'.tx.crcs, a'.ep, a'.tick, k) {
      SlotPlayed(c.records, a.tx.crcs, a.ep, a.tick, k, Checksum(a'.sim));
    }
  }

  lemma PlayShows(cfg: Config, seat: Seat, a: Con, c: Con16)
    requires Legal(cfg) && Local(cfg.d, a) && Shows(cfg.d, seat, a, c) && a.gate && Open(cfg.d, a)
    ensures var (a', out) := Play(cfg, seat, a);
            var (c', out16) := Play16(cfg, seat, c);
            Shows(cfg.d, seat, a', c') && out16 == EncodeAll(seat, out)
  {
    hide Play, Play16, Reads, Reads16, LogOk, RingShows, RecordsShow;
    var a', c' := Play(cfg, seat, a).0, Play16(cfg, seat, c).0;
    ReadsShow(cfg.d, seat, a, c);
    PlayKeeps(cfg, seat, a);
    PlaySends(cfg, seat, a);
    PlayLog(cfg, seat, a);
    Play16Fields(cfg, seat, c, a.tick);
    PlayPtmo(cfg, seat, a);
    assert c' == c.(tick := Wrap(a.tick + 1), gate := false, sim := a'.sim, records := c'.records);
    ShowsPlayed(cfg.d, seat, a, c, a', c');
  }

  lemma PlayPtmo(cfg: Config, seat: Seat, a: Con)
    requires cfg.d >= 1
    ensures Play(cfg, seat, a).0.ptmo == a.ptmo
  {
  }

  lemma PlayLog(cfg: Config, seat: Seat, a: Con)
    requires Legal(cfg) && Local(cfg.d, a) && LogOk(cfg.d, a.tx)
    ensures LogOk(cfg.d, Play(cfg, seat, a).0.tx)
  {
  }

  lemma {:induction false} ChunksShow(s: Sim, pos: nat)
    requires pos <= IMG_TOTAL
    ensures EncodeAll(Host, Chunks(s, pos)) == Chunks16(s, pos)
    decreases IMG_TOTAL - pos
  {
    if pos < IMG_TOTAL {
      ChunksShow(s, pos + ChunkLen(pos));
      EncodeAppend(Host, [Chunk(pos, s[pos..pos + ChunkLen(pos)])], Chunks(s, pos + ChunkLen(pos)));
    }
  }

  lemma Push16Fields(d: nat, c: Con16, ptmo: nat)
    ensures Push16(d, c) == (Rebase16(d, c.(resume := Wrap(c.tick + 16)), Wrap(c.tick + 16)),
                             [Begin16(Wrap(c.tick + 16))] + Chunks16(c.sim, 0))
    ensures Push16(d, c.(ptmo := ptmo)) == Push16(d, c)
  {
    hide Chunks16, Clamp;
  }

  lemma PushFramesShow(next: Epoch, s: Sim)
    ensures EncodeAll(Host, PushFrames(next, s)) == [Begin16(Wrap(next.base))] + Chunks16(s, 0)
  {
    ChunksShow(s, 0);
    EncodeAppend(Host, [Begin(next)], Chunks(s, 0));
  }

  /** The ideal console after its push, as RebaseShows wants it. */
  lemma PushedFresh(d: nat, a: Con)
    requires 1 <= d && Local(d, a) && HostOk(d, a) && LogOk(d, a.rx) && LogOk(d, a.tx) && !a.gate && a.pend
    ensures var a' := Push(d, a).0;
            var next := Epoch(a.ep.no + 1, a.tick + 16);
            && LogOk(d, a'.rx) && LogOk(d, a'.tx) && !Hold(a') && !a'.gate && !a'.pend && a'.ptmo == 0
            && a'.sim == Clamp(a.sim) && a'.ep == next && a'.tick == next.base
            && Watermark(d, a') == FirstMark(d, next)
            && (forall k :: k in a'.rx.log ==> k.ep.no < next.no)
            && (forall k :: k in a'.tx.log ==> k.ep.no < next.no)
  {
    var next := Epoch(a.ep.no + 1, a.tick + 16);
    hide Push, PushFrames, Fold, Chain, LogOk;
    PushKeeps(d, a);
    LogsBefore(d, a.rx, next.no);
    LogsBefore(d, a.tx, next.no);
    LogStaysOk(d, a.tx, Push(d, a).0.tx);
  }

  lemma LogStaysOk(d: nat, w: Wire, w': Wire)
    requires LogOk(d, w) && w'.log == w.log && w.ep.no < w'.ep.no
    ensures LogOk(d, w')
  {
  }

  lemma PushRebases(d: nat, a: Con, c: Con16)
    requires 1 <= d && Local(d, a) && HostOk(d, a) && Shows(d, Host, a, c) && !a.gate && a.pend
    ensures var r := Wrap(c.tick + 16);
            Shows(d, Host, Push(d, a).0, Rebase16(d, c.(resume := r), r))
  {
    hide Push, RingShows, RecordsShow, Local, HostOk, LogOk, Rebase16, Wrap, Watermark;
    var next := Epoch(a.ep.no + 1, a.tick + 16);
    PushedFresh(d, a);
    WrapAdd(a.tick, 16);
    RebaseShows(d, Host, Push(d, a).0, c.(resume := Wrap(next.base)), next);
  }

  lemma PushShows(d: nat, a: Con, c: Con16)
    requires 1 <= d && Local(d, a) && HostOk(d, a) && Shows(d, Host, a, c) && !a.gate && a.pend
    ensures var (a', out) := Push(d, a);
            var (c', out16) := Push16(d, c);
            Shows(d, Host, a', c') && out16 == EncodeAll(Host, out)
  {
    var next := Epoch(a.ep.no + 1, a.tick + 16);
    PushRebases(d, a, c);
    PushKeeps(d, a);
    PushFramesShow(next, a.sim);
    Push16Fields(d, c, 0);
  }

  lemma Pending16Cases(d: nat, c: Con16)
    requires !c.hold
    ensures var due := c.pend && (Quiescent(c.sim) || c.ptmo + 1 >= PEND_MAX);
            Pending16(d, Host, c) ==
              if due then Push16(d, c) else (if c.pend then c.(ptmo := c.ptmo + 1) else c, [])
  {
    hide Chunks16, Clamp, Push16;
    Push16Fields(d, c, c.ptmo + 1);
  }

  lemma PendShows(d: nat, a: Con, c: Con16)
    requires 1 <= d && Local(d, a) && HostOk(d, a) && Shows(d, Host, a, c) && !a.gate
    ensures var (a', out) := Pending(d, Host, a);
            var (c', out16) := Pending16(d, Host, c);
            Shows(d, Host, a', c') && out16 == EncodeAll(Host, out)
  {
    PendingCases(d, a);
    Pending16Cases(d, c);
    if PushDue(a) {
      PushShows(d, a, c);
    } else {
      var a' := Pending(d, Host, a).0;
      ShowsFrame(d, Host, a, c, a', c.(pend := a'.pend, ptmo := a'.ptmo));
    }
  }

  // ---- whole steps -------------------------------------------------------

  lemma EmitRelated(d: nat, s: System, t: System16, seat: Seat, r: (Con, seq<Frame>), r16: (Con16, seq<Frame16>))
    requires d >= 1 && Related(d, s, t) && Shows(d, seat, r.0, r16.0) && r16.1 == EncodeAll(seat, r.1)
    ensures Related(d, Emit(s, seat, r), Emit16(t, seat, r16))
  {
    EncodeAppend(seat, s.down, r.1);
    EncodeAppend(seat, s.up, r.1);
  }

  lemma {:induction false} HostDrainsRelated(cfg: Config, s: System, t: System16)
    requires Legal(cfg) && Good(cfg, s) && Calm(cfg, s) && Related(cfg.d, s, t)
    requires s.upAcc <= Bytes(s.up) && Resting(s, Guest) && Near(cfg.d, s, Host)
    ensures Related(cfg.d, Drain(cfg.d, s, Host), Drain16(cfg.d, t, Host))
    decreases |s.up|
  {
    ReadyRelated(cfg.d, s, t, Host);
    if Ready(s, Host) {
      HostDelivers(cfg, s);
      DeliverRelated(cfg, s, t, Host);
      NearStays(cfg, s, Host);
      HostDrainsRelated(cfg, Deliver(cfg.d, s, Host), Deliver16(cfg.d, t, Host));
    }
  }

  lemma ReadyRelated(d: nat, s: System, t: System16, seat: Seat)
    requires d >= 1 && Related(d, s, t)
    ensures Ready16(t, seat) <==> Ready(s, seat)
  {
    var peer := if seat == Host then Guest else Host;
    if Inbound(s, seat) != [] {
      assert Inbound16(t, seat)[0] == Encode(peer, Inbound(s, seat)[0]);
    }
  }

  lemma {:induction false} GuestDrainsRelated(cfg: Config, s: System, t: System16)
    requires Legal(cfg) && Good(cfg, s) && Calm(cfg, s) && Related(cfg.d, s, t)
    requires s.downAcc <= Bytes(s.down) && Resting(s, Host) && Near(cfg.d, s, Guest)
    requires s.downAcc < 4 + RS_CHUNK || (s.guest.gate ==> !Open(cfg.d, s.guest))
    requires s.down != [] ==> s.downAcc < Size(s.down[0]) + 4 + RS_CHUNK
    ensures Related(cfg.d, Drain(cfg.d, s, Guest), Drain16(cfg.d, t, Guest))
    decreases |s.down|
  {
    ReadyRelated(cfg.d, s, t, Guest);
    if Ready(s, Guest) {
      FullFirstChunk(cfg.d, s.guest.rx, s.down[0]);
      GuestDelivers(cfg, s);
      DeliverRelated(cfg, s, t, Guest);
      NearStays(cfg, s, Guest);
      GuestDrainsRelated(cfg, Deliver(cfg.d, s, Guest), Deliver16(cfg.d, t, Guest));
    }
  }

  lemma FetchRelated(d: nat, s: System, t: System16, seat: Seat, k: nat)
    requires d >= 1 && Related(d, s, t)
    ensures var s1 := Fetch(s, seat, k);
            var t1 := if seat == Host then t.(upAcc := s1.upAcc) else t.(downAcc := s1.downAcc);
            Related(d, s1, t1) && Pump16(d, t, seat, k) == Drain16(d, t1, seat)
  {
    hide Shows, EncodeAll, Drain16, Bytes, Bytes16;
    EncodeBytes(if seat == Host then Guest else Host, Inbound(s, seat));
  }

  lemma PumpRelated(cfg: Config, s: System, t: System16, seat: Seat, k: nat)
    requires Legal(cfg) && Stable(cfg, s) && Calm(cfg, s) && Related(cfg.d, s, t)
    requires Get(s, seat).gate ==> !Open(cfg.d, Get(s, seat))
    ensures Related(cfg.d, Pump(cfg.d, s, seat, k), Pump16(cfg.d, t, seat, k))
  {
    FetchKeeps(cfg, s, seat, k);
    NearPump(cfg, s, seat, k);
    FetchRelated(cfg.d, s, t, seat, k);
    var s1 := Fetch(s, seat, k);
    hide Related, Good;
    if seat == Host {
      HostDrainsRelated(cfg, s1, t.(upAcc := s1.upAcc));
    } else {
      GuestDrainsRelated(cfg, s1, t.(downAcc := s1.downAcc));
    }
  }

  lemma GoRelated(cfg: Config, s: System, t: System16, seat: Seat, k: nat, cell: Cell)
    requires Legal(cfg) && Stable(cfg, s) && Calm(cfg, s) && Related(cfg.d, s, t)
    ensures var a := Go(seat, k, cell); Related(cfg.d, Step(cfg, s, a), Step16(cfg, t, a))
  {
    var d := cfg.d;
    var a, c := Get(s, seat), Get16(t, seat);
    WithinReach(cfg, s);
    OpenShows(d, seat, a, c);
    if a.gate && Open(d, a) {
      PlayShows(cfg, seat, a, c);
      PlayAndPendRelated(cfg, s, t, seat);
    } else {
      PumpRelated(cfg, s, t, seat, k);
      var s1, t1 := Pump(d, s, seat, k), Pump16(d, t, seat, k);
      if seat == Host { HostPumps(cfg, s, k); } else { GuestPumps(cfg, s, k); }
      if !a.gate && !Hold(a) {
        CaptureShows(d, seat, Get(s1, seat), Get16(t1, seat), cell);
        EmitRelated(d, s1, t1, seat, Capture(d, Get(s1, seat), cell), Capture16(d, seat, Get16(t1, seat), cell));
      }
    }
  }

  lemma PlayAndPendRelated(cfg: Config, s: System, t: System16, seat: Seat)
    requires Legal(cfg) && Stable(cfg, s) && Related(cfg.d, s, t)
    requires Get(s, seat).gate && Open(cfg.d, Get(s, seat))
    ensures Related(cfg.d, Emit(s, seat, PlayAndPend(cfg, seat, Get(s, seat))),
                    Emit16(t, seat, PlayAndPend16(cfg, seat, Get16(t, seat))))
  {
    var a, c := Get(s, seat), Get16(t, seat);
    var (a1, out1) := Play(cfg, seat, a);
    var (c1, out161) := Play16(cfg, seat, c);
    PlayShows(cfg, seat, a, c);
    if seat == Host {
      HostPlays(cfg, s);
      SelfPlays(cfg, Host, a);
      PendShows(cfg.d, a1, c1);
    }
    EncodeAppend(seat, out1, Pending(cfg.d, seat, a1).1);
    EmitRelated(cfg.d, s, t, seat, PlayAndPend(cfg, seat, a), PlayAndPend16(cfg, seat, c));
  }

  lemma ShowsFault(d: nat, seat: Seat, a: Con, c: Con16, sim: Sim)
    requires d >= 1 && Shows(d, seat, a, c)
    ensures Shows(d, seat, a.(sim := sim), c.(sim := sim))
  {
    hide RingShows, LogOk, SlotShows;
  }

  lemma FaultRelated(cfg: Config, s: System, t: System16, seat: Seat, sim: Sim)
    requires Legal(cfg) && Related(cfg.d, s, t)
    ensures Related(cfg.d, Step(cfg, s, Fault(seat, sim)), Step16(cfg, t, Fault(seat, sim)))
  {
    var s1 := s.(bad := s.bad + Spoiled(Get(s, seat)));
    ShowsFault(cfg.d, seat, Get(s, seat), Get16(t, seat), sim);
    hide Shows;
    EmitRelated(cfg.d, s1, t, seat, (Get(s, seat).(sim := sim), []), (Get16(t, seat).(sim := sim), []));
  }

  lemma StepRelated(cfg: Config, s: System, t: System16, a: Action)
    requires Legal(cfg) && Stable(cfg, s) && Calm(cfg, s) && Related(cfg.d, s, t)
    ensures Related(cfg.d, Step(cfg, s, a), Step16(cfg, t, a))
  {
    assert Get16(t, Host).gate == Get(s, Host).gate && Get16(t, Guest).gate == Get(s, Guest).gate;
    hide Related, Stable, Calm, Pump, Pump16, Shows;
    match a
    case Go(seat, k, cell) => GoRelated(cfg, s, t, seat, k, cell);
    case Poll(seat, k) => if !Get(s, seat).gate { PumpRelated(cfg, s, t, seat, k); }
    case Fault(seat, sim) => FaultRelated(cfg, s, t, seat, sim);
  }

  /** The refinement, over every run. */
  lemma {:induction false} RunRelated(cfg: Config, sim: Sim, acts: seq<Action>)
    requires Legal(cfg) && CalmRun(cfg, Start(cfg, sim), acts)
    ensures Related(cfg.d, Run(cfg, Start(cfg, sim), acts), Run16(cfg, Start16(cfg, sim), acts))
    decreases |acts|
  {
    if acts == [] {
      StartRelated(cfg, sim);
    } else {
      var before := acts[..|acts| - 1];
      RunRelated(cfg, sim, before);
      RunStable(cfg, sim, before);
      StepRelated(cfg, Run(cfg, Start(cfg, sim), before), Run16(cfg, Start16(cfg, sim), before), acts[|acts| - 1]);
    }
  }
}
