/** The console's netcode as it updates its cells: every routine in place, each
    proved to do to the console what the 16-bit model says. */
module Machine {
  import opened Words
  import opened GameState
  import opened Image
  import opened Console16
  import opened Frames
  import opened Rings
  import opened Channel
  import Cksum
  import Ideal
  import Receiver

  const OWN_CELLS := 32
  const SB_CNT2_LO := 0x129
  const SB_CNT2_HI := 0x12A
  const SB_PHASE := 0x164
  const EXEC_ISR_LO: byte := 0x26
  const EXEC_ISR_HI: byte := 0x11
  const SC_ISR_SAVE := 0x81AD

  /** The cells outside the image that a rebase sets: the display registers, the
      live and the saved interrupt vector, the native countdown. */
  predicate RebaseSets(a: word) {
    0x28 <= a <= 0x2C || a == 0x32 || 0x100 <= a <= 0x101 || SB_CNT2_LO <= a <= SB_CNT2_HI
    || SC_ISR_SAVE <= a <= SC_ISR_SAVE + 1
  }

  /** The display registers a reset reasserts from the cart header. */
  predicate DisplayShows(m: Mem) {
    m[0x32] == m[0x500D] && forall a: word :: 0x28 <= a <= 0x2C ==> m[a] == m[a + 0x4FE7]
  }

  /** The interrupt vectors, live and saved, are the EXEC's default. */
  predicate VectorsSafe(m: Mem) {
    m[0x100] == m[SC_ISR_SAVE] == EXEC_ISR_LO && m[0x101] == m[SC_ISR_SAVE + 1] == EXEC_ISR_HI
  }

  /** The record ring's cells, four to a record: tick, then checksum, low byte
      first. */
  function RecordsOf(own: seq<byte>): (r: Records)
    requires |own| == OWN_CELLS
    ensures forall k :: 0 <= k < 8 ==> r[k] == RecordAt(own, k)
  {
    seq(8, k requires 0 <= k < 8 && |own| == OWN_CELLS => RecordAt(own, k))
  }

  function RecordAt(own: seq<byte>, k: nat): Rec
    requires |own| == OWN_CELLS && k < 8
  {
    Rec(Join(own[4 * k], own[4 * k + 1]), Join(own[4 * k + 2], own[4 * k + 3]))
  }

  /** Every frame of a push can be written. */
  lemma {:induction false} ChunksWritable(s: Sim, pos: nat)
    requires pos <= IMG_TOTAL
    ensures forall f :: f in Chunks16(s, pos) ==> Writable(f)
    decreases IMG_TOTAL - pos
  {
    if pos < IMG_TOTAL {
      ChunksWritable(s, pos + ChunkLen(pos));
    }
  }

  ghost predicate Wrote(before: seq<seq<byte>>, after: seq<seq<byte>>, out: seq<Frame16>) {
    (forall f :: f in out ==> Writable(f)) && after == before + Receiver.EachBytes(out)
  }

  /** All four seats' watermarks. */
  predicate Marked(wms: seq<byte>, lo: byte, hi: byte) {
    |wms| == 8 && forall q :: 0 <= q < 4 ==> wms[2 * q] == lo && wms[2 * q + 1] == hi
  }

  /** The record ring's fill. */
  predicate Cleared(own: seq<byte>) {
    |own| == OWN_CELLS && forall i :: 0 <= i < OWN_CELLS ==> own[i] == 0xFF
  }

  /** A STATE frame RS_ON_STATE refuses. */
  predicate Refuses(b: seq<byte>, hold: bool)
    requires |b| >= 2 && |b| == Total(b[0])
  {
    b[0] < 3
    || (b[3] == 0xFF && b[2] == 0 && b[0] < 5)
    || (b[3] != 0xFF && !(hold && b[0] > 3 && b[3] < 4 && Join(b[2], b[3]) + b[0] - 3 <= IMG_TOTAL))
  }

  /** A console with the session cells a START sets and a PEER_LEFT ends. */
  datatype Unit = Unit(seat: Seat, d: byte, dropped: bool, con: Con16)

  /** The random seed a START carries, in the image's two seed cells. */
  function Seeded(s: Sim, lo: byte, hi: byte): Sim {
    s[IMG_S3 := lo][IMG_S3 + 1 := hi]
  }

  /** A console on its START frame. */
  function Started16(c: Con16, delay: byte, lo: byte, hi: byte): Con16 {
    c.(tick := 0, ring0 := IdleRing(), ring1 := IdleRing(), records := NoRecords(), wm := (delay + 255) % 256,
       sim := Seeded(c.sim, lo, hi))
  }

  /** A console whose match is over. */
  function Pinned16(c: Con16): Con16 {
    c.(ring0 := IdleRing(), ring1 := IdleRing(), wm := Wrap(c.tick + 0x4000))
  }

  /** A START is for a match of two. */
  predicate ForTwo(b: seq<byte>)
    requires |b| >= 2 && |b| == Total(b[0])
  {
    b[1] == FT_START && b[0] >= 38 ==> b[2] < SEATS && b[3] == SEATS
  }

  /** A complete frame of the stream. */
  predicate FrameBuffer(b: seq<byte>) {
    2 <= |b| == Total(b[0]) && ForTwo(b)
  }

  /** What a frame buffer does to a console. */
  function OnFrame16(u: Unit, b: seq<byte>): (Unit, seq<Frame16>)
    requires FrameBuffer(b)
  {
    if b[1] == FT_START && b[0] >= 38 then
      (Unit(if b[2] == 0 then Ideal.Host else Ideal.Guest, b[6], u.dropped, Started16(u.con, b[6], b[4], b[5])), [])
    else if b[1] == FT_PEER_LEFT then (u.(dropped := true, con := Pinned16(u.con)), [])
    else if Read(b).Some? then
      var (c, out) := Receive16(u.d, u.seat, u.con, Read(b).value);
      (u.(con := c), out)
    else (u, [])
  }

  /** After its START a console just powered on, or between matches, is the
      model's starting console. */
  lemma StartsMatch(c: Con16, delay: byte, lo: byte, hi: byte, cart: (Sim, Inputs, word) -> Sim)
    requires !c.gate && !c.hold && !c.pend && c.ptmo == 0 && c.resume == 0
    ensures Started16(c, delay, lo, hi) == Start16(Ideal.Config(delay, cart), Seeded(c.sim, lo, hi)).host
  {
  }

  /** What a list of frame buffers does to a console, one after the other. */
  function HearAll(u: Unit, bs: seq<seq<byte>>): (Unit, seq<Frame16>)
    requires forall b :: b in bs ==> FrameBuffer(b)
    decreases |bs|
  {
    if bs == [] then (u, [])
    else
      assert bs[0] in bs;
      var (u1, out1) := OnFrame16(u, bs[0]);
      var (u2, out2) := HearAll(u1, bs[1..]);
      (u2, out1 + out2)
  }

  lemma {:induction false} HearOneMore(u: Unit, bs: seq<seq<byte>>, b: seq<byte>)
    requires (forall x :: x in bs ==> FrameBuffer(x)) && FrameBuffer(b)
    ensures forall x :: x in bs + [b] ==> FrameBuffer(x)
    ensures var (u1, out1) := HearAll(u, bs);
            var (u2, out2) := OnFrame16(u1, b);
            HearAll(u, bs + [b]) == (u2, out1 + out2)
    decreases |bs|
  {
    hide OnFrame16, FrameBuffer;
    assert bs != [] ==> bs[0] in bs;
    if bs == [] {
      assert (bs + [b])[1..] == [];
      assert HearAll(OnFrame16(u, b).0, []) == (OnFrame16(u, b).0, []);
      assert OnFrame16(u, b).1 + [] == [] + OnFrame16(u, b).1;
    } else {
      assert (bs + [b])[0] == bs[0] && (bs + [b])[1..] == bs[1..] + [b];
      var (u1, out1) := OnFrame16(u, bs[0]);
      HearOneMore(u1, bs[1..], b);
      var (u2, out2) := HearAll(u1, bs[1..]);
      var (u3, out3) := OnFrame16(u2, b);
      assert HearAll(u, bs) == (u2, out1 + out2);
      assert HearAll(u, bs + [b]) == (u3, out1 + (out2 + out3));
      assert out1 + (out2 + out3) == out1 + out2 + out3;
    }
  }

  /** Honest frames are heard as the model hears them. */
  lemma {:induction false} HearHonest(u: Unit, fs: seq<Frame16>)
    requires AllWritable(fs)
    ensures forall b :: b in Receiver.EachBytes(fs) ==> FrameBuffer(b)
    ensures var (c, out) := HearFrames(u.d, u.seat, u.con, fs);
            HearAll(u, Receiver.EachBytes(fs)) == (u.(con := c), out)
    decreases |fs|
  {
    hide Bytes, Writable, Receive16, OnFrame16, FrameBuffer;
    forall b | b in Receiver.EachBytes(fs) ensures FrameBuffer(b) {
      var i :| 0 <= i < |fs| && Receiver.EachBytes(fs)[i] == b;
      assert fs[i] in fs;
      HonestBuffer(u, fs[i]);
    }
    if fs != [] {
      HonestBuffer(u, fs[0]);
      var (c, out) := Receive16(u.d, u.seat, u.con, fs[0]);
      HearHonest(u.(con := c), fs[1..]);
      assert Receiver.EachBytes(fs)[1..] == Receiver.EachBytes(fs[1..]);
    }
  }

  lemma HonestBuffer(u: Unit, f: Frame16)
    requires Writable(f)
    ensures FrameBuffer(Bytes(f))
    ensures var (c, out) := Receive16(u.d, u.seat, u.con, f); OnFrame16(u, Bytes(f)) == (u.(con := c), out)
  {
    ReadBytes(f);
    WritableIsPlausible(f);
    hide Receive16;
  }

  class Console {
    var seat: Seat             // NET_SEAT
    var d: byte                // NET_DELAY
    var dropped: bool          // NET_DROPPED
    const mem: array<word>     // the cart's memory, image cells included
    const pages: array<byte>   // SEAT_RING and SEAT_KP
    const own: array<byte>     // OWN_CRC
    const wms: array<byte>     // SEAT_WM
    const pump: Receiver.Pump  // RXACC, its indices, FRMBUF
    var tickLo: byte
    var tickHi: byte
    var resumeLo: byte
    var resumeHi: byte
    var hold: bool
    var pend: bool
    var ptmo: nat
    var sent: seq<seq<byte>>   // frames handed to NET_WRITE
    var gate: bool             // whether the pass has captured and stands at its gate

    ghost predicate Valid()
      reads this, mem, pages, own, wms
    {
      && mem.Length == 0x1_0000 && pages.Length == 2 * SEAT_PAGES && own.Length == OWN_CELLS && wms.Length == 8
      && pages != own && own != wms && pages != wms
      && Sound(mem[..]) && ptmo < Ideal.PEND_MAX
    }

    /** The receive side is the console's own. */
    ghost predicate Wired()
      reads this, pump, pump.acc, pump.frmbuf
    {
      && pump.Valid()
      && pump.acc != pages && pump.acc != own && pump.acc != wms
      && pump.frmbuf != pages && pump.frmbuf != own && pump.frmbuf != wms
    }

    function Peer(): nat
      reads this
    {
      if seat.Host? then 1 else 0
    }

    /** The console as the 16-bit model sees it. */
    ghost function State(): Con16
      requires Valid()
      reads this, mem, pages, own, wms
    {
      Con16(Join(tickLo, tickHi), gate, hold, pend, ptmo, Join(resumeLo, resumeHi),
            Join(wms[2 * Peer()], wms[2 * Peer() + 1]), RingOf(pages[..], 0), RingOf(pages[..], 1),
            RecordsOf(own[..]), ImageOf(mem[..]))
    }

    /** A console at power-on, all netcode cells clear. */
    constructor (memory: array<word>)
      requires memory.Length == 0x1_0000 && Sound(memory[..])
      ensures Valid() && mem == memory && sent == [] && !dropped
      ensures fresh(pages) && fresh(own) && fresh(wms)
      ensures Wired() && fresh(pump) && fresh(pump.acc) && fresh(pump.frmbuf) && pump.Buffered() == []
      ensures var c := State(); !c.gate && !c.hold && !c.pend && c.ptmo == 0 && c.resume == 0 && c.sim == ImageOf(memory[..])
    {
      mem := memory;
      pages := new byte[2 * SEAT_PAGES](i => 0);
      own := new byte[OWN_CELLS](i => 0);
      wms := new byte[8](i => 0);
      pump := new Receiver.Pump();
      seat, d, dropped, gate, sent := Ideal.Host, 0, false, false, [];
      tickLo, tickHi, resumeLo, resumeHi, hold, pend, ptmo := 0, 0, 0, 0, false, false, 0;
    }

    /** SES_ONFRAME's START branch, for a match of two: seat, delay and random
        seed from the frame, rings idle, records cleared, every watermark at d-1
        in its low byte, tick 0. */
    method OnStart(b: seq<byte>)
      requires Valid() && 39 <= |b| == Total(b[0]) && b[2] < SEATS && b[3] == SEATS
      modifies this`seat, this`d, this`tickLo, this`tickHi, mem, pages, wms, own
      ensures Valid() && SeatNo(seat) == b[2] && d == b[6]
      ensures tickLo == 0 && tickHi == 0 && mem[RNG_LO] == b[4] && mem[RNG_HI] == b[5]
      ensures forall a: word :: a != RNG_LO && a != RNG_HI ==> mem[a] == old(mem[a])
      ensures AllIdle(pages[..])
      ensures Marked(wms[..], if b[6] == 0 then 255 else b[6] - 1, 0) && Cleared(own[..])
      ensures State() == Started16(old(State()), b[6], b[4], b[5])
    {
      hide RecordsOf, ImageOf, RingOf, Seeded, Join, AllIdle, Marked, Cleared;
      seat, d := if b[2] == 0 then Ideal.Host else Ideal.Guest, b[6];
      ghost var c := State();
      StoreSeed(b[4], b[5]);
      ResetRings();
      ClrCrc();
      SetMarks((d + 255) % 256);
      ResetTick();
    }

    method ResetTick()
      requires Valid()
      modifies this`tickLo, this`tickHi
      ensures Valid() && State() == old(State()).(tick := 0) && tickLo == 0 && tickHi == 0
    {
      tickLo, tickHi := 0, 0;
    }

    /** The random seed goes into its two cells, which the image carries. */
    method StoreSeed(lo: byte, hi: byte)
      requires Valid()
      modifies mem
      ensures Valid() && State() == old(State()).(sim := Seeded(old(State()).sim, lo, hi))
      ensures mem[RNG_LO] == lo && mem[RNG_HI] == hi
      ensures forall a: word :: a != RNG_LO && a != RNG_HI ==> mem[a] == old(mem[a])
    {
      SeedOnly(mem[..], lo, hi);
      mem[RNG_LO] := lo;
      mem[RNG_HI] := hi;
      assert mem[..] == old(mem[..])[RNG_LO := lo][RNG_HI := hi];
      hide RecordsOf, ImageOf, RingOf, Seeded;
    }

    // ---- records and watermarks -------------------------------------------

    /** RS_CLR_CRC. */
    method ClrCrc()
      requires Valid()
      modifies own
      ensures Valid() && State() == old(State()).(records := NoRecords())
      ensures Cleared(own[..])
    {
      var i := 0;
      while i < OWN_CELLS
        invariant 0 <= i <= OWN_CELLS && forall j :: 0 <= j < i ==> own[j] == 0xFF
      {
        own[i] := 0xFF;
        i := i + 1;
      }
      assert forall k :: 0 <= k < 8 ==> RecordAt(own[..], k) == NO_RECORD;
      assert RecordsOf(own[..]) == NoRecords();
    }

    /** RS_RECORD_CRC. */
    method RecordCrc(crc: word)
      requires Valid()
      modifies own
      ensures Valid()
      ensures var t := Join(tickLo, tickHi);
              State() == old(State()).(records := old(State()).records[Slot(t) := Rec(t, crc)])
    {
      var k := (tickLo / 64) % 8;
      own[4 * k] := tickLo;
      own[4 * k + 1] := tickHi;
      own[4 * k + 2] := Lo(crc);
      own[4 * k + 3] := Hi(crc);
      JoinSplit(crc);
      SlotOfTick(tickLo, tickHi);
      RecordStored(old(own[..]), own[..], k, Rec(Join(tickLo, tickHi), crc));
    }

    /** The watermark loop: all four seats. */
    method SetMarks(w: word)
      requires Valid()
      modifies wms
      ensures Valid() && State() == old(State()).(wm := w)
      ensures Marked(wms[..], Lo(w), Hi(w))
    {
      var s := 0;
      while s < 4
        invariant 0 <= s <= 4
        invariant forall q :: 0 <= q < s ==> wms[2 * q] == Lo(w) && wms[2 * q + 1] == Hi(w)
      {
        wms[2 * s] := Lo(w);
        wms[2 * s + 1] := Hi(w);
        s := s + 1;
      }
      JoinSplit(w);
    }

    /** LS_IDLE_RMT: the match is over; every ring idles and every watermark is
        pinned 16384 ticks ahead. */
    method IdleRemote()
      requires Valid()
      modifies pages, wms
      ensures Valid() && State() == Pinned16(old(State()))
      ensures AllIdle(pages[..])
      ensures Marked(wms[..], tickLo, (tickHi + 0x40) % 0x100)
    {
      RingInit(pages);
      PinnedMark(tickLo, tickHi);
      JoinParts(tickLo, (tickHi + 0x40) % 0x100);
      SetMarks(Join(tickLo, (tickHi + 0x40) % 0x100));
    }

    // ---- frames in ---------------------------------------------------------

    /** The other seat's watermark. */
    method MarkOf(q: nat) returns (w: word)
      requires Valid() && q == Peer()
      ensures w == State().wm
    {
      w := Join(wms[2 * q], wms[2 * q + 1]);
    }

    /** Take an INPUT of the other seat: its ring slot and its watermark. */
    method TakeInput(q: nat, lo: byte, hi: byte, cell: Cell)
      requires Valid() && q == Peer()
      modifies pages, wms
      ensures Valid() && State() == Store(old(State()), q, Join(lo, hi), cell).(wm := Join(lo, hi))
      ensures CellIn(pages[..], q, lo) == cell && wms[2 * q] == lo && wms[2 * q + 1] == hi
    {
      JoinLow(lo, hi);
      hide Join, RecordsOf, ImageOf, Sound, RecordAt;
      StoreCell(pages, q, lo, cell);
      wms[2 * q] := lo;
      wms[2 * q + 1] := hi;
    }

    /** SES_ONFRAME's input branch. */
    method OnInput(b: seq<byte>)
      requires Valid() && 7 <= |b| == Total(b[0])
      modifies pages, wms
      ensures Valid() && State() == ReceiveInput(seat, old(State()), b[2], Join(b[3], b[4]), Cell(b[5], b[6]))
      ensures if b[2] == Peer() && 0 < Wrap(Join(b[3], b[4]) - old(State()).wm) < 0x8000 then
                && CellIn(pages[..], Peer(), b[3]) == Cell(b[5], b[6])
                && wms[2 * Peer()] == b[3] && wms[2 * Peer() + 1] == b[4]
              else pages[..] == old(pages[..]) && wms[..] == old(wms[..])
    {
      AheadIs(Wrap(Join(b[3], b[4]) - State().wm));
      hide Valid, State, Join, Wrap, Negative, Store, CellIn;
      var from := b[2];
      if from == SeatNo(seat) || from >= SEATS {
        return;
      }
      var mark := MarkOf(from);
      var delta := Wrap(Join(b[3], b[4]) - mark);
      if Negative(delta) || delta == 0 {
        return;
      }
      TakeInput(from, b[3], b[4], Cell(b[5], b[6]));
    }

    /** RS_ON_CRC: a differing record marks a resync wanted, and the guest asks
        for it. */
    method OnCrc(b: seq<byte>)
      requires Valid() && 7 <= |b| == Total(b[0])
      modifies this`pend, this`ptmo, this`sent
      ensures Valid()
      ensures var (c, out) := ReceiveCrc16(seat, old(State()), Join(b[3], b[4]), Join(b[5], b[6]));
              State() == c && Wrote(old(sent), sent, out)
      ensures var k := b[3] / 64;
              var differs := && own[4 * k] == b[3] && own[4 * k + 1] == b[4]
                             && (own[4 * k + 2] != b[5] || own[4 * k + 3] != b[6]);
              if !hold && !old(pend) && differs then
                pend && ptmo == 0 && sent == old(sent) + if seat.Host? then [] else [[3, FT_RESYNC, b[3], b[4]]]
              else pend == old(pend) && ptmo == old(ptmo) && sent == old(sent)
    {
      WroteNothing(sent);
      if hold || pend {
        return;
      }
      var k := (b[3] / 64) % 8;
      SlotOfTick(b[3], b[4]);
      JoinInjective(own[4 * k], own[4 * k + 1], b[3], b[4]);
      JoinInjective(own[4 * k + 2], own[4 * k + 3], b[5], b[6]);
      assert State().records[k] == RecordAt(own[..], k);
      hide Join, RingOf, RecordsOf, ImageOf, Sound, Wrote, Slot;
      if own[4 * k] != b[3] || own[4 * k + 1] != b[4] {
        return;
      }
      if own[4 * k + 2] == b[5] && own[4 * k + 3] == b[6] {
        return;
      }
      pend, ptmo := true, 0;
      if seat.Guest? {
        JoinParts(b[3], b[4]);
        Write([3, FT_RESYNC, b[3], b[4]], Req16(Join(b[3], b[4])));
      }
    }

    /** RS_ON_REQ. */
    method OnReq()
      requires Valid()
      modifies this`pend, this`ptmo
      ensures Valid() && State() == Receive16(d, seat, old(State()), Req16(0)).0
      ensures if seat.Host? && !hold && !old(pend) then pend && ptmo == 0 else pend == old(pend) && ptmo == old(ptmo)
    {
      if seat.Guest? || hold || pend {
        return;
      }
      pend, ptmo := true, 0;
    }

    /** NET_WRITE of one frame's bytes. */
    method Write(b: seq<byte>, ghost f: Frame16)
      requires Writable(f) && b == Bytes(f)
      modifies this`sent
      ensures Wrote(old(sent), sent, [f]) && sent == old(sent) + [b]
    {
      sent := sent + [b];
      assert Receiver.EachBytes([f]) == [b];
    }

    /** RS_ENTER_HOLD. */
    method EnterHold()
      requires Valid()
      modifies this`hold, own
      ensures Valid() && State() == old(State()).(hold := true, records := NoRecords()) && hold && Cleared(own[..])
    {
      hold := true;
      ClrCrc();
    }

    /** SB_REBASE_HOOK: restore the native countdown, clamp the phase cell. */
    method RebaseHook()
      requires Valid()
      modifies mem
      ensures Valid() && State() == old(State()).(sim := Clamp(old(State()).sim))
      ensures mem[SB_CNT2_LO] == old(mem[SC_CNT2]) && mem[SB_CNT2_HI] == old(mem[SC_CNT2 + 1])
      ensures mem[SB_PHASE] <= 8 && mem[SB_PHASE] == if old(mem[SB_PHASE]) <= 8 then old(mem[SB_PHASE]) else 0
      ensures forall a: word :: a != SB_PHASE && !(SB_CNT2_LO <= a <= SB_CNT2_HI) ==> mem[a] == old(mem[a])
    {
      ghost var before := mem[..];
      OutsideImage(mem[..], SB_CNT2_LO, mem[SC_CNT2]);
      mem[SB_CNT2_LO] := mem[SC_CNT2];
      OutsideImage(mem[..], SB_CNT2_HI, mem[SC_CNT2 + 1]);
      mem[SB_CNT2_HI] := mem[SC_CNT2 + 1];
      assert ImgGet(mem[..], PHASE_POS) == mem[SB_PHASE];
      if mem[SB_PHASE] > 8 {
        PutIsUpdate(mem[..], PHASE_POS, 0);
        mem[SB_PHASE] := 0;
        assert Carried(SB_PHASE) by { assert AddrOf(PHASE_POS) == SB_PHASE; }
      }
    }

    method SetPending(wanted: bool)
      requires Valid()
      modifies this`pend, this`ptmo
      ensures Valid() && State() == old(State()).(pend := wanted, ptmo := 0) && pend == wanted && ptmo == 0
    {
      pend, ptmo := wanted, 0;
    }

    /** The tick and the watermarks at the resume tick. */
    method Resume()
      requires Valid()
      modifies this`tickLo, this`tickHi, wms
      ensures Valid()
      ensures var c := old(State()); State() == c.(tick := c.resume, wm := Wrap(c.resume + d - 1))
      ensures tickLo == resumeLo && tickHi == resumeHi
      ensures var w := Wrap(Join(resumeLo, resumeHi) + d - 1); Marked(wms[..], Lo(w), Hi(w))
    {
      hide RecordsOf, ImageOf, Sound, RingOf;
      tickLo, tickHi := resumeLo, resumeHi;
      SetMarks(Wrap(Join(resumeLo, resumeHi) + d - 1));
    }

    method Release()
      requires Valid()
      modifies this`hold
      ensures Valid() && State() == old(State()).(hold := false) && !hold
    {
      hold := false;
    }

    /** RS_DISPLAY_RESET: the border extension and the colour stack, from the
        cart header. */
    method DisplayReset()
      requires Valid()
      modifies mem
      ensures Valid() && State() == old(State()) && DisplayShows(mem[..])
      ensures forall a: word :: !(0x28 <= a <= 0x2C) && a != 0x32 ==> mem[a] == old(mem[a])
    {
      ghost var before := mem[..];
      mem[0x32] := mem[0x500D];
      var i := 0;
      while i < 5
        invariant 0 <= i <= 5 && mem[0x32] == before[0x500D]
        invariant forall a: word :: 0x28 <= a < 0x28 + i ==> mem[a] == before[a + 0x4FE7]
        invariant forall a: word :: !(0x28 <= a < 0x28 + i) && a != 0x32 ==> mem[a] == before[a]
      {
        mem[0x28 + i] := mem[0x500F + i];
        i := i + 1;
      }
      OutsideOnly(before, mem[..]);
    }

    /** RS_CLAMP_ISR: both interrupt vectors back to the EXEC's default. */
    method ClampIsr()
      requires Valid()
      modifies mem
      ensures Valid() && State() == old(State()) && VectorsSafe(mem[..])
      ensures forall a: word :: !(0x100 <= a <= 0x101) && !(SC_ISR_SAVE <= a <= SC_ISR_SAVE + 1) ==> mem[a] == old(mem[a])
    {
      ghost var before := mem[..];
      mem[SC_ISR_SAVE], mem[0x100] := EXEC_ISR_LO, EXEC_ISR_LO;
      mem[SC_ISR_SAVE + 1], mem[0x101] := EXEC_ISR_HI, EXEC_ISR_HI;
      OutsideOnly(before, mem[..]);
    }

    /** RS_REBASE: the console as the model rebases it, the vectors and the
        display registers safe, the native countdown restored from the image, the
        phase cell one the cart's jump table has, and no other cell touched. */
    method Rebase()
      requires Valid()
      modifies this`pend, this`ptmo, this`tickLo, this`tickHi, this`hold, mem, pages, wms, own
      ensures Valid() && State() == Rebase16(d, old(State()), old(State()).resume)
      ensures VectorsSafe(mem[..]) && DisplayShows(mem[..])
      ensures mem[SB_CNT2_LO] == old(mem[SC_CNT2]) && mem[SB_CNT2_HI] == old(mem[SC_CNT2 + 1])
      ensures mem[SB_PHASE] <= 8 && mem[SB_PHASE] == if old(mem[SB_PHASE]) <= 8 then old(mem[SB_PHASE]) else 0
      ensures forall a: word :: a != SB_PHASE && !RebaseSets(a) ==> mem[a] == old(mem[a])
      ensures tickLo == resumeLo && tickHi == resumeHi && !hold && !pend && ptmo == 0
      ensures AllIdle(pages[..]) && Cleared(own[..])
      ensures var w := Wrap(Join(resumeLo, resumeHi) + d - 1); Marked(wms[..], Lo(w), Hi(w))
    {
      hide Valid, State, Clamp, Wrap, Carried, AllIdle, Cleared, Marked, Join;
      SetPending(false);
      DisplayReset();
      ClampIsr();
      NotCarried();
      RebaseHook();
      Resume();
      ResetRings();
      ClrCrc();
      Release();
    }

    /** All input rings back to idle. */
    method ResetRings()
      requires Valid()
      modifies pages
      ensures Valid() && State() == old(State()).(ring0 := IdleRing(), ring1 := IdleRing())
      ensures AllIdle(pages[..])
    {
      RingInit(pages);
    }

    // ---- the image ---------------------------------------------------------

    /** IMG_GET, by the section a position falls in. */
    method GetByte(pos: nat) returns (b: byte)
      requires Valid() && pos < IMG_TOTAL
      ensures b == ImgGet(mem[..], pos) == State().sim[pos]
    {
      WholeIsNarrow(pos);
      if pos < IMG_S1 {
        b := mem[SCRATCH + pos];
      } else if pos < IMG_S2 {
        var w := mem[BACKTAB + (pos - IMG_S1) / 2];
        b := if (pos - IMG_S1) % 2 == 0 then w % 0x100 else w / 0x100;
      } else if pos < IMG_S3 {
        var w := mem[OBJECTS + (pos - IMG_S2) / 2];
        b := if (pos - IMG_S2) % 2 == 0 then w % 0x100 else w / 0x100;
      } else {
        b := mem[Tail(pos - IMG_S3)];
      }
    }

    /** IMG_PUT: a read-modify-write of half a word, or a whole narrow cell. */
    method PutByte(pos: nat, b: byte)
      requires Valid() && pos < IMG_TOTAL
      modifies mem
      ensures Valid() && mem[..] == ImgPut(old(mem[..]), pos, b)
    {
      PutSound(mem[..], pos, b);
      if pos < IMG_S1 {
        mem[SCRATCH + pos] := b;
      } else if pos < IMG_S2 {
        var a := BACKTAB + (pos - IMG_S1) / 2;
        mem[a] := if (pos - IMG_S1) % 2 == 0 then mem[a] / 0x100 * 0x100 + b else mem[a] % 0x100 + b * 0x100;
      } else if pos < IMG_S3 {
        var a := OBJECTS + (pos - IMG_S2) / 2;
        mem[a] := if (pos - IMG_S2) % 2 == 0 then mem[a] / 0x100 * 0x100 + b else mem[a] % 0x100 + b * 0x100;
      } else {
        mem[Tail(pos - IMG_S3)] := b;
      }
    }

    /** The applier's copy loop. */
    method PutChunk(pos: nat, data: seq<byte>)
      requires Valid() && pos + |data| <= IMG_TOTAL
      modifies mem
      ensures Valid() && mem[..] == PutAll(old(mem[..]), pos, data)
      ensures State() == old(State()).(sim := Overlay(old(State()).sim, pos, data))
    {
      hide RingOf, RecordsOf, Join, ImgPut, Overlay;
      var i := 0;
      while i < |data|
        invariant 0 <= i <= |data| && Valid() && mem[..] == PutAll(old(mem[..]), pos, data[..i])
      {
        PutAllSnoc(old(mem[..]), pos, data, i);
        PutByte(pos + i, data[i]);
        i := i + 1;
      }
      assert data[..i] == data;
      PutAllOverlays(old(mem[..]), pos, data);
    }

    /** RS_ON_STATE on any frame buffer: BEGIN and END do what the model says, a
        data chunk inside a hold and wholly inside the image is laid over it,
        and everything else is refused; outside a rebase no cell but the
        image's is ever written. */
    method OnState(b: seq<byte>) returns (refused: bool)
      requires Valid() && |b| >= 2 && |b| == Total(b[0]) && b[1] == FT_STATE
      modifies this`pend, this`ptmo, this`tickLo, this`tickHi, this`hold, this`resumeLo, this`resumeHi, mem, pages, wms, own
      ensures Valid()
      ensures State() == if Read(b).Some? then Receive16(d, seat, old(State()), Read(b).value).0 else old(State())
      ensures refused <==> Refuses(b, old(hold))
      ensures refused ==> mem[..] == old(mem[..])
      ensures forall a: word :: !Carried(a) && (Read(b) == Some(End16) ==> !RebaseSets(a)) ==> mem[a] == old(mem[a])
      ensures Read(b) == Some(End16) && old(hold) ==> mem[SB_PHASE] <= 8 && !hold && !pend
      ensures !refused && b[3] == 0xFF && b[2] == 0 ==>
                hold && resumeLo == b[4] && resumeHi == b[5] && Cleared(own[..]) && mem[..] == old(mem[..])
    {
      hide RingOf, RecordsOf, ImageOf, Sound;
      refused := false;
      if b[0] < 3 {
        return true;
      }
      if b[3] == 0xFF {
        if b[2] == 0 {
          if b[0] < 5 {
            return true;
          }
          EnterHold();
          resumeLo, resumeHi := b[4], b[5];
        } else if b[2] == 1 {
          if hold {
            PhaseCarried();
            Rebase();
          }
        }
        return;
      }
      if !hold || b[0] <= 3 || b[3] >= 4 {
        return true;
      }
      var pos: int := Join(b[2], b[3]);
      var count: int := b[0] - 3;
      if pos + count >= IMG_TOTAL + 1 {
        return true;
      }
      ApplyChunk(pos, b[4..]);
    }

    /** The applier: the chunk laid over the image, and no cell outside it
        touched. */
    method ApplyChunk(pos: nat, data: seq<byte>)
      requires Valid() && pos + |data| <= IMG_TOTAL
      modifies mem
      ensures Valid() && State() == old(State()).(sim := Overlay(old(State()).sim, pos, data))
      ensures forall a: word :: !Carried(a) ==> mem[a] == old(mem[a])
    {
      hide Valid, State, Overlay;
      ghost var before := mem[..];
      PutChunk(pos, data);
      ghost var after := mem[..];
      forall a: word | !Carried(a) ensures mem[a] == before[a] {
        PutAllConfined(before, pos, data, a);
        assert mem[a] == after[a];
      }
    }

    /** Everything of the console on the heap. */
    ghost function Footprint(): set<object> {
      {this, mem, pages, own, wms, pump, pump.acc, pump.frmbuf}
    }

    /** A fault: the image cells are anything. */
    method Corrupt(sim: Sim)
      requires Valid()
      modifies mem
      ensures Valid() && State() == old(State()).(sim := sim)
    {
      WholeOverlay(State().sim, sim);
      PutChunk(0, sim);
    }

    /** The console with its session cells. */
    ghost function Session(): Unit
      requires Valid()
      reads this, mem, pages, own, wms
    {
      Unit(seat, d, dropped, State())
    }

    /** SES_ONFRAME on any frame buffer: a START begins a match whenever it
        comes, PEER_LEFT ends it, a match frame does what the model says of it,
        and anything else changes nothing. */
    method OnFrame(b: seq<byte>)
      requires Valid() && FrameBuffer(b)
      modifies this`seat, this`d, this`dropped
      modifies this`pend, this`ptmo, this`tickLo, this`tickHi, this`hold, this`resumeLo, this`resumeHi, this`sent
      modifies mem, pages, wms, own
      ensures Valid()
      ensures var (u, out) := OnFrame16(old(Session()), b); Session() == u && Wrote(old(sent), sent, out)
    {
      hide Wrote, RingOf, RecordsOf, ImageOf, Sound, Join, Receive16, AllIdle, Marked, Cleared, Pinned16, Started16, CellIn;
      WroteNothing(sent);
      if b[1] == FT_START {
        NoMatchFrame(b);
        if b[0] >= 38 {
          OnStart(b);
        }
      } else if b[1] == FT_PEER_LEFT {
        dropped := true;
        IdleRemote();
      } else {
        OnMatch(b);
      }
    }

    /** SES_ONFRAME's match frames: each does what the model says of the frame the
        buffer reads as; a short or unknown one does nothing. */
    method OnMatch(b: seq<byte>)
      requires Valid() && 2 <= |b| == Total(b[0]) && b[1] != FT_START && b[1] != FT_PEER_LEFT
      modifies this`pend, this`ptmo, this`tickLo, this`tickHi, this`hold, this`resumeLo, this`resumeHi, this`sent
      modifies mem, pages, wms, own
      ensures Valid()
      ensures if Read(b).Some? then
                var (c, out) := Receive16(d, seat, old(State()), Read(b).value);
                State() == c && Wrote(old(sent), sent, out)
              else State() == old(State()) && Wrote(old(sent), sent, [])
    {
      hide Wrote, RingOf, RecordsOf, ImageOf, Sound, Join, Rebase16, ReceiveCrc16, ReceiveInput;
      hide AllIdle, Marked, Cleared, Carried, CellIn, Refuses, Wrap, Overlay;
      WroteNothing(sent);
      if b[1] == FT_INPUT {
        if b[0] >= 6 {
          OnInput(b);
        }
      } else if b[1] == FT_CRC {
        if b[0] >= 6 {
          OnCrc(b);
        }
      } else if b[1] == FT_STATE {
        var refused := OnState(b);
      } else if b[1] == FT_RESYNC && b[0] >= 3 {
        OnReq();
      }
    }

    /** SES_PUMP on a read of at most 64 bytes: exactly the frames the pure parser
        finds in what was buffered and what came are handled, in order, its rest
        stays buffered and its slips are counted. */
    method SesPump(rx: seq<byte>)
      requires Valid() && Wired() && |rx| <= 64
      requires forall b :: b in Receiver.ParseStream(pump.Buffered() + rx).frames ==> FrameBuffer(b)
      modifies this`seat, this`d, this`dropped
      modifies this`pend, this`ptmo, this`tickLo, this`tickHi, this`hold, this`resumeLo, this`resumeHi, this`sent
      modifies mem, pages, wms, own, pump, pump.acc, pump.frmbuf
      ensures Valid() && Wired()
      ensures var p := Receiver.ParseStream(old(pump.Buffered()) + rx);
              var (u, out) := HearAll(old(Session()), p.frames);
              && Session() == u && Wrote(old(sent), sent, out)
              && pump.Buffered() == p.rest && pump.slips == old(pump.slips) + p.slips
    {
      hide Receiver.ParseStream, Receiver.Window, FrameBuffer, OnFrame16, Wrote, RingOf, RecordsOf, ImageOf, Sound, Join;
      hide HearAll;
      pump.Append(rx);
      ghost var start, whole := Session(), pump.Buffered();
      ghost var done := Receiver.Parse([], 0, whole);
      HearNone(start);
      WroteNothing(sent);
      while true
        invariant Valid() && Wired1() && |pump.Buffered()| <= 163
        invariant Receiver.ParseStream(whole) == Receiver.Then(done, Receiver.ParseStream(pump.Buffered()))
        invariant pump.slips == old(pump.slips) + done.slips
        invariant forall b :: b in done.frames ==> FrameBuffer(b)
        invariant var (u, out) := HearAll(start, done.frames); Session() == u && Wrote(old(sent), sent, out)
        decreases |pump.Buffered()|
      {
        ghost var had, before := pump.slips, sent;
        var b := pump.Next();
        if b == [] {
          ThenNothing(done, Receiver.Parse([], pump.slips - had, pump.Buffered()));
          break;
        }
        ghost var head := Receiver.Parse([b], pump.slips - had, pump.Buffered());
        ghost var rest := Receiver.ParseStream(pump.Buffered());
        Receiver.ThenAssociates(done, head, rest);
        OfFrames(done, b, rest, Receiver.ParseStream(whole).frames);
        HearOneMore(start, done.frames, b);
        ghost var u, out := Session(), HearAll(start, done.frames).1;
        OnFrame(b);
        WroteMore(old(sent), before, sent, out, OnFrame16(u, b).1);
        done := Receiver.Then(done, head);
      }
    }

    /** As Wired, in the middle of a pump. */
    ghost predicate Wired1()
      reads this, pump
    {
      && pump.acc.Length == Receiver.RING && pump.frmbuf.Length == 0x80 && pump.acc != pump.frmbuf
      && pump.acc != pages && pump.acc != own && pump.acc != wms
      && pump.frmbuf != pages && pump.frmbuf != own && pump.frmbuf != wms
    }

    // ---- the push ----------------------------------------------------------

    /** The payload loop of one chunk. */
    method ChunkBytes(pos: nat, n: nat) returns (data: seq<byte>)
      requires Valid() && pos + n <= IMG_TOTAL
      ensures data == ImageOf(mem[..])[pos..pos + n]
    {
      data := [];
      var i := 0;
      while i < n
        invariant 0 <= i <= n && data == ImageOf(mem[..])[pos..pos + i]
      {
        var b := GetByte(pos + i);
        data := data + [b];
        i := i + 1;
      }
    }

    /** One chunk frame. */
    method PushChunk(pos: nat)
      requires Valid() && pos < IMG_TOTAL
      modifies this`sent
      ensures Valid() && State() == old(State())
      ensures Wrote(old(sent), sent, [Chunk16(pos, ImageOf(mem[..])[pos..pos + ChunkLen(pos)])])
    {
      var n := ChunkLen(pos);
      var data := ChunkBytes(pos, n);
      Write([n + 3, FT_STATE, pos % 0x100, pos / 0x100] + data, Chunk16(pos, data));
    }

    method PushEnd()
      requires Valid()
      modifies this`sent
      ensures Valid() && State() == old(State()) && Wrote(old(sent), sent, [End16])
    {
      Write([3, FT_STATE, 1, 0xFF], End16);
    }

    /** The chunk loop: every remaining chunk, then END. */
    method PushChunks()
      requires Valid()
      modifies this`sent
      ensures Valid() && State() == old(State())
      ensures Wrote(old(sent), sent, Chunks16(ImageOf(mem[..]), 0))
    {
      hide Wrote, ImageOf, Chunks16, RingOf, RecordsOf, Join, State;
      ghost var s := ImageOf(mem[..]);
      ghost var done: seq<Frame16> := [];
      WroteNothing(sent);
      var pos := 0;
      while pos < IMG_TOTAL
        invariant 0 <= pos <= IMG_TOTAL && Valid() && State() == old(State()) && Wrote(old(sent), sent, done)
        invariant Chunks16(s, 0) == done + Chunks16(s, pos)
      {
        ghost var before := sent;
        PushChunk(pos);
        ghost var f := Chunk16(pos, s[pos..pos + ChunkLen(pos)]);
        ChunksStep(s, pos);
        WroteMore(old(sent), before, sent, done, [f]);
        assert done + ([f] + Chunks16(s, pos + ChunkLen(pos))) == done + [f] + Chunks16(s, pos + ChunkLen(pos));
        done := done + [f];
        pos := pos + ChunkLen(pos);
      }
      ghost var before := sent;
      ChunksEnd(s);
      PushEnd();
      WroteMore(old(sent), before, sent, done, [End16]);
    }

    /** RS_PUSH. */
    method Push()
      requires Valid()
      modifies this`pend, this`ptmo, this`tickLo, this`tickHi, this`hold, this`resumeLo, this`resumeHi, this`sent
      modifies mem, pages, wms, own
      ensures Valid()
      ensures var (c, out) := Push16(d, old(State())); State() == c && Wrote(old(sent), sent, out)
    {
      hide Valid, State, Wrote, Wrap, Clamp, Chunks16, Rebase16, Push16, ImageOf;
      ghost var start := State();
      HeldImage();
      var r := Announce();
      ghost var before := sent;
      HeldImage();
      ghost var held := State();
      PushChunks();
      WroteMore(old(sent), before, sent, [Begin16(r)], Chunks16(start.sim, 0));
      Rebase();
      PushedIs(d, start, held, r);
    }

    lemma HeldImage()
      requires Valid()
      ensures Sound(mem[..]) && State().sim == ImageOf(mem[..])
    {
    }

    /** The hold and BEGIN of a push. */
    method Announce() returns (r: word)
      requires Valid()
      modifies this`hold, this`resumeLo, this`resumeHi, this`sent, own
      ensures Valid() && r == Wrap(old(State()).tick + 16)
      ensures State() == old(State()).(hold := true, records := NoRecords(), resume := r)
      ensures Wrote(old(sent), sent, [Begin16(r)])
    {
      EnterHold();
      r := Wrap(Join(tickLo, tickHi) + 16);
      JoinSplit(r);
      resumeLo, resumeHi := Lo(r), Hi(r);
      Write([5, FT_STATE, 0, 0xFF, resumeLo, resumeHi], Begin16(r));
    }

    /** RS_PENDING: a host with a resync wanted pushes when the phase cell is zero
        or on the 60th call, and otherwise counts the call and waits. */
    method Pending()
      requires Valid()
      modifies this`pend, this`ptmo, this`tickLo, this`tickHi, this`hold, this`resumeLo, this`resumeHi, this`sent
      modifies mem, pages, wms, own
      ensures Valid()
      ensures var (c, out) := Pending16(d, seat, old(State())); State() == c && Wrote(old(sent), sent, out)
      ensures !old(pend) || seat.Guest? || old(hold) ==> sent == old(sent) && mem[..] == old(mem[..])
      ensures old(pend) && seat.Host? && !old(hold) ==>
                if old(mem[SB_PHASE]) == 0 || old(ptmo) == 59 then
                  !pend && Join(tickLo, tickHi) == Wrap(Join(old(tickLo), old(tickHi)) + 16) && |sent| > |old(sent)|
                else
                  && pend && ptmo == old(ptmo) + 1 && sent == old(sent) && mem[..] == old(mem[..])
                  && tickLo == old(tickLo) && tickHi == old(tickHi)
    {
      hide Wrote, RingOf, RecordsOf, ImageOf, Push16, Sound;
      WroteNothing(sent);
      if !pend || seat.Guest? || hold {
        return;
      }
      var phase := GetByte(PHASE_POS);
      if phase == 0 || ptmo + 1 >= Ideal.PEND_MAX {
        CountedPush(d, State(), ptmo + 1);
        PushedTick(d, State());
        ghost var before := sent;
        Push();
        WroteSome(before, sent, Push16(d, old(State())).1);
      } else {
        ptmo := ptmo + 1;
      }
    }

    // ---- the pass ----------------------------------------------------------

    /** Capture: the local input goes into our own seat's ring and onto the
        wire, for tick T+d. */
    method Capture(cell: Cell)
      requires Valid()
      modifies this`sent, this`gate, pages
      ensures Valid()
      ensures var (c, out) := Capture16(d, seat, old(State()), cell); State() == c && Wrote(old(sent), sent, out)
      ensures var t := Wrap(Join(tickLo, tickHi) + d);
              && CellIn(pages[..], SeatNo(seat), Lo(t)) == cell
              && sent == old(sent) + [[6, FT_INPUT, SeatNo(seat), Lo(t), Hi(t), cell.dec, cell.kp]]
    {
      hide RecordsOf, ImageOf, Sound, Join, Bytes, Wrote, RingOf, CellIn;
      var t := Wrap(Join(tickLo, tickHi) + d);
      LowOf(t);
      InputBytes(SeatNo(seat), t, cell);
      StoreCell(pages, SeatNo(seat), Lo(t), cell);
      Write([6, FT_INPUT, SeatNo(seat), Lo(t), Hi(t), cell.dec, cell.kp], Input16(SeatNo(seat), t, cell));
      gate := true;
    }

    /** The gate loop over the seats: open when the match is over or every remote
        watermark has reached the tick. */
    method GateOpen() returns (open: bool)
      requires Valid()
      ensures open <==> dropped || Open16(State())
      ensures open <==> dropped || Wrap(Join(wms[2 * Peer()], wms[2 * Peer() + 1]) - Join(tickLo, tickHi)) < 0x8000
    {
      if dropped {
        return true;
      }
      var q := 0;
      while q < SEATS
        invariant 0 <= q <= SEATS && (q > Peer() ==> Open16(State()))
      {
        if q != SeatNo(seat) {
          var delta := Wrap(Join(wms[2 * q], wms[2 * q + 1]) - Join(tickLo, tickHi));
          if Negative(delta) {
            return false;
          }
        }
        q := q + 1;
      }
      return true;
    }

    /** The cart's tick, a function of its state and of the two slots of both
        seats, written back cell by cell. */
    method CartTick(cart: (Sim, Inputs, word) -> Sim)
      requires Valid()
      modifies mem
      ensures Valid() && State() == old(State()).(sim := cart(old(State()).sim, Reads16(old(State())), old(State()).tick))
      ensures State().sim == cart(old(State()).sim, SlotsOf(pages[..], tickLo), old(State()).tick)
    {
      hide RingOf, RecordsOf, ImageOf, Sound, Join, Reads16, Overlay;
      var now := ChunkBytes(0, IMG_TOTAL);
      var i := ReadSlots();
      assert now == State().sim;
      var next := cart(now, i, Join(tickLo, tickHi));
      WholeOverlay(now, next);
      PutChunk(0, next);
    }

    /** The two slots a tick reads, of both seats: the page cells at the low tick
        byte and at the one before. */
    method ReadSlots() returns (i: Inputs)
      requires Valid()
      ensures i == Reads16(State())
      ensures i.cur0 == CellIn(pages[..], 0, tickLo) && i.prev0 == CellIn(pages[..], 0, Before(tickLo))
      ensures i.cur1 == CellIn(pages[..], 1, tickLo) && i.prev1 == CellIn(pages[..], 1, Before(tickLo))
    {
      JoinLow(tickLo, tickHi);
      hide RecordsOf, ImageOf, Sound, Join;
      var cur := Join(tickLo, tickHi) % 256;
      var prev := (cur + 255) % 256;
      i := Inputs(Cell(pages[cur], pages[SEAT_PAGES + cur]), Cell(pages[prev], pages[SEAT_PAGES + prev]),
                  Cell(pages[0x100 + cur], pages[SEAT_PAGES + 0x100 + cur]),
                  Cell(pages[0x100 + prev], pages[SEAT_PAGES + 0x100 + prev]));
    }

    /** The stretch of LS_PASS from an open gate to its end: tick, report,
        tick counter, pending push. */
    method RunTick(cfg: Ideal.Config)
      requires Valid() && cfg.d == d
      modifies this`pend, this`ptmo, this`tickLo, this`tickHi, this`hold, this`resumeLo, this`resumeHi, this`sent, this`gate
      modifies mem, pages, wms, own
      ensures Valid()
      ensures var (c, out) := PlayAndPend16(cfg, seat, old(State())); State() == c && Wrote(old(sent), sent, out)
      ensures !old(pend) ==>
                State().sim == cfg.cart(old(State()).sim, old(SlotsOf(pages[..], tickLo)), old(State()).tick)
    {
      hide RingOf, RecordsOf, ImageOf, Sound, Wrote, Play16, Pending16, Join, SlotsOf;
      Tick(cfg);
      ghost var before, c := sent, State();
      Pending();
      WroteMore(old(sent), before, sent, Play16(cfg, seat, old(State())).1, Pending16(d, seat, c).1);
    }

    method Tick(cfg: Ideal.Config)
      requires Valid() && cfg.d == d
      modifies this`tickLo, this`tickHi, this`sent, this`gate, mem, own
      ensures Valid()
      ensures var (c, out) := Play16(cfg, seat, old(State())); State() == c && Wrote(old(sent), sent, out)
      ensures pend == old(pend)
      ensures State().sim == cfg.cart(old(State()).sim, old(SlotsOf(pages[..], tickLo)), old(State()).tick)
    {
      hide Wrote, RingOf, RecordsOf, ImageOf, Sound, Reads16, Checksum, Slot, SlotsOf;
      ghost var start := State();
      CartTick(cfg.cart);
      WroteNothing(sent);
      TickUp(tickLo, tickHi);
      if tickLo % 64 == 0 {
        Report();
      }
      CountTick();
    }

    // ---- the pass against the model ---------------------------------------

    /** The console stands where the model has it, and its buffer holds the first
        bytes of what is in flight to it. */
    ghost predicate At16(t: System16)
      requires Valid()
      reads this, mem, pages, own, wms, pump, pump.acc, pump.frmbuf
    {
      Wired() && !dropped && State() == Get16(t, seat) && Carries(t, seat, pump.Buffered())
    }

    /** A pump against the model's. */
    method PumpOn(rx: seq<byte>, ghost t: System16, ghost k: nat) returns (ghost out: seq<Frame16>)
      requires Valid() && At16(t) && Reads(t, seat, k, rx)
      modifies this`seat, this`d, this`dropped
      modifies this`pend, this`ptmo, this`tickLo, this`tickHi, this`hold, this`resumeLo, this`resumeHi, this`sent
      modifies mem, pages, wms, own, pump, pump.acc, pump.frmbuf
      ensures Valid() && seat == old(seat) && d == old(d) && pump.slips == old(pump.slips)
      ensures var u := Pump16(d, t, seat, k);
              At16(u) && Stepped(t, u, seat, out) && Wrote(old(sent), sent, out)
    {
      hide Receiver.ParseStream, Writable, Bytes, AllBytes, RingOf, RecordsOf, ImageOf, Sound, Join, Pump16, Heard16;
      hide HearFrames, HearAll, Wrote, FrameBuffer, Receiver.Window;
      ghost var was, fs := Session(), Inbound16(t, seat);
      ghost var n := Frames.Whole(fs, |pump.Buffered() + rx|);
      ghost var p := Receiver.ParseStream(pump.Buffered() + rx);
      PumpParses(d, t, seat, k, pump.Buffered(), rx);
      SomeWritable(fs, n);
      HearHonest(was, fs[..n]);
      SesPump(rx);
      ghost var r := HearFrames(was.d, was.seat, was.con, fs[..n]);
      HeardSteps(t, seat, r, n, |p.rest|);
      out := r.1;
    }

    /** The next stretch of LS_PASS, against the model's step: what the console
        then is, what it wrote and what it has buffered of its peer's stream. */
    method Go(cfg: Ideal.Config, rx: seq<byte>, cell: Cell, ghost t: System16, ghost k: nat)
      returns (read: bool, ghost out: seq<Frame16>)
      requires Valid() && cfg.d == d && At16(t) && Reads(t, seat, k, rx)
      modifies this`seat, this`d, this`dropped, this`gate
      modifies this`pend, this`ptmo, this`tickLo, this`tickHi, this`hold, this`resumeLo, this`resumeHi, this`sent
      modifies mem, pages, wms, own, pump, pump.acc, pump.frmbuf
      ensures Valid() && seat == old(seat) && d == old(d) && pump.slips == old(pump.slips)
      ensures read <==> !(old(gate) && Open16(old(State())))
      ensures !read ==> pump.Buffered() == old(pump.Buffered())
      ensures var u := Step16(cfg, t, Ideal.Go(seat, k, cell));
              At16(u) && Stepped(t, u, seat, out) && Wrote(old(sent), sent, out)
    {
      hide Writable, Bytes, AllBytes, RingOf, RecordsOf, ImageOf, Sound, Join, Pump16, Wrote, PlayAndPend16, Capture16;
      hide Receiver.Window, Stepped, Emit16, Open16;
      read := true;
      if gate {
        var open := GateOpen();
        if open {
          read := false;
          EmitSteps(t, seat, PlayAndPend16(cfg, seat, State()));
          out := PlayAndPend16(cfg, seat, State()).1;
          RunTick(cfg);
        } else {
          out := PumpOn(rx, t, k);
        }
      } else {
        var held := hold;
        out := PumpOn(rx, t, k);
        if !held {
          ghost var u, before := Pump16(d, t, seat, k), sent;
          ghost var r := Capture16(d, seat, State(), cell);
          Capture(cell);
          EmitSteps(u, seat, r);
          SteppedTwice(t, u, Emit16(u, seat, r), seat, out, r.1);
          WroteMore(old(sent), before, sent, out, r.1);
          out := out + r.1;
        }
      }
    }

    /** The checksum report. */
    method Report()
      requires Valid()
      modifies this`sent, own, mem
      ensures Valid()
      ensures var c := old(State());
              var crc := Checksum(c.sim);
              && State() == c.(records := c.records[Slot(c.tick) := Rec(c.tick, crc)])
              && Wrote(old(sent), sent, [Crc16(SeatNo(seat), c.tick, crc)])
              && sent == old(sent) + [[6, FT_CRC, SeatNo(seat), tickLo, tickHi, Lo(crc), Hi(crc)]]
    {
      DisplayReset();
      var crc := Cksum.LsCksum(mem);
      RecordCrc(crc);
      JoinParts(tickLo, tickHi);
      Write([6, FT_CRC, SeatNo(seat), tickLo, tickHi, Lo(crc), Hi(crc)], Crc16(SeatNo(seat), Join(tickLo, tickHi), crc));
    }

    /** tick++, byte by byte. */
    method CountTick()
      requires Valid()
      modifies this`tickLo, this`tickHi, this`gate
      ensures Valid() && State() == old(State()).(tick := Wrap(old(State()).tick + 1), gate := false)
    {
      TickUp(tickLo, tickHi);
      if tickLo == 0xFF {
        tickLo, tickHi := 0, if tickHi == 0xFF then 0 else tickHi + 1;
      } else {
        tickLo := tickLo + 1;
      }
      gate := false;
    }
  }

  lemma SomeWritable(fs: seq<Frame16>, n: nat)
    requires AllWritable(fs) && n <= |fs|
    ensures AllWritable(fs[..n]) && AllWritable(fs[n..])
  {
  }

  lemma HearNone(u: Unit)
    ensures HearAll(u, []) == (u, [])
  {
  }

  lemma ThenNothing(done: Receiver.Parse, last: Receiver.Parse)
    requires last.frames == []
    ensures Receiver.Then(done, last) == Receiver.Parse(done.frames, done.slips + last.slips, last.rest)
  {
    assert done.frames + [] == done.frames;
  }

  lemma OfFrames(done: Receiver.Parse, b: seq<byte>, rest: Receiver.Parse, frames: seq<seq<byte>>)
    requires frames == done.frames + [b] + rest.frames && forall x :: x in frames ==> FrameBuffer(x)
    ensures FrameBuffer(b)
  {
    assert frames[|done.frames|] == b;
  }

  lemma SlotOfTick(lo: byte, hi: byte)
    ensures Slot(Join(lo, hi)) == (lo / 64) % 8 == lo / 64
  {
    JoinLow(lo, hi);
    hide Join;
  }

  lemma RecordStored(before: seq<byte>, after: seq<byte>, k: nat, r: Rec)
    requires |before| == |after| == OWN_CELLS && k < 8
    requires forall i :: 0 <= i < OWN_CELLS && i / 4 != k ==> after[i] == before[i]
    requires RecordAt(after, k) == r
    ensures RecordsOf(after) == RecordsOf(before)[k := r]
  {
    forall j | 0 <= j < 8 && j != k ensures RecordAt(after, j) == RecordAt(before, j) {
      assert (4 * j) / 4 == j && (4 * j + 1) / 4 == j && (4 * j + 2) / 4 == j && (4 * j + 3) / 4 == j;
    }
  }

  lemma WroteNothing(sent: seq<seq<byte>>)
    ensures Wrote(sent, sent, [])
  {
    assert Receiver.EachBytes([]) == [];
  }

  lemma JoinInjective(lo: byte, hi: byte, lo': byte, hi': byte)
    ensures Join(lo, hi) == Join(lo', hi') <==> lo == lo' && hi == hi'
  {
  }

  lemma JoinParts(lo: byte, hi: byte)
    ensures Lo(Join(lo, hi)) == lo && Hi(Join(lo, hi)) == hi
  {
  }

  lemma JoinLow(lo: byte, hi: byte)
    ensures Join(lo, hi) % 256 == lo
  {
  }

  /** Cells that are no part of the image. */
  lemma OutsideImage(m: Mem, a: word, v: word)
    requires Sound(m) && !Carried(a) && (Narrow(a) ==> v < 0x100)
    ensures Sound(m[a := v]) && ImageOf(m[a := v]) == ImageOf(m)
  {
    forall pos: nat | pos < IMG_TOTAL ensures ImgGet(m, pos) == Part(m[a := v][AddrOf(pos)], LaneOf(pos)) {
      assert Carried(AddrOf(pos));
    }
  }

  /** Memories that differ outside the image alone show the same image. */
  lemma OutsideOnly(m: Mem, n: Mem)
    requires Sound(m) && Sound(n) && forall pos: nat :: pos < IMG_TOTAL ==> n[AddrOf(pos)] == m[AddrOf(pos)]
    ensures ImageOf(n) == ImageOf(m)
  {
    forall pos: nat | pos < IMG_TOTAL ensures ImgGet(n, pos) == ImgGet(m, pos) {
    }
  }

  /** The two seed cells are image cells. */
  lemma SeedOnly(m: Mem, lo: byte, hi: byte)
    requires Sound(m)
    ensures var n := m[RNG_LO := lo][RNG_HI := hi]; Sound(n) && ImageOf(n) == Seeded(ImageOf(m), lo, hi)
  {
    PutIsUpdate(m, IMG_S3, lo);
    PutIsUpdate(ImgPut(m, IMG_S3, lo), IMG_S3 + 1, hi);
  }

  lemma PhaseCarried()
    ensures Carried(SB_PHASE)
  {
    assert AddrOf(PHASE_POS) == SB_PHASE;
  }

  lemma NotCarried()
    ensures forall a: word :: RebaseSets(a) ==> !Carried(a)
    ensures forall a: word :: 0x500D <= a <= 0x5013 ==> !Carried(a)
  {
  }

  lemma WroteMore(a: seq<seq<byte>>, b: seq<seq<byte>>, c: seq<seq<byte>>, out: seq<Frame16>, more: seq<Frame16>)
    requires Wrote(a, b, out) && Wrote(b, c, more)
    ensures Wrote(a, c, out + more)
  {
    hide Bytes, Writable;
    var x, y, z := Receiver.EachBytes(out), Receiver.EachBytes(more), Receiver.EachBytes(out + more);
    forall i | 0 <= i < |z| ensures z[i] == (x + y)[i] {
      assert (out + more)[i] == if i < |out| then out[i] else more[i - |out|];
    }
    assert a + (x + y) == a + x + y;
  }

  lemma TickUp(lo: byte, hi: byte)
    ensures Wrap(Join(lo, hi) + 1) == if lo == 0xFF then Join(0, if hi == 0xFF then 0 else hi + 1) else Join(lo + 1, hi)
    ensures Join(lo, hi) % 64 == lo % 64
  {
    assert Join(lo, hi) == 64 * (4 * hi) + lo;
  }

  lemma ChunksStep(s: Sim, pos: nat)
    requires pos < IMG_TOTAL
    ensures Chunks16(s, pos) == [Chunk16(pos, s[pos..pos + ChunkLen(pos)])] + Chunks16(s, pos + ChunkLen(pos))
  {
  }

  lemma ChunksEnd(s: Sim)
    ensures Chunks16(s, IMG_TOTAL) == [End16]
  {
  }

  lemma WholeOverlay(s: Sim, next: Sim)
    ensures Overlay(s, 0, next) == next
  {
  }

  lemma PushedIs(d: nat, start: Con16, held: Con16, r: word)
    requires r == Wrap(start.tick + 16) && held == start.(hold := true, records := NoRecords(), resume := r)
    ensures Push16(d, start) == (Rebase16(d, held, r), [Begin16(r)] + Chunks16(start.sim, 0))
  {
    hide Chunks16, Clamp;
    assert Rebase16(d, held, r) == Rebase16(d, start.(resume := r), r);
  }

  lemma CountedPush(d: nat, c: Con16, ptmo: nat)
    ensures Push16(d, c.(ptmo := ptmo)) == Push16(d, c)
  {
    hide Chunks16, Clamp;
  }

  lemma PushedTick(d: nat, c: Con16)
    ensures Push16(d, c).0.tick == Wrap(c.tick + 16) && !Push16(d, c).0.pend && |Push16(d, c).1| > 0
  {
    hide Chunks16, Clamp;
  }

  lemma WroteSome(before: seq<seq<byte>>, after: seq<seq<byte>>, out: seq<Frame16>)
    requires Wrote(before, after, out) && |out| > 0
    ensures |after| > |before|
  {
  }

  lemma AheadIs(delta: word)
    ensures Negative(delta) || delta == 0 <==> !(0 < delta < 0x8000)
  {
  }

  lemma NoMatchFrame(b: seq<byte>)
    requires 2 <= |b| == Total(b[0]) && b[1] == FT_START
    ensures Read(b).None?
  {
  }

  lemma LowOf(t: word)
    ensures Lo(t) == t % 256
  {
  }

  lemma InputBytes(seat: byte, t: word, cell: Cell)
    ensures var f := Input16(seat, t, cell); Writable(f) && Bytes(f) == [6, FT_INPUT, seat, Lo(t), Hi(t), cell.dec, cell.kp]
  {
  }

  lemma PinnedMark(lo: byte, hi: byte)
    ensures Join(lo, (hi + 0x40) % 0x100) == Wrap(Join(lo, hi) + 0x4000)
  {
  }

  /** A pinned watermark keeps the gate open for the next 16384 ticks. */
  lemma PinnedStaysOpen(c: Con16, k: nat)
    requires c.wm == Wrap(c.tick + 0x4000)
    ensures k <= 0x4000 ==> Open16(c.(tick := Wrap(c.tick + k)))
  {
    if k <= 0x4000 {
      DeltaOrders(c.tick + 0x4000, c.tick + k);
    }
  }
}
