/** The protocol as the console runs it: 16-bit ticks and watermarks compared
    by the sign of their difference, 256-slot rings addressed by the low tick
    byte, a checksum record ring of which four slots are ever used, and frames
    that carry no epoch. */
module Console16 {
  import opened Words
  import opened GameState
  import Ideal

  type Seat = Ideal.Seat

  type Ring = r: seq<Cell> | |r| == 256
    witness seq(256, i => IDLE)

  /** LS_RING_INIT's fill of one page pair. */
  function IdleRing(): Ring {
    seq(256, i => IDLE)
  }

  datatype Rec = Rec(tick: word, crc: word)

  /** What RS_CLR_CRC fills the records with: no 64-tick boundary has a low
      byte of $FF. */
  const NO_RECORD := Rec(0xFFFF, 0xFFFF)

  type Records = r: seq<Rec> | |r| == 8
    witness seq(8, i => NO_RECORD)

  function NoRecords(): Records {
    seq(8, i => NO_RECORD)
  }

  datatype Frame16 =
    | Input16(seat: byte, t: word, cell: Cell)
    | Crc16(seat: byte, t: word, crc: word)
    | Req16(t: word)
    | Begin16(r: word)
    | Chunk16(pos: nat, data: seq<byte>)
    | End16

  function Size16(f: Frame16): nat {
    match f
    case Input16(_, _, _) => 7
    case Crc16(_, _, _) => 7
    case Req16(_) => 4
    case Begin16(_) => 6
    case Chunk16(_, data) => 4 + |data|
    case End16 => 4
  }

  datatype Con16 = Con16(
    tick: word,
    gate: bool,
    hold: bool,
    pend: bool,
    ptmo: nat,
    resume: word,
    wm: word,             // watermark of the other seat
    ring0: Ring,
    ring1: Ring,
    records: Records,
    sim: Sim
  )

  function SeatNo(seat: Seat): byte {
    if seat.Host? then 0 else 1
  }

  const SEATS := 2

  /** Seat-absolute ring store. */
  function Store(c: Con16, seat: byte, t: word, cell: Cell): Con16 {
    if seat == 0 then c.(ring0 := c.ring0[t % 256 := cell])
    else c.(ring1 := c.ring1[t % 256 := cell])
  }

  function Slot(t: word): nat {
    (t % 256) / 64
  }

  /** SES_ONFRAME's input branch: another seat's INPUT strictly ahead of its
      watermark, by the sign of the 16-bit difference. */
  function ReceiveInput(seat: Seat, c: Con16, from: byte, t: word, cell: Cell): Con16 {
    var delta := Wrap(t - c.wm);
    if from == SeatNo(seat) || from >= SEATS || Negative(delta) || delta == 0 then c
    else Store(c, from, t, cell).(wm := t)
  }

  /** RS_ON_CRC. */
  function ReceiveCrc16(seat: Seat, c: Con16, t: word, crc: word): (Con16, seq<Frame16>) {
    if c.hold || c.pend || c.records[Slot(t)].tick != t || c.records[Slot(t)].crc == crc then (c, [])
    else (c.(pend := true, ptmo := 0), if seat.Host? then [] else [Req16(t)])
  }

  /** RS_REBASE. */
  function Rebase16(d: nat, c: Con16, r: word): Con16 {
    c.(pend := false, ptmo := 0, sim := Clamp(c.sim), tick := r,
       ring0 := IdleRing(), ring1 := IdleRing(), wm := Wrap(r + d - 1),
       records := NoRecords(), hold := false)
  }

  /** RS_ON_STATE on a data chunk: only inside a hold, only non-empty, only
      wholly inside the image. */
  predicate ChunkAccepted(hold: bool, pos: nat, n: nat) {
    hold && n > 0 && pos / 0x100 < 4 && pos + n <= IMG_TOTAL
  }

  function Receive16(d: nat, seat: Seat, c: Con16, f: Frame16): (Con16, seq<Frame16>) {
    match f
    case Input16(from, t, cell) => (ReceiveInput(seat, c, from, t, cell), [])
    case Crc16(_, t, crc) => ReceiveCrc16(seat, c, t, crc)
    case Req16(_) =>
      if seat.Host? && !c.hold && !c.pend then (c.(pend := true, ptmo := 0), []) else (c, [])
    case Begin16(r) => (c.(hold := true, resume := r, records := NoRecords()), [])
    case Chunk16(pos, data) =>
      if ChunkAccepted(c.hold, pos, |data|) then (c.(sim := Overlay(c.sim, pos, data)), []) else (c, [])
    case End16 => if c.hold then (Rebase16(d, c, c.resume), []) else (c, [])
  }

  function Capture16(d: nat, seat: Seat, c: Con16, cell: Cell): (Con16, seq<Frame16>) {
    var t := Wrap(c.tick + d);
    (Store(c, SeatNo(seat), t, cell).(gate := true), [Input16(SeatNo(seat), t, cell)])
  }

  /** The gate's test for one remote seat. */
  predicate Open16(c: Con16) {
    !Negative(Wrap(c.wm - c.tick))
  }

  function Reads16(c: Con16): Inputs {
    var cur := c.tick % 256;
    var prev := (cur + 255) % 256;
    Inputs(c.ring0[cur], c.ring0[prev], c.ring1[cur], c.ring1[prev])
  }

  function Play16(cfg: Ideal.Config, seat: Seat, c: Con16): (Con16, seq<Frame16>) {
    var s := cfg.cart(c.sim, Reads16(c), c.tick);
    var c1 := c.(sim := s, gate := false, tick := Wrap(c.tick + 1));
    if c.tick % 64 == 0 then
      var crc := Checksum(s);
      (c1.(records := c.records[Slot(c.tick) := Rec(c.tick, crc)]), [Crc16(SeatNo(seat), c.tick, crc)])
    else (c1, [])
  }

  function Chunks16(s: Sim, pos: nat): seq<Frame16>
    requires pos <= IMG_TOTAL
    decreases IMG_TOTAL - pos
  {
    if pos == IMG_TOTAL then [End16]
    else [Chunk16(pos, s[pos..pos + ChunkLen(pos)])] + Chunks16(s, pos + ChunkLen(pos))
  }

  /** RS_PUSH. */
  function Push16(d: nat, c: Con16): (Con16, seq<Frame16>) {
    var r := Wrap(c.tick + 16);
    (Rebase16(d, c.(resume := r), r), [Begin16(r)] + Chunks16(c.sim, 0))
  }

  /** RS_PENDING. */
  function Pending16(d: nat, seat: Seat, c: Con16): (Con16, seq<Frame16>) {
    if !c.pend || seat.Guest? || c.hold then (c, [])
    else
      var c1 := c.(ptmo := c.ptmo + 1);
      if Quiescent(c.sim) || c1.ptmo >= Ideal.PEND_MAX then Push16(d, c1) else (c1, [])
  }

  function PlayAndPend16(cfg: Ideal.Config, seat: Seat, c: Con16): (Con16, seq<Frame16>) {
    var (c1, out1) := Play16(cfg, seat, c);
    var (c2, out2) := Pending16(cfg.d, seat, c1);
    (c2, out1 + out2)
  }

  datatype System16 = System16(
    host: Con16, guest: Con16,
    down: seq<Frame16>, up: seq<Frame16>,
    downAcc: nat, upAcc: nat
  )

  function Get16(s: System16, seat: Seat): Con16 {
    if seat.Host? then s.host else s.guest
  }

  function Inbound16(s: System16, seat: Seat): seq<Frame16> {
    if seat.Host? then s.up else s.down
  }

  function Buffered16(s: System16, seat: Seat): nat {
    if seat.Host? then s.upAcc else s.downAcc
  }

  function Emit16(s: System16, seat: Seat, r: (Con16, seq<Frame16>)): System16 {
    if seat.Host? then s.(host := r.0, down := s.down + r.1)
    else s.(guest := r.0, up := s.up + r.1)
  }

  predicate Ready16(s: System16, seat: Seat) {
    Inbound16(s, seat) != [] && Size16(Inbound16(s, seat)[0]) <= Buffered16(s, seat)
  }

  function Deliver16(d: nat, s: System16, seat: Seat): System16
    requires Ready16(s, seat)
  {
    var f := Inbound16(s, seat)[0];
    var s1 := if seat.Host? then s.(up := s.up[1..], upAcc := s.upAcc - Size16(f))
              else s.(down := s.down[1..], downAcc := s.downAcc - Size16(f));
    Emit16(s1, seat, Receive16(d, seat, Get16(s, seat), f))
  }

  function Drain16(d: nat, s: System16, seat: Seat): System16
    decreases |Inbound16(s, seat)|
  {
    if Ready16(s, seat) then Drain16(d, Deliver16(d, s, seat), seat) else s
  }

  function Bytes16(ch: seq<Frame16>): nat {
    if ch == [] then 0 else Size16(ch[0]) + Bytes16(ch[1..])
  }

  function Pump16(d: nat, s: System16, seat: Seat, k: nat): System16
  {
    var avail := Bytes16(Inbound16(s, seat)) - Buffered16(s, seat);
    var n := if k <= Ideal.READ_MAX then k else Ideal.READ_MAX;
    var m := if avail < 0 then 0 else if n <= avail then n else avail;
    var s1 := if seat.Host? then s.(upAcc := s.upAcc + m) else s.(downAcc := s.downAcc + m);
    Drain16(d, s1, seat)
  }

  function Step16(cfg: Ideal.Config, s: System16, a: Ideal.Action): System16 {
    match a
    case Fault(seat, sim) => Emit16(s, seat, (Get16(s, seat).(sim := sim), []))
    case Poll(seat, k) => if Get16(s, seat).gate then s else Pump16(cfg.d, s, seat, k)
    case Go(seat, k, cell) =>
      var c := Get16(s, seat);
      if c.gate then
        if Open16(c) then Emit16(s, seat, PlayAndPend16(cfg, seat, c)) else Pump16(cfg.d, s, seat, k)
      else
        var s1 := Pump16(cfg.d, s, seat, k);
        if c.hold then s1 else Emit16(s1, seat, Capture16(cfg.d, seat, Get16(s1, seat), cell))
  }

  function Run16(cfg: Ideal.Config, s: System16, acts: seq<Ideal.Action>): System16
    decreases |acts|
  {
    if acts == [] then s else Step16(cfg, Run16(cfg, s, acts[..|acts| - 1]), acts[|acts| - 1])
  }

  /** Both consoles just after the START frame, whose handler stores d-1 in the
      watermarks' low bytes alone. */
  function Start16(cfg: Ideal.Config, sim: Sim): System16 {
    var c := Con16(0, false, false, false, 0, 0, (cfg.d + 255) % 256, IdleRing(), IdleRing(), NoRecords(), sim);
    System16(c, c, [], [], 0, 0)
  }
}
