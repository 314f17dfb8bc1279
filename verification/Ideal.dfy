/** The lockstep and resync protocol as it is meant: unbounded ticks, every
    INPUT ever sent on record, and frames filed under the epoch they were sent
    in, so that no frame of a dead epoch can be mistaken for a live one.

    A console steps through LS_PASS: a transport pump, input capture, a gate
    that waits for the peer's input, the game tick, and the deferred push. */
module Ideal {
  import opened Words
  import opened GameState
  import opened Wire

  datatype Seat = Host | Guest

  /** The input delay, and the cart's tick with the painting that follows it, as an
      arbitrary function of the state, the cells read and the 16-bit tick. */
  datatype Config = Config(d: nat, cart: (Sim, Inputs, word) -> Sim)

  predicate Legal(cfg: Config) {
    1 <= cfg.d <= 127
  }

  datatype Con = Con(
    ep: Epoch,
    tick: nat,
    gate: bool,               // inside LS_PASS, input captured, gate not passed
    pend: bool,
    ptmo: nat,
    sim: Sim,
    rx: Wire,
    tx: Wire,
    // record of the run
    used: map<At, Inputs>,    // what each tick read
    sims: map<At, Sim>,       // state at the start of each tick
    seen: set<At>,            // peer checksums delivered while live
    compared: set<At>,        // ... compared with an own record
    alarms: set<At>           // ... and found different
  )

  predicate Hold(c: Con) {
    c.rx.image.Image?
  }

  /** The remote watermark: last INPUT accepted in this epoch. */
  function Watermark(d: nat, c: Con): nat
    requires d >= 1
  {
    Mark(d, c.rx, c.ep).last
  }

  predicate Open(d: nat, c: Con)
    requires d >= 1
  {
    c.tick <= Watermark(d, c)
  }

  function Look(log: map<At, Cell>, ep: Epoch, t: int): Cell {
    if At(ep, t) in log then log[At(ep, t)] else IDLE
  }

  /** Both seats' cells for tick t, from the two seats' logs. */
  function InputsAt(log0: map<At, Cell>, log1: map<At, Cell>, ep: Epoch, t: int): Inputs {
    Inputs(Look(log0, ep, t), Look(log0, ep, t - 1), Look(log1, ep, t), Look(log1, ep, t - 1))
  }

  function Reads(seat: Seat, c: Con): Inputs {
    if seat == Host then InputsAt(c.tx.log, c.rx.log, c.ep, c.tick)
    else InputsAt(c.rx.log, c.tx.log, c.ep, c.tick)
  }

  /** This console compares a report: neither holding nor pending, same epoch. */
  predicate Attends(c: Con, ep: Epoch) {
    !Hold(c) && !c.pend && ep == c.ep
  }

  /** ... has that tick on record, with another checksum. */
  predicate Differs(c: Con, k: At, crc: word) {
    k in c.tx.crcs && c.tx.crcs[k] != crc
  }

  /** A checksum report arrives: ignored while holding or pending and when it
      is of another epoch; compared when this console has that tick on record;
      a difference marks a resync wanted, and the guest asks for it. */
  function ReceiveCrc(d: nat, seat: Seat, c: Con, ep: Epoch, t: nat, crc: word): (Con, seq<Frame>)
    requires d >= 1
  {
    var k := At(ep, t);
    if !Attends(c, ep) then (c, [])
    else if !Differs(c, k, crc) then
      (c.(seen := c.seen + {k}, compared := if k in c.tx.crcs then c.compared + {k} else c.compared), [])
    else
      var ask := if seat == Host then [] else [Req(c.ep, t)];
      (c.(seen := c.seen + {k}, compared := c.compared + {k}, alarms := c.alarms + {k},
          pend := true, ptmo := 0, tx := if seat == Host then c.tx else Next(d, c.tx, Req(c.ep, t))), ask)
  }

  function Rebase(c: Con, next: Epoch): Con {
    var s := Clamp(c.sim);
    c.(ep := next, tick := next.base, pend := false, ptmo := 0, sim := s,
       sims := c.sims[At(next, next.base) := s])
  }

  function Receive(d: nat, seat: Seat, c: Con, f: Frame): (Con, seq<Frame>)
    requires d >= 1
  {
    var c1 := c.(rx := Next(d, c.rx, f));
    match f
    case Input(_, _, _) => (c1, [])
    case Crc(ep, t, crc) => ReceiveCrc(d, seat, c1, ep, t, crc)
    case Req(_, _) =>
      if seat == Host && !Hold(c) && !c.pend then (c1.(pend := true, ptmo := 0), []) else (c1, [])
    case Begin(_) => (c1, [])
    case Chunk(pos, data) =>
      if Hold(c) && pos + |data| <= IMG_TOTAL then (c1.(sim := Overlay(c.sim, pos, data)), [])
      else (c1, [])
    case End => if Hold(c) then (Rebase(c1, c.rx.image.next), []) else (c1, [])
  }

  function Capture(d: nat, c: Con, cell: Cell): (Con, seq<Frame>)
    requires d >= 1
  {
    var f := Input(c.ep, c.tick + d, cell);
    (c.(tx := Next(d, c.tx, f), gate := true), [f])
  }

  /** The game tick, its checksum report on 64-tick boundaries, and tick++. */
  function Play(cfg: Config, seat: Seat, c: Con): (Con, seq<Frame>)
    requires cfg.d >= 1
  {
    var i := Reads(seat, c);
    var s := cfg.cart(c.sim, i, Wrap(c.tick));
    var c1 := c.(used := c.used[At(c.ep, c.tick) := i], sim := s, gate := false, tick := c.tick + 1,
                 sims := c.sims[At(c.ep, c.tick + 1) := s]);
    if c.tick % 64 == 0 then
      var f := Crc(c.ep, c.tick, Checksum(s));
      (c1.(tx := Next(cfg.d, c.tx, f)), [f])
    else (c1, [])
  }

  function Chunks(s: Sim, pos: nat): seq<Frame>
    requires pos <= IMG_TOTAL
    decreases IMG_TOTAL - pos
  {
    if pos == IMG_TOTAL then [End]
    else [Chunk(pos, s[pos..pos + ChunkLen(pos)])] + Chunks(s, pos + ChunkLen(pos))
  }

  function PushFrames(next: Epoch, s: Sim): seq<Frame> {
    [Begin(next)] + Chunks(s, 0)
  }

  /** The host's push: the whole image under resume tick T+16, then rebase. */
  function Push(d: nat, c: Con): (Con, seq<Frame>)
    requires d >= 1
  {
    var next := Epoch(c.ep.no + 1, c.tick + 16);
    var fs := PushFrames(next, c.sim);
    (Rebase(c.(tx := Fold(d, fs, c.tx)), next), fs)
  }

  const PEND_MAX := 60

  /** A resync is wanted and this is the moment: a quiescent tick, or the 60th
      wait. */
  predicate PushDue(c: Con) {
    c.pend && (Quiescent(c.sim) || c.ptmo + 1 >= PEND_MAX)
  }

  /** RS_PENDING: only the host pushes. */
  function Pending(d: nat, seat: Seat, c: Con): (Con, seq<Frame>)
    requires d >= 1
  {
    if seat == Guest || Hold(c) || !c.pend then (c, [])
    else if PushDue(c) then Push(d, c)
    else (c.(ptmo := c.ptmo + 1), [])
  }

  datatype System = System(
    host: Con, guest: Con,
    down: seq<Frame>, up: seq<Frame>,   // host to guest, guest to host
    downAcc: nat, upAcc: nat,           // bytes of them already in the reader's buffer
    bad: set<Epoch>                     // epochs a fault hit
  )

  function Get(s: System, seat: Seat): Con {
    if seat == Host then s.host else s.guest
  }

  function Inbound(s: System, seat: Seat): seq<Frame> {
    if seat == Host then s.up else s.down
  }

  function Buffered(s: System, seat: Seat): nat {
    if seat == Host then s.upAcc else s.downAcc
  }

  /** Install a console and put what it sent on the wire. */
  function Emit(s: System, seat: Seat, r: (Con, seq<Frame>)): System {
    if seat == Host then s.(host := r.0, down := s.down + r.1)
    else s.(guest := r.0, up := s.up + r.1)
  }

  function Pop(s: System, seat: Seat): System
    requires Inbound(s, seat) != [] && Size(Inbound(s, seat)[0]) <= Buffered(s, seat)
  {
    if seat == Host then s.(up := s.up[1..], upAcc := s.upAcc - Size(s.up[0]))
    else s.(down := s.down[1..], downAcc := s.downAcc - Size(s.down[0]))
  }

  predicate Ready(s: System, seat: Seat) {
    Inbound(s, seat) != [] && Size(Inbound(s, seat)[0]) <= Buffered(s, seat)
  }

  /** Dispatch the frame at the head of a console's buffer. */
  function Deliver(d: nat, s: System, seat: Seat): System
    requires d >= 1 && Ready(s, seat)
  {
    Emit(Pop(s, seat), seat, Receive(d, seat, Get(s, seat), Inbound(s, seat)[0]))
  }

  function Drain(d: nat, s: System, seat: Seat): System
    requires d >= 1
    decreases |Inbound(s, seat)|
  {
    if Ready(s, seat) then Drain(d, Deliver(d, s, seat), seat) else s
  }

  /** The most one pump asks of the adapter. */
  const READ_MAX := 64

  /** A pump's read of at most k bytes of what the network has delivered. */
  function Fetch(s: System, seat: Seat, k: nat): System {
    var avail := Bytes(Inbound(s, seat)) - Buffered(s, seat);
    var n := if k <= READ_MAX then k else READ_MAX;
    var m := if avail < 0 then 0 else if n <= avail then n else avail;
    if seat == Host then s.(upAcc := s.upAcc + m) else s.(downAcc := s.downAcc + m)
  }

  function Pump(d: nat, s: System, seat: Seat, k: nat): System
    requires d >= 1
  {
    Drain(d, Fetch(s, seat, k), seat)
  }

  function PlayAndPend(cfg: Config, seat: Seat, c: Con): (Con, seq<Frame>)
    requires cfg.d >= 1
  {
    var (c1, out1) := Play(cfg, seat, c);
    var (c2, out2) := Pending(cfg.d, seat, c1);
    (c2, out1 + out2)
  }

  /** What a fault spoils: the epoch it hits and, when part of an image has
      been applied, the epoch that image starts. */
  function Spoiled(c: Con): set<Epoch> {
    {c.ep} + if c.rx.image.Image? && c.rx.image.buf != [] then {c.rx.image.next} else {}
  }

  datatype Action =
    | Go(seat: Seat, k: nat, cell: Cell)  // next stretch of LS_PASS; k bytes can be read
    | Poll(seat: Seat, k: nat)            // a pump outside LS_PASS (the matched screen)
    | Fault(seat: Seat, sim: Sim)         // the console's state is corrupted

  function Step(cfg: Config, s: System, a: Action): System
    requires cfg.d >= 1
  {
    match a
    case Fault(seat, sim) =>
      Emit(s.(bad := s.bad + Spoiled(Get(s, seat))), seat, (Get(s, seat).(sim := sim), []))
    case Poll(seat, k) =>
      if Get(s, seat).gate then s else Pump(cfg.d, s, seat, k)
    case Go(seat, k, cell) =>
      var c := Get(s, seat);
      if c.gate then
        if Open(cfg.d, c) then Emit(s, seat, PlayAndPend(cfg, seat, c)) else Pump(cfg.d, s, seat, k)
      else
        var s1 := Pump(cfg.d, s, seat, k);
        if Hold(c) then s1 else Emit(s1, seat, Capture(cfg.d, Get(s1, seat), cell))
  }

  function Run(cfg: Config, s: System, acts: seq<Action>): System
    requires cfg.d >= 1
    decreases |acts|
  {
    if acts == [] then s else Step(cfg, Run(cfg, s, acts[..|acts| - 1]), acts[|acts| - 1])
  }

  /** Both consoles just after START, with the same starting state. */
  function Start(cfg: Config, sim: Sim): System
    requires cfg.d >= 1
  {
    var e := Epoch(0, 0);
    var w := Wire(e, FirstMark(cfg.d, e), map[], map[], false, NoImage, map[e := sim]);
    var c := Con(e, 0, false, false, 0, sim, w, w, map[], map[At(e, 0) := sim], {}, {}, {});
    System(c, c, [], [], 0, 0, {})
  }
}
