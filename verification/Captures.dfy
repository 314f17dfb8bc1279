/** The inputs of a run as its schedule has them: which cell each seat captured
    for which tick, and the game one machine plays over those cells. */
module Captures {
  import opened Words
  import opened GameState
  import opened Wire
  import opened Ideal
  import opened History

  /** The action makes a seat capture its cell for tick t of an epoch: the pass
      enters the gate d ticks before. */
  predicate CapturesFor(cfg: Config, s: System, a: Action, seat: Seat, ep: Epoch, t: int)
    requires cfg.d >= 1
  {
    && a.Go? && a.seat == seat
    && var c, c' := Get(s, seat), Get(Step(cfg, s, a), seat);
       !c.gate && c'.gate && c'.ep == ep && t == c'.tick + cfg.d
  }

  /** The cell of the action on which a seat captured for tick t of an epoch;
      idle when it captured nothing for it. */
  function CellFor(cfg: Config, sim: Sim, acts: seq<Action>, seat: Seat, ep: Epoch, t: int): Cell
    requires cfg.d >= 1
    decreases |acts|
  {
    if acts == [] then IDLE
    else
      var before, a := acts[..|acts| - 1], acts[|acts| - 1];
      if CapturesFor(cfg, Run(cfg, Start(cfg, sim), before), a, seat, ep, t) then a.cell
      else CellFor(cfg, sim, before, seat, ep, t)
  }

  /** The game as one machine plays it, the captured cells at hand: the state at
      the start of tick t, from a state at the epoch's first tick. */
  function Game(cfg: Config, sim: Sim, acts: seq<Action>, from: Sim, ep: Epoch, t: nat): Sim
    requires cfg.d >= 1 && ep.base <= t
    decreases t - ep.base
  {
    if t == ep.base then from
    else
      cfg.cart(Game(cfg, sim, acts, from, ep, t - 1),
               Inputs(CellFor(cfg, sim, acts, Host, ep, t - 1), CellFor(cfg, sim, acts, Host, ep, t - 2),
                      CellFor(cfg, sim, acts, Guest, ep, t - 1), CellFor(cfg, sim, acts, Guest, ep, t - 2)),
               Wrap(t - 1))
  }

  // ---- the logs say the same ---------------------------------------------

  lemma NextKeepsLog(d: nat, w: Wire, f: Frame)
    requires d >= 1 && !f.Input?
    ensures Next(d, w, f).log == w.log
  {
  }

  lemma {:induction false} FoldKeepsLog(d: nat, fs: seq<Frame>, w: Wire)
    requires d >= 1 && forall f :: f in fs ==> !f.Input?
    ensures Fold(d, fs, w).log == w.log
    decreases |fs|
  {
    hide Next;
    if fs != [] {
      NextKeepsLog(d, w, fs[0]);
      FoldKeepsLog(d, fs[1..], Next(d, w, fs[0]));
    }
  }

  lemma {:induction false} ChunksCarryNoInput(s: Sim, pos: nat)
    requires pos <= IMG_TOTAL
    ensures forall f :: f in Chunks(s, pos) ==> !f.Input?
    decreases IMG_TOTAL - pos
  {
    if pos < IMG_TOTAL {
      ChunksCarryNoInput(s, pos + ChunkLen(pos));
    }
  }

  lemma PendKeepsLog(d: nat, seat: Seat, c: Con)
    requires d >= 1
    ensures Pending(d, seat, c).0.tx.log == c.tx.log
  {
    hide Fold, Chunks;
    var next := Epoch(c.ep.no + 1, c.tick + 16);
    ChunksCarryNoInput(c.sim, 0);
    FoldKeepsLog(d, PushFrames(next, c.sim), c.tx);
  }

  /** Playing, with the push that may follow, captures nothing. */
  lemma TurnKeepsLog(cfg: Config, seat: Seat, c: Con)
    requires cfg.d >= 1
    ensures var c' := PlayAndPend(cfg, seat, c).0; c'.tx.log == c.tx.log && !c'.gate
  {
    hide Pending, Play;
    PlayKeeps(cfg, seat, c);
    PendKeepsLog(cfg.d, seat, Play(cfg, seat, c).0);
    PendKeepsGate(cfg.d, seat, Play(cfg, seat, c).0);
  }

  lemma PendKeepsGate(d: nat, seat: Seat, c: Con)
    requires d >= 1
    ensures Pending(d, seat, c).0.gate == c.gate
  {
    hide Fold, PushFrames;
  }

  lemma ReceiveKeepsLog(d: nat, seat: Seat, c: Con, f: Frame)
    requires d >= 1
    ensures var c' := Receive(d, seat, c, f).0; c'.tx.log == c.tx.log && c'.gate == c.gate
  {
    hide Next;
    if f.Crc? {
      RequestKeeps(d, c.tx, c.ep, f.t);
    }
  }

  /** Listening captures nothing, and leaves the other console alone. */
  lemma {:induction false} DrainKeepsLog(d: nat, s: System, seat: Seat)
    requires d >= 1
    ensures var s' := Drain(d, s, seat);
            && s'.host.tx.log == s.host.tx.log && s'.guest.tx.log == s.guest.tx.log
            && s'.host.gate == s.host.gate && s'.guest.gate == s.guest.gate
    decreases |Inbound(s, seat)|
  {
    if Ready(s, seat) {
      ReceiveKeepsLog(d, seat, Get(s, seat), Inbound(s, seat)[0]);
      hide Receive;
      DrainKeepsLog(d, Deliver(d, s, seat), seat);
    }
  }

  lemma CaptureLogs(d: nat, c: Con, cell: Cell)
    requires d >= 1
    ensures var c' := Capture(d, c, cell).0;
            c'.tx.log == c.tx.log[At(c.ep, c.tick + d) := cell] && c'.gate && c'.ep == c.ep && c'.tick == c.tick
  {
  }

  /** An action changes a seat's log exactly by the cell it captures. */
  lemma StepLogs(cfg: Config, s: System, a: Action, seat: Seat, ep: Epoch, t: int)
    requires cfg.d >= 1
    ensures Look(Get(Step(cfg, s, a), seat).tx.log, ep, t)
            == if CapturesFor(cfg, s, a, seat, ep, t) then a.cell else Look(Get(s, seat).tx.log, ep, t)
  {
    hide PlayAndPend, Capture, Drain, Open;
    match a
    case Fault(_, _) =>
    case Poll(q, k) => DrainKeepsLog(cfg.d, Fetch(s, q, k), q);
    case Go(q, k, cell) =>
      TurnKeepsLog(cfg, q, Get(s, q));
      DrainKeepsLog(cfg.d, Fetch(s, q, k), q);
      CaptureLogs(cfg.d, Get(Pump(cfg.d, s, q, k), q), cell);
  }

  /** What a seat has on record is what the schedule made it capture. */
  lemma {:induction false} LogIsCaptured(cfg: Config, sim: Sim, acts: seq<Action>, seat: Seat, ep: Epoch, t: int)
    requires cfg.d >= 1
    ensures Look(Get(Run(cfg, Start(cfg, sim), acts), seat).tx.log, ep, t) == CellFor(cfg, sim, acts, seat, ep, t)
    decreases |acts|
  {
    hide Step, CapturesFor, Look;
    if acts != [] {
      var before := acts[..|acts| - 1];
      LogIsCaptured(cfg, sim, before, seat, ep, t);
      StepLogs(cfg, Run(cfg, Start(cfg, sim), before), acts[|acts| - 1], seat, ep, t);
    } else {
      NothingLogged(cfg, sim, seat, ep, t);
    }
  }

  lemma NothingLogged(cfg: Config, sim: Sim, seat: Seat, ep: Epoch, t: int)
    requires cfg.d >= 1
    ensures Look(Get(Run(cfg, Start(cfg, sim), []), seat).tx.log, ep, t) == IDLE
  {
  }
}
