/** Virtual event dispatch: the handler calls LS_VDISPATCH derives from two
    consecutive ring cells of a seat. */
module VDispatch {
  import opened Words
  import opened GameState
  import opened Wire
  import opened Ideal
  import opened IdealInvariant
  import opened History
  import opened IdealRuns
  import opened Console16
  import opened Refinement
  import opened Resync
  import opened Rings

  /** A handler call: its slot and the value in R0. */
  datatype Event = Event(slot: nat, value: int)

  predicate Button(kp: byte) {
    1 <= kp <= 3
  }

  function ButtonSlot(kp: byte): nat {
    2 * kp + 2
  }

  /** The button events of one tick: the release of the old button before the
      press, or re-fire, of the current one. */
  function ButtonEvents(prev: byte, cur: byte): seq<Event> {
    (if Button(prev) && cur != prev then [Event(ButtonSlot(prev), -1)] else [])
    + (if Button(cur) then [Event(ButtonSlot(cur), if cur == prev then 0 else 1)] else [])
  }

  /** The $011F event of one tick: bit 7 tells keypad from disc, bit 6 marks a
      release or a settled disc. */
  function CellEvents(prev: byte, cur: byte): seq<Event> {
    if cur == prev then []
    else if (cur / 0x40) % 2 == 0 then [Event(if cur >= 0x80 then 2 else 0, cur % 0x80)]
    else if cur < 0x80 then [Event(0, -1)]
    else []
  }

  function Events(prev: Cell, cur: Cell): seq<Event> {
    ButtonEvents(prev.kp, cur.kp) + CellEvents(prev.dec, cur.dec)
  }

  /** A button pressed (1), held (0) or let go (-1). */
  predicate Felt(was: bool, now: bool, value: int) {
    (now && !was && value == 1) || (now && was && value == 0) || (was && !now && value == -1)
  }

  predicate ButtonCall(e: Event, prev: byte, cur: byte) {
    || (e.slot == 4 && Felt(prev == 1, cur == 1, e.value))
    || (e.slot == 6 && Felt(prev == 2, cur == 2, e.value))
    || (e.slot == 8 && Felt(prev == 3, cur == 3, e.value))
  }

  predicate CellCall(e: Event, prev: byte, cur: byte) {
    cur != prev &&
    (|| (cur < 0x40 && e == Event(0, cur))
     || (0x40 <= cur < 0x80 && e == Event(0, -1))
     || (0x80 <= cur < 0xC0 && e == Event(2, cur - 0x80)))
  }

  lemma ButtonsSay(prev: byte, cur: byte)
    ensures var es := ButtonEvents(prev, cur);
            && |es| <= 2 && (forall e :: e in es <==> ButtonCall(e, prev, cur))
            && (forall i :: 0 <= i < |es| ==> es[i].slot >= 4 && (i == 1 ==> es[1].value != -1 && es[0].value == -1))
  {
  }

  lemma CellSays(prev: byte, cur: byte)
    ensures var es := CellEvents(prev, cur);
            |es| <= 1 && (forall e :: e in es <==> CellCall(e, prev, cur)) && forall i :: 0 <= i < |es| ==> es[i].slot < 4
  {
    assert cur % 0x80 == if cur < 0x80 then cur else cur - 0x80;
    assert (cur / 0x40) % 2 == 0 <==> cur < 0x40 || 0x80 <= cur < 0xC0;
  }

  /** The calls of one tick by what they mean.  Slots 4, 6 and 8 are the action
      buttons, slot 0 the disc, a new direction or settled (-1), slot 2 a keypad
      code; a disc or keypad cell is heard once, when it changes.  Nothing else
      is called, nothing twice, and a button let go comes before anything but
      itself. */
  ghost predicate Says(events: seq<Event>, prev: Cell, cur: Cell) {
    && (forall e :: e in events <==> ButtonCall(e, prev.kp, cur.kp) || CellCall(e, prev.dec, cur.dec))
    && (forall i, j :: 0 <= i < j < |events| ==> events[i] != events[j])
    && (forall i, j :: 0 <= i < j < |events| && events[j].slot >= 4 ==> events[i].slot >= 4)
    && (forall j :: 0 < j < |events| ==> events[j].slot < 4 || events[j].value != -1)
  }

  lemma EventsSay(prev: Cell, cur: Cell)
    ensures Says(Events(prev, cur), prev, cur)
  {
    hide ButtonEvents, CellEvents, ButtonCall, CellCall;
    ButtonsSay(prev.kp, cur.kp);
    CellSays(prev.dec, cur.dec);
    var b, c := ButtonEvents(prev.kp, cur.kp), CellEvents(prev.dec, cur.dec);
    assert forall e :: e in b + c <==> e in b || e in c;
  }

  // ---- the routine -------------------------------------------------------

  /** LS_VDISPATCH for one seat at a low tick byte: slot t and the slot before
      it, wrapping at 0. */
  method Dispatch(pages: array<byte>, seat: nat, t: byte) returns (events: seq<Event>)
    requires pages.Length == 2 * SEAT_PAGES && seat < 4
    ensures events == Events(CellIn(pages[..], seat, if t == 0 then 255 else t - 1), CellIn(pages[..], seat, t))
    ensures Says(events, CellIn(pages[..], seat, if t == 0 then 255 else t - 1), CellIn(pages[..], seat, t))
  {
    hide Says, Events, ButtonEvents, CellEvents;
    var at := seat * 0x100 + t;
    var before := at - 1;
    if t == 0 {
      before := before + 256;
    }
    var cur, prev := pages[at], pages[before];
    var kp, kppre := pages[at + SEAT_PAGES], pages[before + SEAT_PAGES];
    assert CellIn(pages[..], seat, if t == 0 then 255 else t - 1) == Cell(prev, kppre);
    assert CellIn(pages[..], seat, t) == Cell(cur, kp);
    events := [];
    if kppre != 0 && kppre <= 3 && kp != kppre {
      events := events + [Event(2 * kppre + 2, -1)];
    }
    if kp != 0 && kp <= 3 {
      events := events + [Event(2 * kp + 2, if kp == kppre then 0 else 1)];
    }
    ButtonsBuilt(kppre, kp);
    CellBuilt(prev, cur);
    if cur != prev {
      if (cur / 0x40) % 2 == 0 {
        events := events + [Event(if cur / 0x80 == 1 then 2 else 0, cur % 0x80)];
      } else if cur / 0x80 == 0 {
        events := events + [Event(0, -1)];
      }
    }
    EventsAre(Cell(prev, kppre), Cell(cur, kp));
    EventsSay(Cell(prev, kppre), Cell(cur, kp));
  }

  lemma ButtonsBuilt(prev: byte, cur: byte)
    ensures ButtonEvents(prev, cur)
            == (if prev != 0 && prev <= 3 && cur != prev then [Event(2 * prev + 2, -1)] else [])
               + if cur != 0 && cur <= 3 then [Event(2 * cur + 2, if cur == prev then 0 else 1)] else []
  {
  }

  lemma CellBuilt(prev: byte, cur: byte)
    ensures CellEvents(prev, cur)
            == if cur == prev then []
               else if (cur / 0x40) % 2 == 0 then [Event(if cur / 0x80 == 1 then 2 else 0, cur % 0x80)]
               else if cur / 0x80 == 0 then [Event(0, -1)] else []
  {
  }

  lemma EventsAre(prev: Cell, cur: Cell)
    ensures Events(prev, cur) == ButtonEvents(prev.kp, cur.kp) + CellEvents(prev.dec, cur.dec)
  {
  }

  // ---- the event language ------------------------------------------------

  /** Whether a slot's button is down after a run of events, if the run is a
      prefix of (press, held*, release)*. */
  datatype Hand = Up | Down | Broken

  function React(h: Hand, e: Event, slot: nat): Hand {
    if e.slot != slot then h
    else if h == Up && e.value == 1 then Down
    else if h == Down && e.value == 0 then Down
    else if h == Down && e.value == -1 then Up
    else Broken
  }

  function HandAfter(h: Hand, events: seq<Event>, slot: nat): Hand
    decreases |events|
  {
    if events == [] then h else HandAfter(React(h, events[0], slot), events[1..], slot)
  }

  lemma {:induction false} HandAppend(h: Hand, a: seq<Event>, b: seq<Event>, slot: nat)
    ensures HandAfter(h, a + b, slot) == HandAfter(HandAfter(h, a, slot), b, slot)
    decreases |a|
  {
    if a == [] {
      assert a + b == b;
    } else {
      assert (a + b)[0] == a[0] && (a + b)[1..] == a[1..] + b;
      HandAppend(React(h, a[0], slot), a[1..], b, slot);
    }
  }

  predicate ButtonSlots(slot: nat) {
    slot == 4 || slot == 6 || slot == 8
  }

  /** What a slot's hand should be while a keypad cell is current. */
  function HandOf(kp: byte, slot: nat): Hand {
    if Button(kp) && ButtonSlot(kp) == slot then Down else Up
  }

  lemma OneTick(prev: Cell, cur: Cell, slot: nat)
    requires ButtonSlots(slot)
    ensures HandAfter(HandOf(prev.kp, slot), Events(prev, cur), slot) == HandOf(cur.kp, slot)
  {
    var h := HandOf(prev.kp, slot);
    var release := if Button(prev.kp) && cur.kp != prev.kp then [Event(ButtonSlot(prev.kp), -1)] else [];
    var press := if Button(cur.kp) then [Event(ButtonSlot(cur.kp), if cur.kp == prev.kp then 0 else 1)] else [];
    var cells := CellEvents(prev.dec, cur.dec);
    assert Events(prev, cur) == release + press + cells;
    HandAppend(h, release + press, cells, slot);
    HandAppend(h, release, press, slot);
    One(h, release, slot);
    One(HandAfter(h, release, slot), press, slot);
    One(HandAfter(HandAfter(h, release, slot), press, slot), cells, slot);
  }

  lemma One(h: Hand, es: seq<Event>, slot: nat)
    requires |es| <= 1
    ensures HandAfter(h, es, slot) == if es == [] then h else React(h, es[0], slot)
  {
    if |es| == 1 {
      assert es[1..] == [];
    }
  }

  /** The events of a whole stream of cells. */
  function AllEvents(prev: Cell, cells: seq<Cell>): seq<Event>
    decreases |cells|
  {
    if cells == [] then [] else Events(prev, cells[0]) + AllEvents(cells[0], cells[1..])
  }

  /** Over every stream of cells, from an idle cell, the events of each button
      slot are a prefix of (press, held*, release)*; the hand left down is the
      last cell's button, so at most one button is down at any time. */
  lemma {:induction false} ButtonLanguage(prev: Cell, cells: seq<Cell>, slot: nat)
    requires ButtonSlots(slot)
    ensures HandAfter(HandOf(prev.kp, slot), AllEvents(prev, cells), slot)
            == HandOf(if cells == [] then prev.kp else cells[|cells| - 1].kp, slot)
    decreases |cells|
  {
    if cells != [] {
      OneTick(prev, cells[0], slot);
      HandAppend(HandOf(prev.kp, slot), Events(prev, cells[0]), AllEvents(cells[0], cells[1..]), slot);
      ButtonLanguage(cells[0], cells[1..], slot);
    }
  }

  lemma AtMostOneDown(kp: byte, a: nat, b: nat)
    requires ButtonSlots(a) && ButtonSlots(b) && HandOf(kp, a) == Down && HandOf(kp, b) == Down
    ensures a == b
  {
  }

  // ---- in a match --------------------------------------------------------

  /** One seat's cells at a tick, as a console read them. */
  function CellAt(i: Inputs, side: Seat, current: bool): Cell {
    if side == Host then if current then i.cur0 else i.prev0
    else if current then i.cur1 else i.prev1
  }

  /** A console played the first n ticks of an epoch. */
  ghost predicate Played(c: Con, ep: Epoch, n: nat) {
    forall t: nat :: ep.base <= t < ep.base + n ==> At(ep, t) in c.used
  }

  /** A console's record of an epoch's first n ticks, for one seat. */
  ghost function Stream(c: Con, ep: Epoch, side: Seat, n: nat): seq<Cell>
    requires Played(c, ep, n)
  {
    seq(n, i requires 0 <= i < n => CellAt(c.used[At(ep, ep.base + i)], side, true))
  }

  /** The events a console dispatched in those ticks, each from the two cells it
      read at that tick. */
  ghost function Dispatched(c: Con, ep: Epoch, side: Seat, n: nat): seq<Event>
    requires Played(c, ep, n)
  {
    if n == 0 then []
    else
      var i := c.used[At(ep, ep.base + n - 1)];
      assert Played(c, ep, n - 1);
      Dispatched(c, ep, side, n - 1) + Events(CellAt(i, side, false), CellAt(i, side, true))
  }

  lemma {:induction false} AllEventsSnoc(prev: Cell, cells: seq<Cell>, cell: Cell)
    ensures AllEvents(prev, cells + [cell])
            == AllEvents(prev, cells) + Events(if cells == [] then prev else cells[|cells| - 1], cell)
    decreases |cells|
  {
    if cells == [] {
      assert (cells + [cell])[1..] == [];
    } else {
      assert (cells + [cell])[1..] == cells[1..] + [cell];
      AllEventsSnoc(cells[0], cells[1..], cell);
    }
  }

  /** The slot before is the cell that was current a tick ago; at an epoch's
      first tick it is idle. */
  lemma PreviousWasCurrent(c: Con, log0: map<At, Cell>, log1: map<At, Cell>, ep: Epoch, side: Seat, t: nat)
    requires Truthful(c, log0, log1) && At(ep, t) in c.used
    requires At(ep, ep.base - 1) !in log0 && At(ep, ep.base - 1) !in log1
    ensures ep.base < t && At(ep, t - 1) in c.used ==>
              CellAt(c.used[At(ep, t)], side, false) == CellAt(c.used[At(ep, t - 1)], side, true)
    ensures t == ep.base ==> CellAt(c.used[At(ep, t)], side, false) == IDLE
  {
  }

  lemma {:induction false} DispatchedIs(c: Con, log0: map<At, Cell>, log1: map<At, Cell>, ep: Epoch, side: Seat, n: nat)
    requires Truthful(c, log0, log1)
    requires At(ep, ep.base - 1) !in log0 && At(ep, ep.base - 1) !in log1
    requires Played(c, ep, n)
    ensures Dispatched(c, ep, side, n) == AllEvents(IDLE, Stream(c, ep, side, n))
    decreases n
  {
    hide AllEvents, Events, Stream, Truthful, CellAt;
    if n > 0 {
      assert Played(c, ep, n - 1);
      hide Played;
      DispatchedIs(c, log0, log1, ep, side, n - 1);
      DispatchedSnoc(c, log0, log1, ep, side, n);
    } else {
      NoTicks(c, ep, side);
    }
  }

  lemma NoTicks(c: Con, ep: Epoch, side: Seat)
    ensures Played(c, ep, 0) && AllEvents(IDLE, Stream(c, ep, side, 0)) == []
  {
  }

  lemma DispatchedSnoc(c: Con, log0: map<At, Cell>, log1: map<At, Cell>, ep: Epoch, side: Seat, n: nat)
    requires Truthful(c, log0, log1) && n > 0 && Played(c, ep, n) && Played(c, ep, n - 1)
    requires At(ep, ep.base - 1) !in log0 && At(ep, ep.base - 1) !in log1
    ensures AllEvents(IDLE, Stream(c, ep, side, n))
            == AllEvents(IDLE, Stream(c, ep, side, n - 1))
               + Events(CellAt(c.used[At(ep, ep.base + n - 1)], side, false),
                        CellAt(c.used[At(ep, ep.base + n - 1)], side, true))
  {
    hide Events, AllEvents, Truthful, CellAt;
    var t := ep.base + n - 1;
    var s := Stream(c, ep, side, n - 1);
    PreviousWasCurrent(c, log0, log1, ep, side, t);
    StreamSnoc(c, ep, side, n);
    AllEventsSnoc(IDLE, s, CellAt(c.used[At(ep, t)], side, true));
    if n > 1 {
      assert s[|s| - 1] == CellAt(c.used[At(ep, t - 1)], side, true);
    }
  }

  lemma StreamSnoc(c: Con, ep: Epoch, side: Seat, n: nat)
    requires n > 0 && Played(c, ep, n) && Played(c, ep, n - 1)
    ensures Stream(c, ep, side, n)
            == Stream(c, ep, side, n - 1) + [CellAt(c.used[At(ep, ep.base + n - 1)], side, true)]
  {
  }

  /** In every run, on both consoles, for both seats and within every resync
      epoch, the events dispatched to each button slot are a prefix of (press,
      held*, release)*, and never are two buttons down at once. */
  lemma ButtonsInMatch(cfg: Config, sim: Sim, acts: seq<Action>, seat: Seat, ep: Epoch, side: Seat, n: nat, slot: nat,
                       other: nat)
    requires Legal(cfg) && CalmRun(cfg, Start(cfg, sim), acts) && ButtonSlots(slot) && ButtonSlots(other)
    requires var c := Get(Run(cfg, Start(cfg, sim), acts), seat);
             Played(c, ep, n)
    ensures var c := Get(Run(cfg, Start(cfg, sim), acts), seat);
            var events := Dispatched(c, ep, side, n);
            && HandAfter(Up, events, slot) != Broken
            && (HandAfter(Up, events, slot) == Down && HandAfter(Up, events, other) == Down ==> slot == other)
  {
    hide Stable, Related, Run, Run16, CalmRun, Played, AllEvents, Dispatched, Stream, HandAfter;
    var s := Run(cfg, Start(cfg, sim), acts);
    var c := Get(s, seat);
    RunStable(cfg, sim, acts);
    RunRelated(cfg, sim, acts);
    NothingBeforeBase(cfg.d, s, Run16(cfg, Start16(cfg, sim), acts), ep);
    StableTruth(cfg, s, seat);
    DispatchedIs(c, s.host.tx.log, s.guest.tx.log, ep, side, n);
    var cells := Stream(c, ep, side, n);
    ButtonLanguage(IDLE, cells, slot);
    ButtonLanguage(IDLE, cells, other);
    var kp := if cells == [] then IDLE.kp else cells[|cells| - 1].kp;
    if HandOf(kp, slot) == Down && HandOf(kp, other) == Down {
      AtMostOneDown(kp, slot, other);
    }
  }

  lemma StableTruth(cfg: Config, s: System, seat: Seat)
    requires cfg.d >= 1 && Stable(cfg, s)
    ensures Truthful(Get(s, seat), s.host.tx.log, s.guest.tx.log)
  {
  }

  lemma NothingBeforeBase(d: nat, s: System, t: System16, ep: Epoch)
    requires d >= 1 && Related(d, s, t)
    ensures At(ep, ep.base - 1) !in s.host.tx.log && At(ep, ep.base - 1) !in s.guest.tx.log
  {
  }
}
