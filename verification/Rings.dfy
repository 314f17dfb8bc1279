/** The input ring pages as one block of cells: four pages of decoded cells,
    then four of keypad cells, a page a seat. */
module Rings {
  import opened Words
  import opened GameState
  import opened Console16

  const SEAT_PAGES := 1024

  /** A seat's cell in slot t. */
  function CellIn(pages: seq<byte>, seat: nat, t: nat): Cell
    requires |pages| == 2 * SEAT_PAGES && seat < 4 && t < 0x100
  {
    Cell(pages[seat * 0x100 + t], pages[SEAT_PAGES + seat * 0x100 + t])
  }

  /** Every slot of every seat reads as no keypad button and a centred disc. */
  ghost predicate AllIdle(pages: seq<byte>)
    requires |pages| == 2 * SEAT_PAGES
  {
    forall seat: nat, t: nat :: seat < 4 && t < 0x100 ==> CellIn(pages, seat, t) == Cell(0x40, 0)
  }

  /** The slot before a slot, wrapping at 0. */
  function Before(t: byte): byte {
    if t == 0 then 0xFF else t - 1
  }

  /** What a tick at a low tick byte reads: its slot and the slot before, of
      pages 0 and 1. */
  function SlotsOf(pages: seq<byte>, t: byte): Inputs
    requires |pages| == 2 * SEAT_PAGES
  {
    Inputs(CellIn(pages, 0, t), CellIn(pages, 0, Before(t)), CellIn(pages, 1, t), CellIn(pages, 1, Before(t)))
  }

  function RingOf(pages: seq<byte>, seat: nat): (r: Ring)
    requires |pages| == 2 * SEAT_PAGES && seat < 4
    ensures forall t :: 0 <= t < 0x100 ==> r[t] == CellIn(pages, seat, t)
  {
    seq(0x100, t requires 0 <= t < 0x100 && |pages| == 2 * SEAT_PAGES => CellIn(pages, seat, t))
  }

  /** LS_RING_INIT: one fill of each half makes every seat's ring idle. */
  method RingInit(pages: array<byte>)
    requires pages.Length == 2 * SEAT_PAGES
    modifies pages
    ensures forall seat: nat :: seat < 4 ==> RingOf(pages[..], seat) == IdleRing()
    ensures AllIdle(pages[..])
  {
    var i := 0;
    while i < SEAT_PAGES
      invariant 0 <= i <= SEAT_PAGES && forall j :: 0 <= j < i ==> pages[j] == 0x40
    {
      pages[i] := 0x40;
      i := i + 1;
    }
    while i < 2 * SEAT_PAGES
      invariant SEAT_PAGES <= i <= 2 * SEAT_PAGES && forall j :: 0 <= j < SEAT_PAGES ==> pages[j] == 0x40
      invariant forall j :: SEAT_PAGES <= j < i ==> pages[j] == 0
    {
      pages[i] := 0;
      i := i + 1;
    }
  }

  /** Store a seat's two cells at a low tick byte: only that slot of that
      seat's ring changes. */
  method StoreCell(pages: array<byte>, seat: nat, t: byte, cell: Cell)
    requires pages.Length == 2 * SEAT_PAGES && seat < 4
    modifies pages
    ensures RingOf(pages[..], seat) == RingOf(old(pages[..]), seat)[t := cell] && CellIn(pages[..], seat, t) == cell
    ensures forall q: nat :: q < 4 && q != seat ==> RingOf(pages[..], q) == RingOf(old(pages[..]), q)
  {
    pages[seat * 0x100 + t] := cell.dec;
    pages[SEAT_PAGES + seat * 0x100 + t] := cell.kp;
  }
}
