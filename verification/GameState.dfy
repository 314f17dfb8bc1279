/** The replicated game state, as the 769 bytes a resync carries.

    Positions 0..146 are the game scratch cells, 147..626 the low/high bytes
    of the 240 background words, 627..754 those of the 64 object words, and
    755..768 fourteen tail cells.  The cart tick is an arbitrary function of
    these bytes and of the two seats' current and previous input cells. */
module GameState {
  import opened Words

  const IMG_S1 := 147
  const IMG_S2 := 627
  const IMG_S3 := 755
  const IMG_TOTAL := 769
  const RS_CHUNK := 96

  type Sim = s: seq<byte> | |s| == IMG_TOTAL
    witness seq(IMG_TOTAL, i => 0)

  /** One seat's input for one tick: the decoded $011F cell and the keypad
      cell. */
  datatype Cell = Cell(dec: byte, kp: byte)

  const IDLE := Cell(0x40, 0)

  /** What one game tick reads from the rings: slot t and slot t-1 of both
      seats. */
  datatype Inputs = Inputs(cur0: Cell, prev0: Cell, cur1: Cell, prev1: Cell)

  /** Position of $0164, the phase cell that indexes an unchecked jump. */
  const PHASE_POS := 7

  /** What the rebase hook does to the image cells: clamp the phase cell. */
  function Clamp(s: Sim): (r: Sim)
  {
    if s[PHASE_POS] <= 8 then s else s[PHASE_POS := 0]
  }

  /** The derived ball-dead flag: phase cell zero. */
  predicate Quiescent(s: Sim) {
    s[PHASE_POS] == 0
  }

  /** Overwrite the bytes from position pos on. */
  function Overlay(s: Sim, pos: nat, data: seq<byte>): (r: Sim)
    requires pos + |data| <= IMG_TOTAL
  {
    s[..pos] + data + s[pos + |data|..]
  }

  /** How many bytes the chunk at position pos carries. */
  function ChunkLen(pos: nat): nat
    requires pos < IMG_TOTAL
  {
    if IMG_TOTAL - pos < RS_CHUNK then IMG_TOTAL - pos else RS_CHUNK
  }

  /** 16-bit rotate left by one: SLLC then ADCR. */
  function Rotl(w: word): word {
    (w * 2) % 0x1_0000 + w / 0x8000
  }

  /** Rotate-add checksum of a list of cells. */
  function RotAdd(acc: word, cells: seq<word>): word
    decreases |cells|
  {
    if cells == [] then acc else RotAdd(Wrap(Rotl(acc) + cells[0]), cells[1..])
  }

  /** The cells of the image the checksum covers, in checksum order: the
      scratch block and the first eleven tail cells. */
  function Covered(s: Sim): seq<word>
  {
    s[..IMG_S1] + s[IMG_S3..IMG_S3 + 11]
  }

  function Checksum(s: Sim): word {
    RotAdd(0, Covered(s))
  }
}
