/** Frames as bytes: what a console writes, how its dispatcher reads a frame
    buffer, and the length bounds its parser checks. */
module Frames {
  import opened Words
  import opened GameState
  import opened Console16

  const FT_LOBBY: byte := 3
  const FT_START: byte := 5
  const FT_INPUT: byte := 6
  const FT_CRC: byte := 7
  const FT_STATE: byte := 8
  const FT_RESYNC: byte := 9
  const FT_PEER_LEFT: byte := 11
  const FT_PONG: byte := 13
  const FT_ROOM: byte := 14

  /** Bytes of a frame on the stream, given its length byte. */
  function Total(len: byte): nat {
    1 + len as int
  }

  /** Frames a console can write: data chunks are non-empty, of at most 96
      bytes, and inside the image. */
  predicate Writable(f: Frame16) {
    f.Chunk16? ==> 1 <= |f.data| <= RS_CHUNK && f.pos + |f.data| <= IMG_TOTAL
  }

  /** A frame's bytes: length of type and payload, type, payload. */
  function Bytes(f: Frame16): (r: seq<byte>)
    requires Writable(f)
    ensures |r| == Size16(f)
  {
    match f
    case Input16(seat, t, cell) => [6, FT_INPUT, seat, Lo(t), Hi(t), cell.dec, cell.kp]
    case Crc16(seat, t, crc) => [6, FT_CRC, seat, Lo(t), Hi(t), Lo(crc), Hi(crc)]
    case Req16(t) => [3, FT_RESYNC, Lo(t), Hi(t)]
    case Begin16(r) => [5, FT_STATE, 0, 0xFF, Lo(r), Hi(r)]
    case Chunk16(pos, data) => [|data| + 3, FT_STATE, Lo(pos), Hi(pos)] + data
    case End16 => [3, FT_STATE, 1, 0xFF]
  }

  /** What the dispatcher makes of a frame buffer: None when it refuses or
      ignores the frame. */
  function Read(b: seq<byte>): Option<Frame16>
    requires |b| >= 2 && |b| == Total(b[0])
  {
    if b[1] == FT_INPUT then
      if b[0] < 6 then None else Some(Input16(b[2], Join(b[3], b[4]), Cell(b[5], b[6])))
    else if b[1] == FT_CRC then
      if b[0] < 6 then None else Some(Crc16(b[2], Join(b[3], b[4]), Join(b[5], b[6])))
    else if b[1] == FT_RESYNC then
      if b[0] < 3 then None else Some(Req16(Join(b[2], b[3])))
    else if b[1] == FT_STATE then
      if b[0] < 3 then None
      else if b[3] == 0xFF then
        if b[2] == 0 then if b[0] < 5 then None else Some(Begin16(Join(b[4], b[5])))
        else if b[2] == 1 then Some(End16)
        else None
      else if b[0] <= 3 then None
      else Some(Chunk16(Join(b[2], b[3]), b[4..]))
    else None
  }

  /** Every frame a console writes is read back as itself. */
  lemma ReadBytes(f: Frame16)
    requires Writable(f)
    ensures Read(Bytes(f)) == Some(f)
  {
    match f
    case Input16(_, t, _) => JoinSplit(t);
    case Crc16(_, t, crc) =>
      JoinSplit(t);
      JoinSplit(crc);
    case Req16(t) => JoinSplit(t);
    case Begin16(r) => JoinSplit(r);
    case Chunk16(pos, data) =>
      JoinSplit(pos);
      assert Bytes(f)[4..] == data;
    case End16 =>
  }

  /** Distinct frames have distinct bytes, none a proper prefix of another. */
  lemma BytesPrefixFree(f: Frame16, g: Frame16, rest: seq<byte>, rest': seq<byte>)
    requires Writable(f) && Writable(g) && Bytes(f) + rest == Bytes(g) + rest'
    ensures f == g && rest == rest'
  {
    var b := Bytes(f) + rest;
    assert b[0] == Bytes(f)[0] == Bytes(g)[0];
    assert |Bytes(f)| == |Bytes(g)|;
    assert Bytes(f) == b[..|Bytes(f)|] == Bytes(g);
    assert rest == b[|Bytes(f)|..] == rest';
    ReadBytes(f);
    ReadBytes(g);
  }

  /** SES_FLEN: least and greatest length byte of each inbound type, or none. */
  function LengthBounds(ft: byte): Option<(byte, byte)> {
    if ft == FT_LOBBY then Some((2, 74))
    else if ft == FT_START then Some((38, 38))
    else if ft == FT_INPUT then Some((6, 6))
    else if ft == FT_CRC then Some((6, 6))
    else if ft == FT_STATE then Some((3, 99))
    else if ft == FT_RESYNC then Some((3, 3))
    else if ft == FT_PEER_LEFT then Some((10, 10))
    else if ft == FT_PONG then Some((1, 1))
    else if ft == FT_ROOM then Some((34, 34))
    else None
  }

  /** The console's framing check on a length and type byte. */
  predicate Plausible(len: byte, ft: byte) {
    LengthBounds(ft).Some? && LengthBounds(ft).value.0 <= len <= LengthBounds(ft).value.1
  }

  /** Everything a console writes passes its peer's framing check, and the
      relay's. */
  lemma WritableIsPlausible(f: Frame16)
    requires Writable(f)
    ensures var b := Bytes(f); Plausible(b[0], b[1]) && 1 <= b[0] <= 200 && Total(b[0]) == |b| <= 100
  {
  }

  /** A run of frames back to back. */
  function AllBytes(fs: seq<Frame16>): seq<byte>
    requires forall f :: f in fs ==> Writable(f)
  {
    if fs == [] then [] else Bytes(fs[0]) + AllBytes(fs[1..])
  }

  /** How many frames of a run are complete in its first n bytes. */
  function Whole(fs: seq<Frame16>, n: nat): (k: nat)
    requires forall f :: f in fs ==> Writable(f)
    ensures k <= |fs|
  {
    if fs == [] || n < |Bytes(fs[0])| then 0 else 1 + Whole(fs[1..], n - |Bytes(fs[0])|)
  }

  lemma {:induction false} WholeAll(fs: seq<Frame16>)
    requires forall f :: f in fs ==> Writable(f)
    ensures Whole(fs, |AllBytes(fs)|) == |fs|
    decreases |fs|
  {
    if fs != [] {
      WholeAll(fs[1..]);
    }
  }
}
