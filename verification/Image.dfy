/** The 769-byte state image as a view of console memory: which cell and which
    half of it each position names, and what writing positions does. */
module Image {
  import opened Words
  import opened GameState

  type Mem = m: seq<word> | |m| == 0x1_0000
    witness seq(0x1_0000, i => 0)

  /** The 8-bit memories: console scratch RAM and cart RAM. */
  predicate Narrow(a: word) {
    0x100 <= a < 0x1F0 || 0x8080 <= a < 0x9C00
  }

  ghost predicate Sound(m: Mem) {
    forall a: word :: Narrow(a) ==> m[a] < 0x100
  }

  /** RS_TAILTBL: the fourteen tail cells. */
  function Tail(i: nat): word
    requires i < 14
  {
    if i == 0 then RNG_LO
    else if i == 1 then RNG_HI
    else if i == 2 then RS_SPARE0
    else if i == 3 then RS_SPARE1
    else if i <= 9 then SC_CNT2 + i - 4
    else if i == 10 then RS_SPARE5
    else if i == 11 then SC_PASSLEN
    else if i == 12 then GAME_TBL_LO
    else GAME_TBL_HI
  }

  const SCRATCH := 0x15D
  const BACKTAB := 0x200
  const OBJECTS := 0x31D
  const RNG_LO := 0x8106
  const RNG_HI := 0x8107
  const RS_SPARE0 := 0x8102
  const RS_SPARE1 := 0x810F
  const SC_CNT2 := 0x8196
  const RS_SPARE4 := 0x819B
  const RS_SPARE5 := 0x819F
  const SC_PASSLEN := 0x103
  const GAME_TBL_LO := 0x80C0
  const GAME_TBL_HI := 0x80C1

  /** Which part of a cell a position names. */
  datatype Lane = Whole | Low | High

  function AddrOf(pos: nat): word
    requires pos < IMG_TOTAL
  {
    if pos < IMG_S1 then SCRATCH + pos
    else if pos < IMG_S2 then BACKTAB + (pos - IMG_S1) / 2
    else if pos < IMG_S3 then OBJECTS + (pos - IMG_S2) / 2
    else Tail(pos - IMG_S3)
  }

  function LaneOf(pos: nat): Lane
    requires pos < IMG_TOTAL
  {
    if pos < IMG_S1 || pos >= IMG_S3 then Whole
    else if pos < IMG_S2 then if (pos - IMG_S1) % 2 == 0 then Low else High
    else if (pos - IMG_S2) % 2 == 0 then Low else High
  }

  lemma WholeIsNarrow(pos: nat)
    requires pos < IMG_TOTAL
    ensures Narrow(AddrOf(pos)) <==> LaneOf(pos) == Whole
  {
  }

  /** No two positions name the same part of the same cell. */
  lemma PlacesDistinct(p: nat, q: nat)
    requires p < IMG_TOTAL && q < IMG_TOTAL && AddrOf(p) == AddrOf(q) && LaneOf(p) == LaneOf(q)
    ensures p == q
  {
  }

  function Part(v: word, lane: Lane): word {
    match lane
    case Whole => v
    case Low => Lo(v)
    case High => Hi(v)
  }

  function Patch(v: word, lane: Lane, b: byte): word {
    match lane
    case Whole => b
    case Low => Join(b, Hi(v))
    case High => Join(Lo(v), b)
  }

  /** IMG_GET. */
  function ImgGet(m: Mem, pos: nat): byte
    requires pos < IMG_TOTAL && Sound(m)
  {
    WholeIsNarrow(pos);
    Part(m[AddrOf(pos)], LaneOf(pos))
  }

  /** IMG_PUT. */
  function ImgPut(m: Mem, pos: nat, b: byte): Mem
    requires pos < IMG_TOTAL
  {
    m[AddrOf(pos) := Patch(m[AddrOf(pos)], LaneOf(pos), b)]
  }

  function ImageOf(m: Mem): (s: Sim)
    requires Sound(m)
    ensures forall i :: 0 <= i < IMG_TOTAL ==> s[i] == ImgGet(m, i)
  {
    seq(IMG_TOTAL, i requires 0 <= i < IMG_TOTAL && Sound(m) => ImgGet(m, i))
  }

  lemma PutSound(m: Mem, pos: nat, b: byte)
    requires pos < IMG_TOTAL && Sound(m)
    ensures Sound(ImgPut(m, pos, b))
  {
    WholeIsNarrow(pos);
  }

  /** Writing a position changes that position and no other. */
  lemma PutGet(m: Mem, p: nat, b: byte, q: nat)
    requires p < IMG_TOTAL && q < IMG_TOTAL && Sound(m)
    ensures Sound(ImgPut(m, p, b))
    ensures ImgGet(ImgPut(m, p, b), q) == if q == p then b else ImgGet(m, q)
  {
    PutSound(m, p, b);
    PartPatch(m[AddrOf(p)], LaneOf(p), b, LaneOf(q));
    if AddrOf(p) == AddrOf(q) && LaneOf(p) == LaneOf(q) {
      PlacesDistinct(p, q);
    }
    if AddrOf(p) == AddrOf(q) {
      MixedLanes(p, q);
    }
    hide AddrOf, LaneOf, Part, Patch, Narrow;
  }

  lemma MixedLanes(p: nat, q: nat)
    requires p < IMG_TOTAL && q < IMG_TOTAL && AddrOf(p) == AddrOf(q)
    ensures LaneOf(p) == Whole <==> LaneOf(q) == Whole
  {
    WholeIsNarrow(p);
    WholeIsNarrow(q);
  }

  lemma PartPatch(v: word, lane: Lane, b: byte, other: Lane)
    ensures Part(Patch(v, lane, b), lane) == b
    ensures lane != other && lane != Whole && other != Whole ==> Part(Patch(v, lane, b), other) == Part(v, other)
  {
  }

  /** Writing consecutive positions, as RS_ON_STATE's copy loop does. */
  function PutAll(m: Mem, pos: nat, data: seq<byte>): Mem
    requires pos + |data| <= IMG_TOTAL
    decreases |data|
  {
    if data == [] then m
    else ImgPut(PutAll(m, pos, data[..|data| - 1]), pos + |data| - 1, data[|data| - 1])
  }

  lemma PutAllSnoc(m: Mem, pos: nat, data: seq<byte>, i: nat)
    requires i < |data| && pos + |data| <= IMG_TOTAL
    ensures PutAll(m, pos, data[..i + 1]) == ImgPut(PutAll(m, pos, data[..i]), pos + i, data[i])
  {
    hide ImgPut;
    assert data[..i + 1][..i] == data[..i];
  }

  /** On the image, writing a chunk is an overlay. */
  lemma {:induction false} PutAllOverlays(m: Mem, pos: nat, data: seq<byte>)
    requires pos + |data| <= IMG_TOTAL && Sound(m)
    ensures var m' := PutAll(m, pos, data); Sound(m') && ImageOf(m') == Overlay(ImageOf(m), pos, data)
    decreases |data|
  {
    hide ImageOf, Overlay, Sound, ImgPut;
    if data == [] {
      EmptyOverlay(ImageOf(m), pos);
    } else {
      var n := |data| - 1;
      var m1 := PutAll(m, pos, data[..n]);
      PutAllOverlays(m, pos, data[..n]);
      PutIsUpdate(m1, pos + n, data[n]);
      OverlayStep(ImageOf(m), pos, data);
    }
  }

  lemma PutIsUpdate(m: Mem, pos: nat, b: byte)
    requires pos < IMG_TOTAL && Sound(m)
    ensures Sound(ImgPut(m, pos, b)) && ImageOf(ImgPut(m, pos, b)) == ImageOf(m)[pos := b]
  {
    PutSound(m, pos, b);
    var m' := ImgPut(m, pos, b);
    hide Sound, ImgPut, ImgGet;
    forall q: nat | q < IMG_TOTAL ensures ImageOf(m')[q] == ImageOf(m)[pos := b][q] {
      PutGet(m, pos, b, q);
    }
  }

  lemma EmptyOverlay(s: Sim, pos: nat)
    requires pos <= IMG_TOTAL
    ensures Overlay(s, pos, []) == s
  {
  }

  lemma OverlayStep(s: Sim, pos: nat, data: seq<byte>)
    requires data != [] && pos + |data| <= IMG_TOTAL
    ensures var n := |data| - 1; Overlay(s, pos, data) == Overlay(s, pos, data[..n])[pos + n := data[n]]
  {
  }

  /** A cell of the image. */
  predicate Carried(a: word) {
    exists pos: nat :: pos < IMG_TOTAL && AddrOf(pos) == a
  }

  /** Writing positions writes nothing but image cells. */
  lemma {:induction false} PutAllConfined(m: Mem, pos: nat, data: seq<byte>, a: word)
    requires pos + |data| <= IMG_TOTAL && !Carried(a)
    ensures PutAll(m, pos, data)[a] == m[a]
    decreases |data|
  {
    if data != [] {
      PutAllConfined(m, pos, data[..|data| - 1], a);
      assert Carried(AddrOf(pos + |data| - 1));
    }
  }

  /** Equal images mean equal cells, the two halves of a 16-bit word
      included. */
  lemma SameImageSameCells(m: Mem, n: Mem, a: word)
    requires Sound(m) && Sound(n) && ImageOf(m) == ImageOf(n) && Carried(a)
    ensures m[a] == n[a]
  {
    var pos: nat :| pos < IMG_TOTAL && AddrOf(pos) == a;
    OtherHalf(pos);
    assert ImgGet(m, pos) == ImageOf(m)[pos] == ImageOf(n)[pos] == ImgGet(n, pos);
    if LaneOf(pos) != Whole {
      var other := if LaneOf(pos) == Low then pos + 1 else pos - 1;
      assert ImgGet(m, other) == ImageOf(m)[other] == ImageOf(n)[other] == ImgGet(n, other);
      JoinSplit(m[a]);
      JoinSplit(n[a]);
    }
    hide AddrOf, LaneOf;
  }

  lemma OtherHalf(pos: nat)
    requires pos < IMG_TOTAL
    ensures LaneOf(pos) == Low ==> pos + 1 < IMG_TOTAL && AddrOf(pos + 1) == AddrOf(pos) && LaneOf(pos + 1) == High
    ensures LaneOf(pos) == High ==> pos >= 1 && AddrOf(pos - 1) == AddrOf(pos) && LaneOf(pos - 1) == Low
  {
  }

  // ---- a whole push ------------------------------------------------------

  /** The chunks of a push, applied in order. */
  function ApplyFrom(m: Mem, s: Sim, pos: nat): Mem
    requires pos <= IMG_TOTAL
    decreases IMG_TOTAL - pos
  {
    if pos == IMG_TOTAL then m
    else ApplyFrom(PutAll(m, pos, s[pos..pos + ChunkLen(pos)]), s, pos + ChunkLen(pos))
  }

  lemma {:induction false} ApplyFromImage(m: Mem, s: Sim, pos: nat)
    requires pos <= IMG_TOTAL && Sound(m) && ImageOf(m)[..pos] == s[..pos]
    ensures var m' := ApplyFrom(m, s, pos); Sound(m') && ImageOf(m') == s
    decreases IMG_TOTAL - pos
  {
    if pos < IMG_TOTAL {
      var n := ChunkLen(pos);
      var m1 := PutAll(m, pos, s[pos..pos + n]);
      PutAllOverlays(m, pos, s[pos..pos + n]);
      assert ImageOf(m1)[..pos + n] == ImageOf(m)[..pos] + s[pos..pos + n];
      assert s[..pos + n] == s[..pos] + s[pos..pos + n];
      ApplyFromImage(m1, s, pos + n);
    } else {
      assert ImageOf(m)[..pos] == ImageOf(m) && s[..pos] == s;
    }
  }

  lemma {:induction false} ApplyFromConfined(m: Mem, s: Sim, pos: nat, a: word)
    requires pos <= IMG_TOTAL && !Carried(a)
    ensures ApplyFrom(m, s, pos)[a] == m[a]
    decreases IMG_TOTAL - pos
  {
    if pos < IMG_TOTAL {
      var m1 := PutAll(m, pos, s[pos..pos + ChunkLen(pos)]);
      PutAllConfined(m, pos, s[pos..pos + ChunkLen(pos)], a);
      ApplyFromConfined(m1, s, pos + ChunkLen(pos), a);
    }
  }

  /** Round trip: after all chunks of one console's image are applied to
      another's memory, every carried cell is equal, both halves of words
      included, every other cell is as it was, and the checksums agree. */
  lemma ImageRoundTrip(host: Mem, guest: Mem)
    requires Sound(host) && Sound(guest)
    ensures var m := ApplyFrom(guest, ImageOf(host), 0);
            && Sound(m) && ImageOf(m) == ImageOf(host)
            && (forall a: word :: Carried(a) ==> m[a] == host[a])
            && (forall a: word :: !Carried(a) ==> m[a] == guest[a])
            && Checksum(ImageOf(m)) == Checksum(ImageOf(host))
  {
    var m := ApplyFrom(guest, ImageOf(host), 0);
    ApplyFromImage(guest, ImageOf(host), 0);
    forall a: word | Carried(a) ensures m[a] == host[a] {
      SameImageSameCells(m, host, a);
    }
    forall a: word | !Carried(a) ensures m[a] == guest[a] {
      ApplyFromConfined(guest, ImageOf(host), 0, a);
    }
  }

  /** The netcode's own cells that the applier and the protocol work in:
      the virtual dispatcher's scratch, the resync flags, ticks, ring indices,
      session fields, watermarks, accumulator, frame buffer, rings and
      records. */
  predicate Working(a: word) {
    || 0x80C2 <= a <= 0x80C7 || 0x8090 <= a <= 0x8098
    || 0x8108 <= a <= 0x8109 || 0x8130 <= a <= 0x8135 || 0x8160 <= a <= 0x816F
    || 0x8180 <= a <= 0x818A || a == 0x819D || 0x81A0 <= a <= 0x81A7
    || 0x8200 <= a <= 0x837F || 0x8400 <= a < 0x8C20
  }

  /** No image position reaches a cell the netcode works in. */
  lemma ImageMissesWorking(pos: nat)
    requires pos < IMG_TOTAL
    ensures !Working(AddrOf(pos))
  {
  }
}
