/** The desync checksum: the hand-unrolled LS_CKSUM, its table-driven twin in
    the trace build, and what a 16-bit rotate-add can and cannot miss. */
module Cksum {
  import opened Words
  import opened GameState
  import opened Image

  // ---- the fold ----------------------------------------------------------

  lemma {:induction false} RotAddAppend(acc: word, a: seq<word>, b: seq<word>)
    ensures RotAdd(acc, a + b) == RotAdd(RotAdd(acc, a), b)
    decreases |a|
  {
    if a == [] {
      assert a + b == b;
    } else {
      assert (a + b)[0] == a[0] && (a + b)[1..] == a[1..] + b;
      RotAddAppend(Wrap(Rotl(acc) + a[0]), a[1..], b);
    }
  }

  lemma RotAddOne(acc: word, a: seq<word>, w: word)
    ensures RotAdd(acc, a + [w]) == Wrap(Rotl(RotAdd(acc, a)) + w)
  {
    RotAddAppend(acc, a, [w]);
    var s := RotAdd(acc, a);
    assert [w][1..] == [];
    assert RotAdd(s, [w]) == RotAdd(Wrap(Rotl(s) + w), []);
  }

  /** Rotating 16 bits left loses nothing: right undoes it. */
  function Rotr(w: word): word {
    w / 2 + 0x8000 * (w % 2)
  }

  lemma RotrUndoes(w: word)
    ensures Rotr(Rotl(w)) == w
  {
    if w < 0x8000 {
      assert Rotl(w) == 2 * w;
    } else {
      assert Rotl(w) == 2 * w - 0x1_0000 + 1;
    }
  }

  lemma AddUndoes(a: word, b: word, x: int)
    requires Wrap(a + x) == Wrap(b + x)
    ensures a == b
  {
    assert Wrap(a + x) == (a + x) % 0x1_0000;
    var q, p := (a + x) / 0x1_0000, (b + x) / 0x1_0000;
    assert a + x - 0x1_0000 * q == b + x - 0x1_0000 * p;
  }

  /** The fold is injective in its accumulator: a difference once made is never
      folded away. */
  lemma {:induction false} FoldKeepsDifference(a: word, b: word, cells: seq<word>)
    requires a != b
    ensures RotAdd(a, cells) != RotAdd(b, cells)
    decreases |cells|
  {
    if cells != [] {
      if Wrap(Rotl(a) + cells[0]) == Wrap(Rotl(b) + cells[0]) {
        AddUndoes(Rotl(a), Rotl(b), cells[0]);
        RotrUndoes(a);
        RotrUndoes(b);
      }
      FoldKeepsDifference(Wrap(Rotl(a) + cells[0]), Wrap(Rotl(b) + cells[0]), cells[1..]);
    }
  }

  /** Cells that differ in exactly one place have different checksums. */
  lemma OneCellDetected(s: seq<word>, t: seq<word>, i: nat)
    requires |s| == |t| && i < |s| && s[i] != t[i]
    requires forall j :: 0 <= j < |s| && j != i ==> s[j] == t[j]
    ensures RotAdd(0, s) != RotAdd(0, t)
  {
    hide Rotl;
    var acc := RotAdd(0, s[..i]);
    assert s == s[..i] + [s[i]] + s[i + 1..] && t == s[..i] + [t[i]] + s[i + 1..];
    RotAddAppend(0, s[..i] + [s[i]], s[i + 1..]);
    RotAddAppend(0, s[..i] + [t[i]], s[i + 1..]);
    RotAddOne(0, s[..i], s[i]);
    RotAddOne(0, s[..i], t[i]);
    if Wrap(Rotl(acc) + s[i]) == Wrap(Rotl(acc) + t[i]) {
      AddUndoes(s[i], t[i], Rotl(acc));
    }
    FoldKeepsDifference(Wrap(Rotl(acc) + s[i]), Wrap(Rotl(acc) + t[i]), s[i + 1..]);
  }

  /** One step by value: the top bit comes back in at the bottom. */
  function Rotated(acc: word, w: word): (r: word) {
    (if acc < 0x8000 then 2 * acc + w else 2 * acc - 0xFFFF + w) % 0x1_0000
  }

  lemma StepByValue(acc: word, w: word)
    ensures Wrap(Rotl(acc) + w) == Rotated(acc, w)
  {
    if acc < 0x8000 {
      assert Rotl(acc) == 2 * acc;
    } else {
      assert Rotl(acc) == 2 * acc - 0x1_0000 + 1;
    }
  }

  /** Two steps tell their order apart, unless the cells are as good as
      neighbours. */
  lemma TwoSteps(acc: word, a: word, b: word)
    requires var x: int, y: int := a, b; 2 <= x - y <= 0xFFFE || 2 <= y - x <= 0xFFFE
    ensures Rotated(Rotated(acc, a), b) != Rotated(Rotated(acc, b), a)
  {
    hide Rotated;
    var u, v := Rotated(acc, a), Rotated(acc, b);
    var q0 := Carries(acc, a);
    var q1 := Carries(acc, b);
    var q2 := Carries(u, b);
    var q3 := Carries(v, a);
    if Rotated(u, b) == Rotated(v, a) {
      var hu, hv := if u < 0x8000 then 0 else 1, if v < 0x8000 then 0 else 1;
      NoCarry(a, b, hu - hv, 2 * (q0 - q1) + (hu - hv) + (q2 - q3));
    }
  }

  lemma NoCarry(a: int, b: int, h: int, k: int)
    requires 0 <= a < 0x1_0000 && 0 <= b < 0x1_0000 && -1 <= h <= 1 && a - b + h == 0x1_0000 * k
    ensures -1 <= a - b <= 1 || a - b == 0xFFFF || b - a == 0xFFFF
  {
  }

  /** A step without the remainder: the bit rotated in and the carry lost. */
  lemma Carries(acc: word, w: word) returns (q: int)
    ensures Rotated(acc, w) == 2 * acc - (if acc < 0x8000 then 0 else 0xFFFF) + w - 0x1_0000 * q
  {
    q := (if acc < 0x8000 then 2 * acc + w else 2 * acc - 0xFFFF + w) / 0x1_0000;
  }

  /** Exchanging two neighbouring cells that differ by at least two changes the
      checksum: unlike a sum it depends on the order. */
  lemma SwapDetected(s: seq<word>, i: nat)
    requires i + 1 < |s|
    requires var a: int, b: int := s[i], s[i + 1]; 2 <= a - b <= 0xFFFE || 2 <= b - a <= 0xFFFE
    ensures RotAdd(0, s[i := s[i + 1]][i + 1 := s[i]]) != RotAdd(0, s)
  {
    hide Rotl, Rotated, RotAdd;
    var t := s[i := s[i + 1]][i + 1 := s[i]];
    TwoCells(s[..i], s[i], s[i + 1], s[i + 2..]);
    TwoCells(s[..i], s[i + 1], s[i], s[i + 2..]);
    assert s == s[..i] + [s[i], s[i + 1]] + s[i + 2..] && t == s[..i] + [s[i + 1], s[i]] + s[i + 2..];
    var acc := RotAdd(0, s[..i]);
    TwoSteps(acc, s[i], s[i + 1]);
    FoldKeepsDifference(Rotated(Rotated(acc, s[i]), s[i + 1]), Rotated(Rotated(acc, s[i + 1]), s[i]), s[i + 2..]);
  }

  lemma TwoCells(before: seq<word>, a: word, b: word, rest: seq<word>)
    ensures RotAdd(0, before + [a, b] + rest) == RotAdd(Rotated(Rotated(RotAdd(0, before), a), b), rest)
  {
    hide Rotl, Rotated, RotAdd;
    RotAddAppend(0, before + [a, b], rest);
    assert before + [a, b] == before + [a] + [b];
    RotAddOne(0, before + [a], b);
    RotAddOne(0, before, a);
    StepByValue(RotAdd(0, before), a);
    StepByValue(RotAdd(0, before + [a]), b);
  }

  /** The word with one bit set. */
  function Bit(k: nat): word
    requires k < 16
  {
    if k == 0 then 1 else 2 * Bit15(k - 1)
  }

  function Bit15(k: nat): (r: nat)
    requires k < 15
    ensures 1 <= r <= 0x4000 && (k < 14 ==> r <= 0x2000)
  {
    [1, 2, 4, 8, 0x10, 0x20, 0x40, 0x80, 0x100, 0x200, 0x400, 0x800, 0x1000, 0x2000, 0x4000][k]
  }

  lemma BitTurns(k: nat)
    requires k < 16
    ensures Rotated(Bit(k), 0) == Bit((k + 1) % 16)
  {
  }

  /** A lone bit is carried around the word, once for each later cell. */
  lemma {:induction false} LoneBit(k: nat, n: nat)
    requires k < 16
    ensures RotAdd(Bit(k), Zeros(n)) == Bit((k + n) % 16)
    decreases n
  {
    hide Rotl, Rotated, Bit, RotAdd;
    if n > 0 {
      LoneBit(k, n - 1);
      RotAddAppend(Bit(k), Zeros(n - 1), [0]);
      OneMore(RotAdd(Bit(k), Zeros(n - 1)));
      BitTurns((k + n - 1) % 16);
    } else {
      NoneMore(Bit(k));
    }
  }

  function Zeros(n: nat): (r: seq<word>)
    ensures |r| == n && forall i :: 0 <= i < n ==> r[i] == 0
  {
    if n == 0 then [] else Zeros(n - 1) + [0]
  }

  lemma NoneMore(acc: word)
    ensures RotAdd(acc, []) == acc
  {
  }

  lemma OneMore(acc: word)
    ensures RotAdd(acc, [0]) == Rotated(acc, 0)
  {
    StepByValue(acc, 0);
    assert [0][1..] == [];
  }

  // ---- the table ---------------------------------------------------------

  /** TRACE_RANGES: first cell and one past the last. */
  function Ranges(): seq<(word, word)> {
    [(SCRATCH, 0x1F0), (RNG_LO, RNG_HI + 1), (RS_SPARE0, RS_SPARE0 + 1), (RS_SPARE1, RS_SPARE1 + 1),
     (SC_CNT2, RS_SPARE4 + 1), (RS_SPARE5, RS_SPARE5 + 1)]
  }

  /** A comparison of 16-bit values as signed ones. */
  predicate SignedLess(a: word, b: word) {
    (if a < 0x8000 then a else a - 0x1_0000) < (if b < 0x8000 then b else b - 0x1_0000)
  }

  /** A range the trace loop walks as written: not empty, and not across the
      sign boundary. */
  predicate Walkable(r: (word, word)) {
    0 < r.0 < r.1 && (r.1 <= 0x7FFF || 0x8000 <= r.0)
  }

  function CellsOf(m: Mem, rs: seq<(word, word)>): seq<word>
    requires forall i :: 0 <= i < |rs| ==> Walkable(rs[i])
  {
    if rs == [] then []
    else assert Walkable(rs[|rs| - 1]); CellsOf(m, rs[..|rs| - 1]) + m[rs[|rs| - 1].0..rs[|rs| - 1].1]
  }

  /** The cells the table names are, in order, the ones of the state image the
      resync's checksum covers. */
  lemma TableIsImage(m: Mem)
    requires Sound(m)
    ensures (forall i :: 0 <= i < |Ranges()| ==> Walkable(Ranges()[i])) && CellsOf(m, Ranges()) == Covered(ImageOf(m))
  {
    var s := ImageOf(m);
    TableCells(m);
    ScratchCells(m, s);
    TailCells(m, s);
  }

  lemma TableCells(m: Mem)
    ensures (forall i :: 0 <= i < |Ranges()| ==> Walkable(Ranges()[i]))
    ensures CellsOf(m, Ranges())
            == m[SCRATCH..0x1F0]
               + (m[RNG_LO..RNG_HI + 1] + m[RS_SPARE0..RS_SPARE0 + 1] + m[RS_SPARE1..RS_SPARE1 + 1]
                  + m[SC_CNT2..RS_SPARE4 + 1] + m[RS_SPARE5..RS_SPARE5 + 1])
  {
    SixRanges(m, (SCRATCH, 0x1F0), (RNG_LO, RNG_HI + 1), (RS_SPARE0, RS_SPARE0 + 1), (RS_SPARE1, RS_SPARE1 + 1),
              (SC_CNT2, RS_SPARE4 + 1), (RS_SPARE5, RS_SPARE5 + 1));
    hide CellsOf;
  }

  lemma SixRanges(m: Mem, a: (word, word), b: (word, word), c: (word, word), e: (word, word), f: (word, word),
                  g: (word, word))
    requires Walkable(a) && Walkable(b) && Walkable(c) && Walkable(e) && Walkable(f) && Walkable(g)
    ensures CellsOf(m, [a, b, c, e, f, g])
            == m[a.0..a.1] + (m[b.0..b.1] + m[c.0..c.1] + m[e.0..e.1] + m[f.0..f.1] + m[g.0..g.1])
  {
    hide CellsOf, Walkable;
    NoCells(m);
    CellsSnoc(m, [], a);
    assert [] + [a] == [a];
    CellsSnoc(m, [a], b);
    assert [a] + [b] == [a, b];
    CellsSnoc(m, [a, b], c);
    assert [a, b] + [c] == [a, b, c];
    CellsSnoc(m, [a, b, c], e);
    assert [a, b, c] + [e] == [a, b, c, e];
    CellsSnoc(m, [a, b, c, e], f);
    assert [a, b, c, e] + [f] == [a, b, c, e, f];
    CellsSnoc(m, [a, b, c, e, f], g);
    assert [a, b, c, e, f] + [g] == [a, b, c, e, f, g];
  }

  lemma NoCells(m: Mem)
    ensures CellsOf(m, []) == []
  {
  }

  lemma CellsSnoc(m: Mem, rs: seq<(word, word)>, r: (word, word))
    requires (forall i :: 0 <= i < |rs| ==> Walkable(rs[i])) && Walkable(r)
    ensures forall i :: 0 <= i < |rs + [r]| ==> Walkable((rs + [r])[i])
    ensures CellsOf(m, rs + [r]) == CellsOf(m, rs) + m[r.0..r.1]
  {
    assert (rs + [r])[..|rs|] == rs;
  }

  lemma ScratchCells(m: Mem, s: Sim)
    requires Sound(m) && s == ImageOf(m)
    ensures s[..IMG_S1] == m[SCRATCH..0x1F0]
  {
    forall i | 0 <= i < IMG_S1 ensures s[..IMG_S1][i] == m[SCRATCH..0x1F0][i] {
      assert s[i] == ImgGet(m, i);
    }
  }

  lemma TailCells(m: Mem, s: Sim)
    requires Sound(m) && s == ImageOf(m)
    ensures s[IMG_S3..IMG_S3 + 11]
            == m[RNG_LO..RNG_HI + 1] + m[RS_SPARE0..RS_SPARE0 + 1] + m[RS_SPARE1..RS_SPARE1 + 1]
               + m[SC_CNT2..RS_SPARE4 + 1] + m[RS_SPARE5..RS_SPARE5 + 1]
  {
    forall i | 0 <= i < 11 ensures s[IMG_S3 + i] == m[Tail(i)] {
      assert s[IMG_S3 + i] == ImgGet(m, IMG_S3 + i);
    }
  }

  // ---- the two routines --------------------------------------------------

  /** One rotate-add run over consecutive cells, tested at the bottom. */
  method SumRun(m: array<word>, acc: word, first: word, end: word) returns (r: word)
    requires m.Length == 0x1_0000 && Walkable((first, end))
    ensures r == RotAdd(acc, m[first..end])
    ensures var before := RotAdd(acc, m[first..end - 1]);
            r == (if before < 0x8000 then 2 * before + m[end - 1] else 2 * before - 0xFFFF + m[end - 1]) % 0x1_0000
  {
    var p: word := first;
    r := Wrap(Rotl(acc) + m[p]);
    RotAddOne(acc, [], m[first]);
    assert m[first..first + 1] == [] + [m[first]];
    p := p + 1;
    while SignedLess(p, end)
      invariant first < p <= end && r == RotAdd(acc, m[first..p])
      decreases end - p
    {
      RotAddOne(acc, m[first..p], m[p]);
      assert m[first..p + 1] == m[first..p] + [m[p]];
      r := Wrap(Rotl(r) + m[p]);
      p := p + 1;
    }
    LastStep(m[..], acc, first, end);
    assert m[..][first..end] == m[first..end] && m[..][first..end - 1] == m[first..end - 1];
  }

  lemma LastStep(m: Mem, acc: word, first: word, end: word)
    requires first < end
    ensures var before := RotAdd(acc, m[first..end - 1]);
            RotAdd(acc, m[first..end])
            == (if before < 0x8000 then 2 * before + m[end - 1] else 2 * before - 0xFFFF + m[end - 1]) % 0x1_0000
  {
    hide RotAdd, Rotl;
    assert m[first..end] == m[first..end - 1] + [m[end - 1]];
    RotAddOne(acc, m[first..end - 1], m[end - 1]);
    StepByValue(RotAdd(acc, m[first..end - 1]), m[end - 1]);
  }

  /** Rotate, then add one cell. */
  method AddCell(acc: word, w: word, ghost cells: seq<word>) returns (r: word)
    requires acc == RotAdd(0, cells)
    ensures r == RotAdd(0, cells + [w])
    ensures r == (if acc < 0x8000 then 2 * acc + w else 2 * acc - 0xFFFF + w) % 0x1_0000
  {
    StepByValue(acc, w);
    RotAddOne(0, cells, w);
    r := Wrap(Rotl(acc) + w);
  }

  /** LS_CKSUM: two loops and five single cells, by hand. */
  method LsCksum(m: array<word>) returns (r: word)
    requires m.Length == 0x1_0000 && Sound(m[..])
    ensures r == Checksum(ImageOf(m[..]))
  {
    ByHand(m[..]);
    hide RotAdd, Sound, ImageOf, Covered;
    ghost var cells: seq<word> := m[SCRATCH..0x1F0];
    r := SumRun(m, 0, SCRATCH, 0x1F0);
    r := AddCell(r, m[RNG_LO], cells);
    cells := cells + [m[RNG_LO]];
    r := AddCell(r, m[RNG_HI], cells);
    cells := cells + [m[RNG_HI]];
    r := AddCell(r, m[RS_SPARE0], cells);
    cells := cells + [m[RS_SPARE0]];
    r := AddCell(r, m[RS_SPARE1], cells);
    cells := cells + [m[RS_SPARE1]];
    RotAddAppend(0, cells, m[SC_CNT2..RS_SPARE4 + 1]);
    r := SumRun(m, r, SC_CNT2, RS_SPARE4 + 1);
    cells := cells + m[SC_CNT2..RS_SPARE4 + 1];
    r := AddCell(r, m[RS_SPARE5], cells);
  }

  lemma ByHand(m: Mem)
    requires Sound(m)
    ensures Covered(ImageOf(m))
            == m[SCRATCH..0x1F0] + [m[RNG_LO]] + [m[RNG_HI]] + [m[RS_SPARE0]] + [m[RS_SPARE1]]
               + m[SC_CNT2..RS_SPARE4 + 1] + [m[RS_SPARE5]]
  {
    var s := ImageOf(m);
    ScratchCells(m, s);
    TailCells(m, s);
  }

  /** TRACE_TICK's loops: any table of walkable ranges. */
  method TraceSum(m: array<word>, table: seq<(word, word)>) returns (r: word)
    requires m.Length == 0x1_0000 && forall i :: 0 <= i < |table| ==> Walkable(table[i])
    ensures r == RotAdd(0, CellsOf(m[..], table))
  {
    r := 0;
    var i := 0;
    while i < |table|
      invariant 0 <= i <= |table| && r == RotAdd(0, CellsOf(m[..], table[..i]))
    {
      assert table[..i + 1][..i] == table[..i];
      RotAddAppend(0, CellsOf(m[..], table[..i]), m[..][table[i].0..table[i].1]);
      assert m[table[i].0..table[i].1] == m[..][table[i].0..table[i].1];
      r := SumRun(m, r, table[i].0, table[i].1);
      i := i + 1;
    }
    assert table[..i] == table;
  }

  /** The two routines agree on every memory. */
  method TwinsAgree(m: array<word>) returns (byHand: word, byTable: word)
    requires m.Length == 0x1_0000 && Sound(m[..])
    ensures byHand == byTable == Checksum(ImageOf(m[..]))
  {
    TableIsImage(m[..]);
    byHand := LsCksum(m);
    byTable := TraceSum(m, Ranges());
  }

  /** A checksummed cell. */
  predicate Summed(pos: nat) {
    pos < IMG_S1 || IMG_S3 <= pos < IMG_S3 + 11
  }

  /** Two memories that differ in exactly one checksummed cell always have
      different checksums. */
  lemma OneCellMemory(m: Mem, n: Mem, pos: nat)
    requires Sound(m) && Sound(n) && Summed(pos) && m[AddrOf(pos)] != n[AddrOf(pos)]
    requires forall q: nat :: Summed(q) && q != pos ==> m[AddrOf(q)] == n[AddrOf(q)]
    ensures Checksum(ImageOf(m)) != Checksum(ImageOf(n))
  {
    var s, t := Covered(ImageOf(m)), Covered(ImageOf(n));
    var i := if pos < IMG_S1 then pos else pos - IMG_S3 + IMG_S1;
    forall j: nat | j < IMG_S1 + 11 ensures j != i <==> s[j] == t[j] {
      var q := if j < IMG_S1 then j else j - IMG_S1 + IMG_S3;
      assert s[j] == ImgGet(m, q) == m[AddrOf(q)] && t[j] == ImgGet(n, q) == n[AddrOf(q)];
    }
    OneCellDetected(s, t, i);
  }

  const SUMMED := IMG_S1 + 11

  /** The image position of the i-th checksummed cell. */
  function SumPos(i: nat): (pos: nat)
    requires i < SUMMED
    ensures pos < IMG_TOTAL
  {
    if i < IMG_S1 then i else i - IMG_S1 + IMG_S3
  }

  lemma CoveredCell(m: Mem, i: nat)
    requires Sound(m) && i < SUMMED
    ensures |Covered(ImageOf(m))| == SUMMED && Covered(ImageOf(m))[i] == m[AddrOf(SumPos(i))] < 0x100
  {
    assert Covered(ImageOf(m))[i] == ImageOf(m)[SumPos(i)] == ImgGet(m, SumPos(i));
  }

  /** Two memories in which two neighbouring checksummed cells, at least two
      apart, are exchanged always have different checksums. */
  lemma SwapMemory(m: Mem, n: Mem, i: nat)
    requires Sound(m) && Sound(n) && i + 1 < SUMMED
    requires var a: int, b: int := m[AddrOf(SumPos(i))], m[AddrOf(SumPos(i + 1))];
             && (2 <= a - b || 2 <= b - a)
             && n[AddrOf(SumPos(i))] == b && n[AddrOf(SumPos(i + 1))] == a
    requires forall j: nat :: j < SUMMED && j != i && j != i + 1 ==> n[AddrOf(SumPos(j))] == m[AddrOf(SumPos(j))]
    ensures Checksum(ImageOf(m)) != Checksum(ImageOf(n))
  {
    hide Covered, ImageOf, AddrOf, SumPos, Sound, RotAdd;
    var s, t := Covered(ImageOf(m)), Covered(ImageOf(n));
    forall j: nat | j < SUMMED
      ensures |s| == |t| == SUMMED && s[j] == m[AddrOf(SumPos(j))] < 0x100 && t[j] == n[AddrOf(SumPos(j))]
    {
      CoveredCell(m, j);
      CoveredCell(n, j);
    }
    assert t == s[i := s[i + 1]][i + 1 := s[i]];
    SwapDetected(s, i);
  }

  /** One set bit in an otherwise empty memory comes out turned once for each
      later cell. */
  lemma LoneCell(m: Mem, i: nat)
    requires Sound(m) && i < SUMMED && m[AddrOf(SumPos(i))] == 1
    requires forall j: nat :: j < SUMMED && j != i ==> m[AddrOf(SumPos(j))] == 0
    ensures Checksum(ImageOf(m)) == Bit((SUMMED - 1 - i) % 16)
  {
    hide ImageOf, AddrOf, SumPos, Sound, Rotl, Bit;
    var s := Covered(ImageOf(m));
    forall j: nat | j < SUMMED ensures |s| == SUMMED && s[j] == m[AddrOf(SumPos(j))] {
      CoveredCell(m, j);
    }
    var n := SUMMED - 1 - i;
    assert s == Zeros(i) + [1] + Zeros(n);
    RotAddAppend(0, Zeros(i) + [1], Zeros(n));
    RotAddAppend(0, Zeros(i), [1]);
    ZerosStay(i);
    OneBit();
    LoneBit(0, n);
  }

  lemma {:induction false} ZerosStay(n: nat)
    ensures RotAdd(0, Zeros(n)) == 0
    decreases n
  {
    hide Rotl, RotAdd;
    if n > 0 {
      ZerosStay(n - 1);
      RotAddAppend(0, Zeros(n - 1), [0]);
      OneMore(0);
    } else {
      NoneMore(0);
    }
  }

  lemma OneBit()
    ensures RotAdd(0, [1]) == Bit(0)
  {
    assert [1][1..] == [];
  }

  /** The least significant bit of $015D comes out thirteen places up. */
  lemma FirstScratchBit(m: Mem)
    requires Sound(m) && m[0x15D] == 1
    requires forall j: nat :: 0 < j < SUMMED ==> m[AddrOf(SumPos(j))] == 0
    ensures Checksum(ImageOf(m)) == 0x2000
  {
    LoneCell(m, 0);
  }
}
