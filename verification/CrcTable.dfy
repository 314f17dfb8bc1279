/** The relay's checksum table: fixed rows and seat slots in place of a
    dictionary of dictionaries. */
module CrcTable {
  import opened Words

  const CRC_TICKS := 64
  const CRC_SEATS := 8
  const ROWS := 65

  // ---- the dictionary it stands for --------------------------------------

  type Entry = map<byte, word>
  type Dict = map<word, Entry>

  function With(e: Entry, seat: byte, crc: word): Entry {
    e[seat := crc]
  }

  datatype Verdict = Waiting | Agreed | Mismatch(entry: Entry)

  predicate AllEqual(e: Entry) {
    forall s, t :: s in e && t in e ==> e[s] == e[t]
  }

  ghost predicate IsMin(d: Dict, t: word) {
    t in d && forall u :: u in d ==> t <= u
  }

  lemma {:induction false} MinExists(d: Dict)
    requires d != map[]
    ensures exists t :: IsMin(d, t)
    decreases |d|
  {
    var t :| t in d;
    var rest := d - {t};
    assert forall x :: x in d ==> x == t || x in rest;
    if rest == map[] {
      assert IsMin(d, t);
    } else {
      assert rest.Keys == d.Keys - {t};
      MinExists(rest);
      var u :| IsMin(rest, u);
      assert IsMin(d, if t <= u then t else u);
    }
  }

  /** Insert the report, evict the lowest tick above 64 ticks, and judge the
      touched tick once it holds as many seats as the room has members. */
  ghost function Logged(d: Dict, n: nat, seat: byte, tick: word, crc: word): (Dict, Verdict) {
    var entry := With(if tick in d then d[tick] else map[], seat, crc);
    var d1 := d[tick := entry];
    var d2 := if |d1| > CRC_TICKS then Evicted(d1) else d1;
    if |entry| < n then (d2, Waiting)
    else (d2 - {tick}, if AllEqual(entry) then Agreed else Mismatch(entry))
  }

  /** A report as the room sees it: kept for its tick under its seat; the verdict
      waits for as many seats as members, and says whether they all agree; a
      judged tick is forgotten, and of more than 64 ticks the least. */
  lemma LoggedSays(d: Dict, n: nat, seat: byte, tick: word, crc: word)
    ensures var (d', v) := Logged(d, n, seat, tick, crc);
            var e: Entry := (if tick in d then d[tick] else map[])[seat := crc];
            && VerdictSays(v, e, n, crc)
            && (|e| >= n ==> tick !in d')
            && (forall t :: t in d' && t != tick ==> t in d && d'[t] == d[t])
            && (tick in d' ==> d'[tick] == e)
            && (forall t :: t in d && t != tick && t !in d' ==> |d.Keys + {tick}| > 64 && forall u :: u in d ==> t <= u)
            && (|e| < n && tick !in d' ==> |d.Keys + {tick}| > 64 && forall u :: u in d ==> tick <= u)
  {
    hide Evicted, AllEqual, VerdictSays;
    var e: Entry := (if tick in d then d[tick] else map[])[seat := crc];
    VerdictIs(e, n, seat);
    TrimmedSays(d, tick, e);
  }

  /** A tick entered, and the least of more than 64 evicted. */
  lemma TrimmedSays(d: Dict, tick: word, e: Entry)
    ensures var d1 := d[tick := e];
            var d2 := if |d1| > CRC_TICKS then Evicted(d1) else d1;
            && (forall t :: t in d2 && t != tick ==> t in d && d2[t] == d[t])
            && (tick in d2 ==> d2[tick] == e)
            && (forall t :: t in d && t !in d2 ==> |d.Keys + {tick}| > 64 && forall u :: u in d ==> t <= u)
            && (tick !in d2 ==> |d.Keys + {tick}| > 64 && forall u :: u in d ==> tick <= u)
  {
    hide Evicted;
    var d1: Dict := d[tick := e];
    assert d1.Keys == d.Keys + {tick};
    KeysCount(d1);
    if |d1| > CRC_TICKS {
      EvictedSays(d1);
    }
  }

  lemma KeysCount(d: Dict)
    ensures |d| == |d.Keys|
  {
  }

  lemma EvictedSays(d: Dict)
    requires d != map[]
    ensures var d' := Evicted(d);
            && (forall t :: t in d' ==> t in d && d'[t] == d[t])
            && (forall t :: t in d && t !in d' ==> forall u :: u in d ==> t <= u)
  {
    MinExists(d);
    var m :| IsMin(d, m);
    EvictedIs(d, m);
  }

  ghost predicate VerdictSays(v: Verdict, e: Entry, n: nat, crc: word) {
    && (v.Waiting? <==> |e| < n)
    && (v.Agreed? <==> |e| >= n && forall s :: s in e ==> e[s] == crc)
    && (v.Mismatch? ==> v.entry == e && exists s :: s in e && e[s] != crc)
  }

  lemma VerdictIs(e: Entry, n: nat, seat: byte)
    requires seat in e
    ensures VerdictSays(if |e| < n then Waiting else if AllEqual(e) then Agreed else Mismatch(e), e, n, e[seat])
  {
  }

  ghost function Evicted(d: Dict): Dict
    requires d != map[]
  {
    MinExists(d);
    var t :| IsMin(d, t);
    d - {t}
  }

  lemma EvictedIs(d: Dict, t: word)
    requires IsMin(d, t)
    ensures Evicted(d) == d - {t}
  {
  }

  // ---- rows and slots ----------------------------------------------------

  datatype Slot = Slot(inUse: bool, seat: byte, crc: word)

  datatype Row = Row(inUse: bool, tick: word, nseats: nat, s: seq<Slot>)

  const FREE_SLOT := Slot(false, 0, 0)

  function FreshRow(tick: word): Row {
    Row(true, tick, 0, seq(CRC_SEATS, i => FREE_SLOT))
  }

  /** The slots hold exactly an entry's seats. */
  ghost predicate SlotsShow(s: seq<Slot>, e: Entry) {
    && |s| == CRC_SEATS
    && (forall i :: 0 <= i < |s| && s[i].inUse ==> s[i].seat in e && e[s[i].seat] == s[i].crc)
    && (forall i, j :: 0 <= i < j < |s| && s[i].inUse && s[j].inUse ==> s[i].seat != s[j].seat)
    && (forall t :: t in e ==> exists i :: 0 <= i < |s| && s[i].inUse && s[i].seat == t)
  }

  ghost predicate RowShows(r: Row, e: Entry) {
    SlotsShow(r.s, e) && r.nseats == |e|
  }

  /** The rows hold exactly a dictionary's ticks. */
  ghost predicate RowsShow(rows: seq<Row>, d: Dict) {
    && |rows| == ROWS
    && (forall i :: 0 <= i < |rows| && rows[i].inUse ==> rows[i].tick in d && RowShows(rows[i], d[rows[i].tick]))
    && (forall i, j :: 0 <= i < j < |rows| && rows[i].inUse && rows[j].inUse ==> rows[i].tick != rows[j].tick)
    && (forall t :: t in d ==> exists i :: 0 <= i < |rows| && rows[i].inUse && rows[i].tick == t)
  }

  // ---- counting ----------------------------------------------------------

  lemma {:induction false} SeatSet(s: seq<Slot>, k: nat)
    requires k <= |s|
    requires forall i, j :: 0 <= i < j < k ==> s[i].seat != s[j].seat
    ensures |set i | 0 <= i < k :: s[i].seat| == k
    decreases k
  {
    if k > 0 {
      SeatSet(s, k - 1);
      assert (set i | 0 <= i < k :: s[i].seat) == (set i | 0 <= i < k - 1 :: s[i].seat) + {s[k - 1].seat};
    }
  }

  ghost function TicksOf(rows: seq<Row>, k: nat): set<nat>
    requires k <= |rows|
  {
    set i | 0 <= i < k :: rows[i].tick
  }

  lemma {:induction false} TickSet(rows: seq<Row>, k: nat)
    requires k <= |rows|
    requires forall i, j :: 0 <= i < j < k ==> rows[i].tick != rows[j].tick
    ensures |TicksOf(rows, k)| == k
    decreases k
  {
    if k > 0 {
      TickSet(rows, k - 1);
      assert TicksOf(rows, k) == TicksOf(rows, k - 1) + {rows[k - 1].tick};
      assert rows[k - 1].tick !in TicksOf(rows, k - 1);
    }
  }

  lemma {:induction false} SubsetCount<T>(a: set<T>, b: set<T>)
    requires a <= b
    ensures |a| <= |b|
    decreases |a|
  {
    if a != {} {
      var x :| x in a;
      SubsetCount(a - {x}, b - {x});
    }
  }

  /** Fewer than 65 ticks leave a row free. */
  lemma RowIsFree(rows: seq<Row>, d: Dict)
    requires RowsShow(rows, d) && |d| < ROWS
    ensures exists i :: 0 <= i < ROWS && !rows[i].inUse
  {
    if forall i :: 0 <= i < ROWS ==> rows[i].inUse {
      var ticks := TicksOf(rows, ROWS);
      TickSet(rows, ROWS);
      assert ticks <= d.Keys;
      SubsetCount(ticks, d.Keys);
    }
  }

  /** Fewer than 8 seats leave a slot free. */
  lemma SlotIsFree(s: seq<Slot>, e: Entry)
    requires SlotsShow(s, e) && |e| < CRC_SEATS
    ensures exists i :: 0 <= i < CRC_SEATS && !s[i].inUse
  {
    if forall i :: 0 <= i < CRC_SEATS ==> s[i].inUse {
      var seats := set i | 0 <= i < CRC_SEATS :: s[i].seat;
      SeatSet(s, CRC_SEATS);
      assert seats <= e.Keys;
      SubsetCount(seats, e.Keys);
    }
  }

  // ---- one report --------------------------------------------------------

  /** The rows with one row's slots replaced, its tick now holding e. */
  lemma RowReplaced(rows: seq<Row>, d: Dict, i: nat, r: Row, e: Entry)
    requires i < |rows| && RowsShow(rows, d) && r.inUse && RowShows(r, e)
    requires if rows[i].inUse then r.tick == rows[i].tick else r.tick !in d
    ensures RowsShow(rows[i := r], d[r.tick := e])
  {
    hide RowShows;
    var rows', d' := rows[i := r], d[r.tick := e];
    forall j | 0 <= j < ROWS && rows'[j].inUse
      ensures rows'[j].tick in d' && RowShows(rows'[j], d'[rows'[j].tick])
    {
      if j != i {
        assert rows'[j] == rows[j] && rows[j].tick != r.tick;
      }
    }
    forall t | t in d' ensures exists j :: 0 <= j < ROWS && rows'[j].inUse && rows'[j].tick == t {
      if t == r.tick {
        assert rows'[i].tick == t;
      } else {
        var j :| 0 <= j < ROWS && rows[j].inUse && rows[j].tick == t;
        assert rows'[j] == rows[j];
      }
    }
  }

  lemma RowFreed(rows: seq<Row>, d: Dict, i: nat)
    requires i < |rows| && RowsShow(rows, d) && rows[i].inUse
    ensures RowsShow(rows[i := rows[i].(inUse := false)], d - {rows[i].tick})
    ensures |d - {rows[i].tick}| == |d| - 1
  {
    hide RowShows;
    var rows', d' := rows[i := rows[i].(inUse := false)], d - {rows[i].tick};
    forall j | 0 <= j < ROWS && rows'[j].inUse
      ensures rows'[j].tick in d' && RowShows(rows'[j], d'[rows'[j].tick])
    {
      assert j != i && rows'[j] == rows[j] && rows[j].tick != rows[i].tick;
    }
    forall t | t in d' ensures exists j :: 0 <= j < ROWS && rows'[j].inUse && rows'[j].tick == t {
      var j :| 0 <= j < ROWS && rows[j].inUse && rows[j].tick == t;
      assert rows'[j] == rows[j];
    }
    assert d'.Keys == d.Keys - {rows[i].tick};
  }

  lemma SlotReplaced(s: seq<Slot>, e: Entry, i: nat, seat: byte, crc: word)
    requires i < |s| && SlotsShow(s, e)
    requires if s[i].inUse then s[i].seat == seat else seat !in e
    ensures SlotsShow(s[i := Slot(true, seat, crc)], With(e, seat, crc))
  {
    var s', e' := s[i := Slot(true, seat, crc)], With(e, seat, crc);
    forall t | t in e' ensures exists j :: 0 <= j < |s'| && s'[j].inUse && s'[j].seat == t {
      if t == seat {
        assert s'[i].seat == t;
      } else {
        var j :| 0 <= j < |s| && s[j].inUse && s[j].seat == t;
        assert s'[j] == s[j];
      }
    }
  }

  /** The row of a tick, or 65. */
  method FindRow(rows: seq<Row>, tick: word) returns (i: nat)
    requires |rows| == ROWS
    ensures i <= ROWS
    ensures i < ROWS ==> rows[i].inUse && rows[i].tick == tick
    ensures i == ROWS ==> forall j :: 0 <= j < ROWS && rows[j].inUse ==> rows[j].tick != tick
  {
    i := 0;
    while i < ROWS && !(rows[i].inUse && rows[i].tick == tick)
      invariant 0 <= i <= ROWS
      invariant forall j :: 0 <= j < i && rows[j].inUse ==> rows[j].tick != tick
    {
      i := i + 1;
    }
  }

  /** A free row: there always is one, with at most 64 ticks held. */
  method FreeRow(rows: seq<Row>, ghost d: Dict) returns (i: nat)
    requires RowsShow(rows, d) && |d| < ROWS
    ensures i < ROWS && !rows[i].inUse
  {
    RowIsFree(rows, d);
    i := 0;
    while rows[i].inUse
      invariant 0 <= i < ROWS
      invariant exists j :: i <= j < ROWS && !rows[j].inUse
      decreases ROWS - i
    {
      i := i + 1;
    }
  }

  /** The row in use with the lowest tick. */
  method LowestRow(rows: seq<Row>) returns (lowest: nat)
    requires |rows| == ROWS && exists i :: 0 <= i < ROWS && rows[i].inUse
    ensures lowest < ROWS && rows[lowest].inUse
    ensures forall j :: 0 <= j < ROWS && rows[j].inUse ==> rows[lowest].tick <= rows[j].tick
  {
    lowest := ROWS;
    var i := 0;
    while i < ROWS
      invariant 0 <= i <= ROWS
      invariant lowest == ROWS || (lowest < i && rows[lowest].inUse)
      invariant forall j :: 0 <= j < i && rows[j].inUse ==> lowest < i && rows[lowest].tick <= rows[j].tick
    {
      if rows[i].inUse && (lowest == ROWS || rows[i].tick < rows[lowest].tick) {
        lowest := i;
      }
      i := i + 1;
    }
  }

  /** The slot for a seat: its own, or a free one. */
  method SlotFor(s: seq<Slot>, seat: byte, ghost e: Entry) returns (j: nat)
    requires SlotsShow(s, e) && |e| < CRC_SEATS
    ensures j < CRC_SEATS && (if s[j].inUse then s[j].seat == seat else seat !in e)
  {
    j := 0;
    while j < CRC_SEATS && !(s[j].inUse && s[j].seat == seat)
      invariant 0 <= j <= CRC_SEATS
      invariant forall k :: 0 <= k < j ==> !(s[k].inUse && s[k].seat == seat)
    {
      j := j + 1;
    }
    if j == CRC_SEATS {
      SlotIsFree(s, e);
      j := 0;
      while s[j].inUse
        invariant 0 <= j < CRC_SEATS
        invariant exists k :: j <= k < CRC_SEATS && !s[k].inUse
        decreases CRC_SEATS - j
      {
        j := j + 1;
      }
    }
  }

  /** Whether all the checksums of a row agree. */
  method Agrees(s: seq<Slot>, ghost e: Entry) returns (agree: bool)
    requires SlotsShow(s, e)
    ensures agree <==> AllEqual(e)
  {
    var nvals, j := 0, 0;
    var first: word := 0;
    agree := true;
    while j < CRC_SEATS
      invariant 0 <= j <= CRC_SEATS
      invariant nvals == 0 ==> forall k :: 0 <= k < j ==> !s[k].inUse
      invariant nvals > 0 ==> exists k :: 0 <= k < j && s[k].inUse && s[k].crc == first
      invariant agree <==> forall k :: 0 <= k < j && s[k].inUse ==> s[k].crc == first
    {
      if s[j].inUse {
        if nvals == 0 {
          first := s[j].crc;
        } else if s[j].crc != first {
          agree := false;
        }
        nvals := nvals + 1;
      }
      j := j + 1;
    }
    AgreeMeansEqual(s, e, first, agree);
  }

  /** The mismatch line's pairs, in ascending seat order. */
  method SortedSeats(s: seq<Slot>, ghost e: Entry) returns (line: seq<(byte, word)>)
    requires SlotsShow(s, e)
    ensures Lists(line, e)
  {
    line := [];
    var pass: int := 0;
    while pass < 0x100
      invariant 0 <= pass <= 0x100
      invariant forall i :: 0 <= i < |line| ==> line[i].0 < pass && line[i].0 in e && e[line[i].0] == line[i].1
      invariant forall i, j :: 0 <= i < j < |line| ==> line[i].0 < line[j].0
      invariant forall t :: t in e && t < pass ==> exists i :: 0 <= i < |line| && line[i].0 == t
    {
      ghost var before := line;
      var k := 0;
      while k < CRC_SEATS && !(s[k].inUse && s[k].seat == pass)
        invariant 0 <= k <= CRC_SEATS
        invariant forall i :: 0 <= i < k ==> !(s[i].inUse && s[i].seat == pass)
      {
        k := k + 1;
      }
      if k < CRC_SEATS {
        line := line + [(s[k].seat, s[k].crc)];
        assert line[|before|].0 == pass;
      }
      forall t | t in e && t < pass + 1 ensures exists i :: 0 <= i < |line| && line[i].0 == t {
        if t < pass {
          var i :| 0 <= i < |before| && before[i].0 == t;
          assert line[i] == before[i];
        }
      }
      pass := pass + 1;
    }
  }

  /** Every tick held lacks a seat. */
  ghost predicate Partial(d: Dict, n: nat) {
    forall t :: t in d ==> 0 < |d[t]| < n
  }

  lemma StaysPartial(d0: Dict, n: nat, tick: word, e: Entry, d2: Dict, d3: Dict)
    requires Partial(d0, n) && 0 < |e|
    requires forall t :: t in d2 ==> t in d0[tick := e] && d2[t] == d0[tick := e][t]
    requires d3 == if |e| < n then d2 else d2 - {tick}
    ensures Partial(d3, n)
  {
  }

  lemma LoggedIs(d0: Dict, n: nat, seat: byte, tick: word, crc: word, e: Entry, d2: Dict)
    requires e == With(if tick in d0 then d0[tick] else map[], seat, crc)
    requires d2 == if |d0[tick := e]| > CRC_TICKS then Evicted(d0[tick := e]) else d0[tick := e]
    ensures Logged(d0, n, seat, tick, crc)
            == if |e| < n then (d2, Waiting) else (d2 - {tick}, if AllEqual(e) then Agreed else Mismatch(e))
  {
  }

  /** One room's table during one match. */
  class CrcLog {
    var rows: seq<Row>
    var ncrc: nat
    var ok: nat
    const members: nat
    ghost var dict: Dict

    ghost predicate Valid()
      reads this
    {
      && 2 <= members <= 4 && RowsShow(rows, dict) && ncrc == |dict| <= CRC_TICKS
      && Partial(dict, members)
    }

    constructor (n: nat)
      requires 2 <= n <= 4
      ensures Valid() && dict == map[] && members == n && ok == 0
    {
      rows, ncrc, ok, members, dict := seq(ROWS, i => Row(false, 0, 0, [])), 0, 0, n, map[];
    }

    /** The row of a tick, taking a free one when there is none. */
    method TakeRow(tick: word) returns (i: nat)
      requires Valid()
      modifies this`rows, this`ncrc, this`dict
      ensures RowsShow(rows, dict) && ncrc == |dict| && i < ROWS && rows[i].inUse && rows[i].tick == tick
      ensures dict == if tick in old(dict) then old(dict) else old(dict)[tick := map[]]
    {
      hide RowShows;
      i := FindRow(rows, tick);
      if i == ROWS {
        i := FreeRow(rows, dict);
        FreshRowShows(tick);
        RowReplaced(rows, dict, i, FreshRow(tick), map[]);
        rows, ncrc, dict := rows[i := FreshRow(tick)], ncrc + 1, dict[tick := map[]];
      }
    }

    /** Store a seat's checksum in row i. */
    method StoreSeat(i: nat, seat: byte, crc: word)
      requires i < ROWS && RowsShow(rows, dict) && rows[i].inUse && |dict[rows[i].tick]| < CRC_SEATS
      modifies this`rows, this`dict
      ensures RowsShow(rows, dict) && rows[i].inUse && rows[i].tick == old(rows[i].tick)
      ensures dict == old(dict)[old(rows[i].tick) := With(old(dict[rows[i].tick]), seat, crc)]
    {
      ghost var e := dict[rows[i].tick];
      var r := rows[i];
      var j := SlotFor(r.s, seat, e);
      if !r.s[j].inUse {
        r := r.(nseats := r.nseats + 1);
      }
      SlotReplaced(r.s, e, j, seat, crc);
      r := r.(s := r.s[j := Slot(true, seat, crc)]);
      RowReplaced(rows, dict, i, r, With(e, seat, crc));
      rows, dict := rows[i := r], dict[r.tick := With(e, seat, crc)];
    }

    /** Free a row in use. */
    method Free(i: nat)
      requires RowsShow(rows, dict) && ncrc == |dict| && i < ROWS && rows[i].inUse
      modifies this`rows, this`ncrc, this`dict
      ensures RowsShow(rows, dict) && ncrc == |dict| == |old(dict)| - 1
      ensures rows == old(rows)[i := old(rows[i]).(inUse := false)] && dict == old(dict) - {old(rows[i].tick)}
    {
      hide RowShows;
      RowFreed(rows, dict, i);
      dict := dict - {rows[i].tick};
      rows, ncrc := rows[i := rows[i].(inUse := false)], ncrc - 1;
    }

    /** Free the row with the lowest tick; row i, of a tick held, keeps its
        contents. */
    method Evict(i: nat)
      requires RowsShow(rows, dict) && ncrc == |dict| && i < ROWS && rows[i].inUse
      modifies this`rows, this`ncrc, this`dict
      ensures RowsShow(rows, dict) && dict == Evicted(old(dict)) && ncrc == |dict| == |old(dict)| - 1
      ensures |rows| == ROWS && rows[i].(inUse := true) == old(rows[i]) && (rows[i].inUse <==> rows[i].tick in dict)
    {
      hide RowShows;
      var lowest := LowestRow(rows);
      EvictedIs(dict, rows[lowest].tick);
      assert lowest != i ==> rows[lowest].tick != rows[i].tick;
      Free(lowest);
    }

    /** Judge a touched row, which eviction may already have freed. */
    method Judge(i: nat, ghost tick: word, ghost e: Entry) returns (verdict: Verdict, line: seq<(byte, word)>)
      requires RowsShow(rows, dict) && ncrc == |dict| && i < ROWS && rows[i].tick == tick && RowShows(rows[i], e)
      requires rows[i].inUse <==> tick in dict
      modifies this`rows, this`ncrc, this`dict, this`ok
      ensures RowsShow(rows, dict) && ncrc == |dict| <= |old(dict)|
      ensures if |e| < members then dict == old(dict) && verdict == Waiting
              else dict == old(dict) - {tick} && verdict == if AllEqual(e) then Agreed else Mismatch(e)
      ensures ok == old(ok) + if verdict == Agreed then 1 else 0
      ensures verdict.Mismatch? ==> Lists(line, e)
    {
      var r := rows[i];
      line := [];
      if r.nseats < members {
        return Waiting, [];
      }
      hide RowsShow, SlotsShow, Lists, AllEqual, EntryOf;
      var agree := Agrees(r.s, e);
      EntryShown(r.s, e);
      if r.inUse {
        Free(i);
      } else {
        assert dict - {tick} == dict;
      }
      if agree {
        ok := ok + 1;
        verdict := Agreed;
      } else {
        line := SortedSeats(r.s, e);
        verdict := Mismatch(EntryOf(r.s, CRC_SEATS));
      }
    }

    /** Insert a report: the tick's row and what it now holds. */
    method Insert(seat: byte, tick: word, crc: word) returns (i: nat, ghost entry: Entry)
      requires Valid()
      modifies this`rows, this`ncrc, this`dict
      ensures RowsShow(rows, dict) && ncrc == |dict| && i < ROWS && rows[i].inUse && rows[i].tick == tick
      ensures |rows| == ROWS && RowShows(rows[i], entry) && 0 < |entry| <= members
      ensures entry == With(if tick in old(dict) then old(dict)[tick] else map[], seat, crc)
      ensures dict == old(dict)[tick := entry] && |dict| <= CRC_TICKS + 1
    {
      hide RowsShow, RowShows;
      i := TakeRow(tick);
      TouchedRow(rows, dict, i);
      WithSize(dict[tick], seat, crc);
      StoreSeat(i, seat, crc);
      entry := dict[tick];
      TouchedRow(rows, dict, i);
    }

    /** The eviction after an insert into row i. */
    method Trim(i: nat, ghost e: Entry)
      requires RowsShow(rows, dict) && ncrc == |dict| <= CRC_TICKS + 1 && |rows| == ROWS && i < ROWS
      requires rows[i].inUse && RowShows(rows[i], e) && dict != map[] && rows[i].tick in dict
      modifies this`rows, this`ncrc, this`dict
      ensures RowsShow(rows, dict) && ncrc == |dict| <= CRC_TICKS && |rows| == ROWS
      ensures dict == if |old(dict)| > CRC_TICKS then Evicted(old(dict)) else old(dict)
      ensures rows[i].tick == old(rows[i].tick) && RowShows(rows[i], e) && (rows[i].inUse <==> rows[i].tick in dict)
      ensures forall t :: t in dict ==> t in old(dict) && dict[t] == old(dict)[t]
    {
      hide RowsShow, RowShows, Evicted;
      if ncrc > CRC_TICKS {
        ghost var r := rows[i];
        EvictedTick(dict, r.tick);
        Evict(i);
        SameSlots(r, rows[i], e);
      }
    }

    /** log_crc: the same dictionary and the same verdict as the dictionary
        version, for any seat byte; a row and a slot are always found. */
    method Log(seat: byte, tick: word, crc: word) returns (verdict: Verdict, line: seq<(byte, word)>)
      requires Valid()
      modifies this
      ensures Valid()
      ensures (dict, verdict) == Logged(old(dict), members, seat, tick, crc)
      ensures ok == old(ok) + if verdict == Agreed then 1 else 0
      ensures verdict.Mismatch? ==> Lists(line, verdict.entry)
    {
      hide RowsShow, RowShows, Evicted, AllEqual, Lists, With, Logged, Partial;
      ghost var before := dict;
      ghost var entry;
      var i;
      ValidPartial();
      i, entry := Insert(seat, tick, crc);
      Trim(i, entry);
      ghost var trimmed := dict;
      LoggedIs(before, members, seat, tick, crc, entry, trimmed);
      verdict, line := Judge(i, tick, entry);
      StaysPartial(before, members, tick, entry, trimmed, dict);
    }

    lemma ValidPartial()
      requires Valid()
      ensures Partial(dict, members)
    {
    }
  }

  datatype Report = Report(seat: byte, tick: word, crc: word)

  /** The dictionary version over a whole match. */
  ghost function LoggedAll(d: Dict, n: nat, reports: seq<Report>): (Dict, seq<Verdict>)
    decreases |reports|
  {
    if reports == [] then (d, [])
    else
      var (d1, vs) := LoggedAll(d, n, reports[..|reports| - 1]);
      var r := reports[|reports| - 1];
      var (d2, v) := Logged(d1, n, r.seat, r.tick, r.crc);
      (d2, vs + [v])
  }

  /** Every report sequence, with arbitrary seat bytes, gets the dictionary
      version's verdicts from the fixed table. */
  method Replay(n: nat, reports: seq<Report>) returns (verdicts: seq<Verdict>)
    requires 2 <= n <= 4
    ensures verdicts == LoggedAll(map[], n, reports).1
  {
    hide RowsShow, Partial, Logged;
    var table := new CrcLog(n);
    verdicts := [];
    var i := 0;
    while i < |reports|
      invariant 0 <= i <= |reports| && table.Valid() && fresh(table) && table.members == n
      invariant (table.dict, verdicts) == LoggedAll(map[], n, reports[..i])
    {
      assert reports[..i + 1][..i] == reports[..i];
      var v, line := table.Log(reports[i].seat, reports[i].tick, reports[i].crc);
      verdicts := verdicts + [v];
      i := i + 1;
    }
    assert reports[..i] == reports;
  }

  /** Everything the dictionary holds was reported. */
  ghost predicate Held(d: Dict, reports: seq<Report>) {
    forall t, s :: t in d && s in d[t] ==> Report(s, t, d[t][s]) in reports
  }

  lemma HeldOn(d: Dict, n: nat, reports: seq<Report>, r: Report)
    requires Held(d, reports)
    ensures Held(Logged(d, n, r.seat, r.tick, r.crc).0, reports + [r])
  {
    var d' := Logged(d, n, r.seat, r.tick, r.crc).0;
    LoggedSays(d, n, r.seat, r.tick, r.crc);
    hide Logged;
    forall t, s | t in d' && s in d'[t] ensures Report(s, t, d'[t][s]) in reports + [r] {
      if t != r.tick {
        assert d'[t] == d[t];
      }
    }
  }

  lemma {:induction false} LoggedHeld(n: nat, reports: seq<Report>)
    ensures Held(LoggedAll(map[], n, reports).0, reports) && |LoggedAll(map[], n, reports).1| == |reports|
    decreases |reports|
  {
    hide Logged, Held;
    if reports != [] {
      var k := |reports| - 1;
      LoggedHeld(n, reports[..k]);
      HeldOn(LoggedAll(map[], n, reports[..k]).0, n, reports[..k], reports[k]);
      assert reports == reports[..k] + [reports[k]];
    } else {
      NothingHeld();
    }
  }

  lemma NothingHeld()
    ensures Held(map[], [])
  {
  }

  /** No false alarm over any sequence of reports, however ticks are evicted: a
      mismatch is only called on a report that differs from one another seat made
      for the same tick. */
  lemma MismatchIsReal(n: nat, reports: seq<Report>)
    requires reports != [] && LoggedAll(map[], n, reports).1 != []
    requires var vs := LoggedAll(map[], n, reports).1; vs[|vs| - 1].Mismatch?
    ensures var r := reports[|reports| - 1];
            exists q :: q in reports && q.tick == r.tick && q.seat != r.seat && q.crc != r.crc
  {
    hide Logged;
    var k := |reports| - 1;
    var r := reports[k];
    LoggedHeld(n, reports[..k]);
    var d := LoggedAll(map[], n, reports[..k]).0;
    LoggedSays(d, n, r.seat, r.tick, r.crc);
    var e := (if r.tick in d then d[r.tick] else map[])[r.seat := r.crc];
    var s :| s in e && e[s] != r.crc;
    assert Report(s, r.tick, d[r.tick][s]) in reports[..k];
  }

  lemma SameSlots(r: Row, r': Row, e: Entry)
    requires RowShows(r, e) && r'.(inUse := true) == r
    ensures RowShows(r', e)
  {
  }

  lemma TouchedRow(rows: seq<Row>, d: Dict, i: nat)
    requires RowsShow(rows, d) && i < ROWS && rows[i].inUse
    ensures |rows| == ROWS && rows[i].tick in d && RowShows(rows[i], d[rows[i].tick])
  {
  }

  lemma WithSize(e: Entry, seat: byte, crc: word)
    ensures |e| <= |With(e, seat, crc)| <= |e| + 1 && With(e, seat, crc) != map[]
  {
    var e' := With(e, seat, crc);
    assert e'.Keys == e.Keys + {seat};
    assert seat in e';
  }

  lemma EvictedTick(d: Dict, tick: word)
    requires d != map[]
    ensures var d' := Evicted(d); (forall t :: t in d' ==> t in d && d'[t] == d[t])
  {
    MinExists(d);
  }

  /** A line of pairs, ascending by seat, listing exactly an entry. */
  ghost predicate Lists(line: seq<(byte, word)>, e: Entry) {
    && (forall i, j :: 0 <= i < j < |line| ==> line[i].0 < line[j].0)
    && (forall i :: 0 <= i < |line| ==> line[i].0 in e && e[line[i].0] == line[i].1)
    && (forall t :: t in e ==> exists i :: 0 <= i < |line| && line[i].0 == t)
  }

  /** All eight slots together hold the entry. */
  lemma EntryShown(s: seq<Slot>, e: Entry)
    requires SlotsShow(s, e)
    ensures EntryOf(s, CRC_SEATS) == e
  {
    forall t ensures t in EntryOf(s, CRC_SEATS) <==> t in e {
      EntryHas(s, e, CRC_SEATS, t);
    }
    forall t | t in e ensures EntryOf(s, CRC_SEATS)[t] == e[t] {
      EntryHas(s, e, CRC_SEATS, t);
    }
  }

  lemma {:induction false} EntryHas(s: seq<Slot>, e: Entry, k: nat, t: byte)
    requires SlotsShow(s, e) && k <= CRC_SEATS
    ensures t in EntryOf(s, k) <==> exists i :: 0 <= i < k && s[i].inUse && s[i].seat == t
    ensures t in EntryOf(s, k) ==> t in e && EntryOf(s, k)[t] == e[t]
    decreases k
  {
    if k > 0 {
      EntryHas(s, e, k - 1, t);
    }
  }

  lemma FreshRowShows(tick: word)
    ensures RowShows(FreshRow(tick), map[])
  {
  }

  /** The entry held by the first k slots. */
  function EntryOf(s: seq<Slot>, k: nat): Entry
    requires k <= |s|
  {
    if k == 0 then map[]
    else if s[k - 1].inUse then With(EntryOf(s, k - 1), s[k - 1].seat, s[k - 1].crc)
    else EntryOf(s, k - 1)
  }

  lemma AgreeMeansEqual(s: seq<Slot>, e: Entry, first: word, agree: bool)
    requires SlotsShow(s, e)
    requires agree <==> forall k :: 0 <= k < CRC_SEATS && s[k].inUse ==> s[k].crc == first
    requires (forall k :: 0 <= k < CRC_SEATS ==> !s[k].inUse)
             || exists k :: 0 <= k < CRC_SEATS && s[k].inUse && s[k].crc == first
    ensures agree <==> AllEqual(e)
  {
  }
}
