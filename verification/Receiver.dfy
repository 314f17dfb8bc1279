/** The console's end of the byte stream: SES_PUMP's circular accumulator with
    its byte-slip recovery. */
module Receiver {
  import opened Words
  import opened Console16
  import opened Frames

  // ---- what the stream means ---------------------------------------------

  /** The frames of a stream, how many bytes had to be dropped to stay aligned,
      and the unfinished rest. */
  datatype Parse = Parse(frames: seq<seq<byte>>, slips: nat, rest: seq<byte>)

  function ParseStream(s: seq<byte>): (p: Parse)
    ensures |p.rest| <= 99
    decreases |s|
  {
    if |s| < 2 then Parse([], 0, s)
    else if !Plausible(s[0], s[1]) then
      var p := ParseStream(s[1..]);
      p.(slips := p.slips + 1)
    else if |s| < Total(s[0]) then Parse([], 0, s)
    else
      var p := ParseStream(s[Total(s[0])..]);
      p.(frames := [s[..Total(s[0])]] + p.frames)
  }

  /** Appending one parse to another. */
  function Then(p: Parse, q: Parse): Parse {
    Parse(p.frames + q.frames, p.slips + q.slips, q.rest)
  }

  predicate Slips(s: seq<byte>) {
    |s| >= 2 && !Plausible(s[0], s[1])
  }

  predicate Starts(s: seq<byte>) {
    |s| >= 2 && Plausible(s[0], s[1]) && Total(s[0]) <= |s|
  }

  /** One step of the parser: drop a byte, take a frame, or stop. */
  lemma ParseStep(s: seq<byte>)
    ensures Slips(s) ==> ParseStream(s) == Then(Parse([], 1, s[1..]), ParseStream(s[1..]))
    ensures Starts(s) ==>
              ParseStream(s) == Then(Parse([s[..Total(s[0])]], 0, s[Total(s[0])..]), ParseStream(s[Total(s[0])..]))
    ensures !Slips(s) && !Starts(s) ==> ParseStream(s) == Parse([], 0, s)
  {
  }

  lemma ThenAssociates(p: Parse, q: Parse, r: Parse)
    ensures Then(Then(p, q), r) == Then(p, Then(q, r))
  {
  }

  /** Split independence: for any byte stream, well-formed or corrupt, parsing
      a first part and then its rest followed by the second part is parsing
      the whole. */
  lemma {:induction false} SplitParse(a: seq<byte>, b: seq<byte>)
    ensures ParseStream(a + b) == Then(ParseStream(a), ParseStream(ParseStream(a).rest + b))
    decreases |a|
  {
    hide ParseStream, Plausible;
    ParseStep(a);
    ParseStep(a + b);
    if Slips(a) {
      assert (a + b)[1..] == a[1..] + b;
      SplitParse(a[1..], b);
      ThenAssociates(Parse([], 1, a[1..]), ParseStream(a[1..]), ParseStream(ParseStream(a[1..]).rest + b));
    } else if Starts(a) {
      var n := Total(a[0]);
      var head := Parse([a[..n]], 0, a[n..]);
      assert (a + b)[n..] == a[n..] + b && (a + b)[..n] == a[..n];
      SplitParse(a[n..], b);
      ThenAssociates(head, ParseStream(a[n..]), ParseStream(ParseStream(a[n..]).rest + b));
    }
  }

  /** The parse of whatever a sequence of reads delivers. */
  function ParseReads(rest: seq<byte>, chunks: seq<seq<byte>>): Parse
    decreases |chunks|
  {
    if chunks == [] then Parse([], 0, rest)
    else
      var p := ParseStream(rest + chunks[0]);
      Then(p, ParseReads(p.rest, chunks[1..]))
  }

  function Concat(chunks: seq<seq<byte>>): seq<byte> {
    if chunks == [] then [] else chunks[0] + Concat(chunks[1..])
  }

  /** Every byte is accounted for: dispatched in a frame, slipped, or still
      waiting at the end of the stream. */
  lemma {:induction false} ParseConserves(s: seq<byte>)
    ensures var p := ParseStream(s);
            && |s| == |Concat(p.frames)| + p.slips + |p.rest|
            && (p.slips == 0 ==> s == Concat(p.frames) + p.rest)
    decreases |s|
  {
    hide Plausible, ParseStream, Concat;
    ParseStep(s);
    if Slips(s) {
      ParseConserves(s[1..]);
      assert [] + ParseStream(s[1..]).frames == ParseStream(s[1..]).frames;
    } else if Starts(s) {
      var n := Total(s[0]);
      ParseConserves(s[n..]);
      var p := ParseStream(s[n..]);
      ConcatCons(s[..n], p.frames);
      assert s == s[..n] + s[n..];
      assert s[..n] + Concat(p.frames) + p.rest == s[..n] + (Concat(p.frames) + p.rest);
    } else {
      NoConcat();
    }
  }

  /** What is dispatched is plausible and of its declared length. */
  lemma {:induction false} FramesPlausible(s: seq<byte>)
    ensures forall f :: f in ParseStream(s).frames ==> 2 <= |f| == Total(f[0]) && Plausible(f[0], f[1])
    decreases |s|
  {
    hide ParseStream, Plausible;
    ParseStep(s);
    if Slips(s) {
      FramesPlausible(s[1..]);
    } else if Starts(s) {
      PlausibleTotal(s);
      FramesPlausible(s[Total(s[0])..]);
    }
  }

  lemma PlausibleTotal(s: seq<byte>)
    requires Starts(s)
    ensures var f := s[..Total(s[0])]; 2 <= |f| == Total(f[0]) && f[0] == s[0] && f[1] == s[1]
  {
  }

  lemma ConcatCons(b: seq<byte>, chunks: seq<seq<byte>>)
    ensures Concat([b] + chunks) == b + Concat(chunks)
  {
    assert ([b] + chunks)[1..] == chunks;
  }

  lemma NoConcat()
    ensures Concat([]) == []
  {
  }

  /** What is left after a parse parses to nothing. */
  lemma {:induction false} RestIsStuck(s: seq<byte>)
    ensures ParseStream(ParseStream(s).rest) == Parse([], 0, ParseStream(s).rest)
    decreases |s|
  {
    if |s| >= 2 {
      if !Plausible(s[0], s[1]) {
        RestIsStuck(s[1..]);
      } else if |s| >= Total(s[0]) {
        RestIsStuck(s[Total(s[0])..]);
      }
    }
  }

  /** However the reads split the stream, the same frames are dispatched and the
      same number of bytes slipped. */
  lemma {:induction false} ReadsDoNotMatter(rest: seq<byte>, chunks: seq<seq<byte>>)
    requires ParseStream(rest) == Parse([], 0, rest)
    ensures ParseReads(rest, chunks) == ParseStream(rest + Concat(chunks))
    decreases |chunks|
  {
    hide ParseStream, Then;
    if chunks == [] {
      assert rest + Concat(chunks) == rest;
    } else {
      var p := ParseStream(rest + chunks[0]);
      RestIsStuck(rest + chunks[0]);
      ReadsDoNotMatter(p.rest, chunks[1..]);
      SplitParse(rest + chunks[0], Concat(chunks[1..]));
      assert rest + Concat(chunks) == (rest + chunks[0]) + Concat(chunks[1..]);
    }
  }

  /** A peer's frames, as bytes, each on its own. */
  function EachBytes(fs: seq<Frame16>): (r: seq<seq<byte>>)
    requires forall f :: f in fs ==> Writable(f)
    ensures |r| == |fs| && forall i :: 0 <= i < |fs| ==> r[i] == Bytes(fs[i])
  {
    seq(|fs|, i requires 0 <= i < |fs| => assert fs[i] in fs; Bytes(fs[i]))
  }

  /** An honest stream parses back into exactly the frames written, in order,
      with no slip and nothing left. */
  lemma {:induction false} HonestParse(fs: seq<Frame16>)
    requires forall f :: f in fs ==> Writable(f)
    ensures ParseStream(AllBytes(fs)) == Parse(EachBytes(fs), 0, [])
    decreases |fs|
  {
    hide ParseStream, Bytes, Writable;
    if fs == [] {
      NothingParses();
    } else {
      HonestHead(fs[0], AllBytes(fs[1..]));
      HonestParse(fs[1..]);
      assert EachBytes(fs) == [Bytes(fs[0])] + EachBytes(fs[1..]);
    }
  }

  lemma NothingParses()
    ensures ParseStream([]) == Parse([], 0, [])
  {
  }

  /** The first n bytes of an honest stream parse into exactly the frames that
      are complete in them, with no slip; the rest is the part of the next. */
  lemma {:induction false} PrefixParse(fs: seq<Frame16>, n: nat)
    requires (forall f :: f in fs ==> Writable(f)) && n <= |AllBytes(fs)|
    ensures var k := Whole(fs, n);
            && |AllBytes(fs[..k])| <= n
            && ParseStream(AllBytes(fs)[..n]) == Parse(EachBytes(fs[..k]), 0, AllBytes(fs)[|AllBytes(fs[..k])|..n])
    decreases |fs|
  {
    hide ParseStream, Bytes, Writable, AllBytes, EachBytes, Whole;
    if fs == [] || n < |Bytes(fs[0])| {
      NoneWhole(fs, n);
      PartParses(fs, n);
    } else {
      var f, rest := fs[0], fs[1..];
      var m := n - |Bytes(f)|;
      FirstWhole(fs, n);
      HonestHead(f, AllBytes(rest)[..m]);
      PrefixParse(rest, m);
      var k := Whole(rest, m);
      var done := |AllBytes(rest[..k])|;
      assert (Bytes(f) + AllBytes(rest))[|Bytes(f)| + done..n] == AllBytes(rest)[done..m];
    }
  }

  lemma NoneWhole(fs: seq<Frame16>, n: nat)
    requires (forall f :: f in fs ==> Writable(f)) && (fs == [] || n < |Bytes(fs[0])|)
    ensures Whole(fs, n) == 0 && AllBytes(fs[..0]) == [] && EachBytes(fs[..0]) == []
  {
    assert fs[..0] == [];
  }

  /** The first frame of a stream, complete in its first n bytes. */
  lemma FirstWhole(fs: seq<Frame16>, n: nat)
    requires (forall f :: f in fs ==> Writable(f)) && fs != [] && |Bytes(fs[0])| <= n <= |AllBytes(fs)|
    ensures var f, rest := fs[0], fs[1..];
            var m := n - |Bytes(f)|;
            var k := Whole(rest, m);
            && Whole(fs, n) == k + 1 && AllBytes(fs) == Bytes(f) + AllBytes(rest)
            && AllBytes(fs)[..n] == Bytes(f) + AllBytes(rest)[..m]
            && |AllBytes(fs[..k + 1])| == |Bytes(f)| + |AllBytes(rest[..k])|
            && EachBytes(fs[..k + 1]) == [Bytes(f)] + EachBytes(rest[..k])
  {
    hide Bytes, Writable;
    var f, rest := fs[0], fs[1..];
    var k := Whole(rest, n - |Bytes(f)|);
    assert fs[..k + 1][0] == f && fs[..k + 1][1..] == rest[..k];
  }

  /** Part of a frame parses to nothing yet. */
  lemma PartParses(fs: seq<Frame16>, n: nat)
    requires (forall f :: f in fs ==> Writable(f)) && n <= |AllBytes(fs)|
    requires fs == [] || n < |Bytes(fs[0])|
    ensures ParseStream(AllBytes(fs)[..n]) == Parse([], 0, AllBytes(fs)[..n])
  {
    if fs != [] {
      WritableIsPlausible(fs[0]);
      hide Bytes, Plausible;
      assert AllBytes(fs)[..n] == Bytes(fs[0])[..n];
    }
  }

  /** The first frame of an honest stream is taken whole. */
  lemma HonestHead(f: Frame16, rest: seq<byte>)
    requires Writable(f)
    ensures ParseStream(Bytes(f) + rest) == Then(Parse([Bytes(f)], 0, rest), ParseStream(rest))
  {
    WritableIsPlausible(f);
    var b := Bytes(f);
    hide ParseStream, Bytes, Plausible;
    var s := b + rest;
    assert s[0] == b[0] && s[1] == b[1] && s[..|b|] == b && s[|b|..] == rest;
    ParseStep(s);
  }

  // ---- the pump ----------------------------------------------------------

  const RING := 256

  /** How many bytes lie between the read and the write index. */
  function Span(rd: byte, wr: byte): nat {
    if rd <= wr then wr - rd else wr - rd + 0x100
  }

  /** The index i places past another, around the ring. */
  function Past(rd: byte, i: nat): byte
    requires i < RING
  {
    if rd + i < RING then rd + i else rd + i - RING
  }

  /** Masking to eight bits is the same thing. */
  lemma Masked(rd: byte, wr: byte)
    ensures (wr - rd) % 0x100 == Span(rd, wr) && (rd + 1) % 0x100 == Past(rd, 1)
  {
  }

  /** The bytes between the read and the write index. */
  function Window(acc: seq<byte>, rd: byte, wr: byte): (s: seq<byte>)
    requires |acc| == RING
    ensures |s| == Span(rd, wr)
    ensures forall i :: 0 <= i < |s| ==> s[i] == acc[Past(rd, i)]
  {
    seq(Span(rd, wr), i requires 0 <= i < RING => acc[Past(rd, i)])
  }

  lemma WindowPush(acc: seq<byte>, rd: byte, wr: byte, b: byte)
    requires |acc| == RING && |Window(acc, rd, wr)| < 0xFF
    ensures Window(acc[wr := b], rd, Past(wr, 1)) == Window(acc, rd, wr) + [b]
  {
    var s, t := Window(acc, rd, wr), Window(acc[wr := b], rd, Past(wr, 1));
    assert |t| == |s| + 1;
    forall i | 0 <= i < |t| ensures t[i] == (s + [b])[i] {
      if i < |s| {
        assert Past(rd, i) != wr;
      } else {
        assert Past(rd, i) == wr;
      }
    }
  }

  lemma WindowDrop(acc: seq<byte>, rd: byte, wr: byte)
    requires |acc| == RING && Window(acc, rd, wr) != []
    ensures Window(acc, Past(rd, 1), wr) == Window(acc, rd, wr)[1..]
  {
    var s, t := Window(acc, rd, wr), Window(acc, Past(rd, 1), wr);
    assert |t| == |s| - 1;
    forall i | 0 <= i < |t| ensures t[i] == s[1..][i] {
      assert Past(Past(rd, 1), i) == Past(rd, i + 1);
    }
  }

  class Pump {
    const acc: array<byte>      // RXACC
    const frmbuf: array<byte>   // FRMBUF
    var wr: byte
    var rd: byte
    var slips: nat
    var dispatched: seq<seq<byte>>

    ghost predicate Valid()
      reads this, acc
    {
      acc.Length == RING && frmbuf.Length == 0x80 && acc != frmbuf && |Window(acc[..], rd, wr)| <= 99
    }

    function Buffered(): seq<byte>
      reads this, acc
      requires acc.Length == RING
    {
      Window(acc[..], rd, wr)
    }

    constructor ()
      ensures Valid() && Buffered() == [] && slips == 0 && dispatched == []
      ensures fresh(acc) && fresh(frmbuf)
    {
      acc := new byte[RING];
      frmbuf := new byte[0x80];
      wr, rd, slips, dispatched := 0, 0, 0, [];
    }

    /** The copy loop of a read. */
    method Append(rx: seq<byte>)
      requires acc.Length == RING && |Buffered()| + |rx| <= 163
      modifies acc, this`wr
      ensures Buffered() == old(Buffered()) + rx
    {
      var i := 0;
      while i < |rx|
        invariant 0 <= i <= |rx|
        invariant Buffered() == old(Buffered()) + rx[..i]
      {
        WindowPush(acc[..], rd, wr, rx[i]);
        Masked(wr, wr);
        acc[wr] := rx[i];
        wr := (wr + 1) % 0x100;
        i := i + 1;
      }
    }

    /** Copy a complete frame of n bytes into FRMBUF. */
    method Extract(n: nat)
      requires acc.Length == RING && frmbuf.Length == 0x80 && acc != frmbuf && n <= |Buffered()| && n <= 0x80
      modifies frmbuf, this`rd
      ensures Buffered() == old(Buffered())[n..] && frmbuf[..n] == old(Buffered())[..n]
    {
      hide Window;
      var i := 0;
      while i < n
        invariant 0 <= i <= n
        invariant Buffered() == old(Buffered())[i..]
        invariant frmbuf[..i] == old(Buffered())[..i]
      {
        WindowDrop(acc[..], rd, wr);
        Masked(rd, wr);
        assert acc[rd] == Buffered()[0] == old(Buffered())[i];
        frmbuf[i] := acc[rd];
        rd := (rd + 1) % 0x100;
        i := i + 1;
      }
    }

    /** How much is buffered, with its first two bytes. */
    method Peek() returns (have: nat, len: byte, ft: byte)
      requires acc.Length == RING
      ensures have == |Buffered()| && (have >= 2 ==> len == Buffered()[0] && ft == Buffered()[1])
    {
      Masked(rd, wr);
      have, len, ft := (wr - rd) % 0x100, acc[rd], acc[(rd + 1) % 0x100];
    }

    /** Discard one byte. */
    method Slip()
      requires acc.Length == RING && Buffered() != []
      modifies this`rd, this`slips
      ensures Buffered() == old(Buffered())[1..] && slips == old(slips) + 1
    {
      WindowDrop(acc[..], rd, wr);
      Masked(rd, wr);
      rd := (rd + 1) % 0x100;
      slips := slips + 1;
    }

    /** The parse loop up to the next complete frame, which is copied out, or to
        the point where nothing more is complete: [] then. */
    method Next() returns (b: seq<byte>)
      requires acc.Length == RING && frmbuf.Length == 0x80 && acc != frmbuf && |Buffered()| <= 163
      modifies this`rd, this`slips, frmbuf
      ensures slips >= old(slips) && |Buffered()| <= |old(Buffered())|
      ensures b == [] ==> ParseStream(old(Buffered())) == Parse([], slips - old(slips), Buffered())
      ensures b != [] ==>
                && 2 <= |b| == Total(b[0]) && |Buffered()| < |old(Buffered())| && Plausible(b[0], b[1])
                && ParseStream(old(Buffered()))
                   == Then(Parse([b], slips - old(slips), Buffered()), ParseStream(Buffered()))
    {
      hide ParseStream, Plausible, Window;
      ghost var whole := Buffered();
      ghost var slipped := Parse([], 0, whole);
      while true
        invariant |Buffered()| <= |whole| && slips >= old(slips) && slipped == Parse([], slips - old(slips), Buffered())
        invariant ParseStream(whole) == Then(slipped, ParseStream(Buffered()))
        decreases |Buffered()|
      {
        ghost var before := Buffered();
        ParseStep(before);
        var have, len, ft := Peek();
        if have < 2 {
          return [];
        }
        if !Plausible(len, ft) {
          Slip();
          ThenAssociates(slipped, Parse([], 1, before[1..]), ParseStream(before[1..]));
          slipped := Then(slipped, Parse([], 1, before[1..]));
        } else if have < Total(len) {
          return [];
        } else {
          PlausibleShort(len, ft);
          Extract(Total(len));
          b := frmbuf[..Total(len)];
          ThenAssociates(slipped, Parse([b], 0, before[Total(len)..]), ParseStream(before[Total(len)..]));
          return;
        }
      }
    }

    /** SES_PUMP on a read of at most 64 bytes, frames logged as they are
        dispatched: exactly the frames the pure parser finds in what was buffered
        and what came are dispatched, as many bytes slipped, its rest kept, and
        there are never more than 163 bytes in the ring. */
    method Run(rx: seq<byte>)
      requires Valid() && |rx| <= 64
      modifies this, acc, frmbuf
      ensures Valid()
      ensures var p := ParseStream(old(Buffered()) + rx);
              && dispatched == old(dispatched) + p.frames
              && slips == old(slips) + p.slips
              && Buffered() == p.rest
    {
      Append(rx);
      hide ParseStream, Plausible, Window;
      ghost var whole := Buffered();
      ghost var done := Parse([], 0, whole);
      while true
        invariant |Buffered()| <= 163
        invariant ParseStream(whole) == Then(done, ParseStream(Buffered()))
        invariant dispatched == old(dispatched) + done.frames && slips == old(slips) + done.slips
        decreases |Buffered()|
      {
        ghost var had := slips;
        var b := Next();
        if b == [] {
          break;
        }
        ghost var head := Parse([b], slips - had, Buffered());
        ThenAssociates(done, head, ParseStream(Buffered()));
        done := Then(done, head);
        dispatched := dispatched + [b];
      }
    }
  }

  lemma PlausibleShort(len: byte, ft: byte)
    requires Plausible(len, ft)
    ensures 1 <= len <= 99
  {
  }
}
