/** Two consoles and the byte streams between them: the routines, on bytes and
    cells, perform every run of the 16-bit model. */
module TwoConsoles {
  import opened Words
  import opened GameState
  import Image
  import Rings
  import opened Console16
  import opened Frames
  import opened Channel
  import opened Machine
  import Ideal
  import Receiver

  /** The stream in flight to a console, in its buffer and before it. */
  ghost predicate InFlight(t: System16, seat: Seat, buffered: seq<byte>, coming: seq<byte>) {
    AllWritable(Inbound16(t, seat)) && AllBytes(Inbound16(t, seat)) == buffered + coming
  }

  /** One console against the model, with what is coming to it. */
  ghost predicate Stands(c: Console, cfg: Ideal.Config, seat: Seat, t: System16, coming: seq<byte>)
    reads c, c.mem, c.pages, c.own, c.wms, c.pump, c.pump.acc, c.pump.frmbuf
  {
    && c.Valid() && c.seat == seat && c.d == cfg.d && c.At16(t)
    && InFlight(t, seat, c.pump.Buffered(), coming)
  }

  /** A console powered on and sent a START for two: the model's starting console,
      its image that of its memory with the frame's seed. */
  method Kickoff(memory: array<word>, b: seq<byte>, ghost cfg: Ideal.Config) returns (c: Console)
    requires memory.Length == 0x1_0000 && Image.Sound(memory[..])
    requires |b| == 39 == Total(b[0]) && b[1] == FT_START && b[2] < SEATS && b[3] == SEATS && cfg.d == b[6]
    modifies memory
    ensures fresh(c.Footprint() - {memory})
    ensures Image.Sound(old(memory[..]))
    ensures Stands(c, cfg, if b[2] == 0 then Ideal.Host else Ideal.Guest,
                   Start16(cfg, Seeded(Image.ImageOf(old(memory[..])), b[4], b[5])), [])
  {
    hide Rings.RingOf, RecordsOf, Image.ImageOf, Receiver.Window, Seeded, Join;
    c := new Console(memory);
    ghost var con := c.State();
    StartsMatch(con, b[6], b[4], b[5], cfg.cart);
    c.OnFrame(b);
  }

  lemma NextBytes(t: System16, seat: Seat, k: nat, buffered: seq<byte>, coming: seq<byte>)
    requires InFlight(t, seat, buffered, coming) && |buffered| == Buffered16(t, seat)
    ensures var n := Fetched(t, seat, k);
            n == (if k <= Ideal.READ_MAX then if k <= |coming| then k else |coming|
                  else if Ideal.READ_MAX <= |coming| then Ideal.READ_MAX else |coming|)
            && n <= |coming| && Reads(t, seat, k, coming[..n])
  {
    BytesCount(Inbound16(t, seat));
    hide AllBytes, Writable;
  }

  /** The bytes a console has written. */
  method Written(sent: seq<seq<byte>>, from: nat, ghost before: seq<seq<byte>>, ghost out: seq<Frame16>)
    returns (bytes: seq<byte>)
    requires from == |before| && Wrote(before, sent, out)
    ensures AllWritable(out) && bytes == AllBytes(out)
  {
    hide AllBytes, Wrote;
    WroteAll(before, sent, out);
    bytes := [];
    var i := from;
    assert out[..0] == [];
    NoBytes();
    while i < |sent|
      invariant from <= i <= |sent| && bytes == AllBytes(out[..i - from])
    {
      WrittenOne(before, sent, out, i - from);
      bytes := bytes + sent[i];
      i := i + 1;
    }
    assert out[..i - from] == out;
  }

  lemma WroteAll(before: seq<seq<byte>>, sent: seq<seq<byte>>, out: seq<Frame16>)
    requires Wrote(before, sent, out)
    ensures AllWritable(out) && |sent| == |before| + |out|
  {
  }

  lemma NoBytes()
    ensures AllBytes([]) == []
  {
  }

  lemma WrittenOne(before: seq<seq<byte>>, sent: seq<seq<byte>>, out: seq<Frame16>, j: nat)
    requires Wrote(before, sent, out) && j < |out|
    ensures AllWritable(out) && AllWritable(out[..j]) && |before| + j < |sent|
    ensures AllBytes(out[..j + 1]) == AllBytes(out[..j]) + sent[|before| + j]
  {
    hide AllBytes, Bytes;
    assert sent[|before| + j] == Receiver.EachBytes(out)[j] == Bytes(out[j]);
    assert out[j] in out;
    assert out[..j + 1] == out[..j] + [out[j]];
    AllBytesAppend(out[..j], [out[j]]);
    OneFrame(out[j]);
  }

  lemma OneFrame(f: Frame16)
    requires Writable(f)
    ensures AllBytes([f]) == Bytes(f)
  {
    assert [f][1..] == [];
  }

  lemma Suffix(z: seq<byte>, later: seq<byte>, done: seq<byte>, tail: seq<byte>)
    requires z + later == done + tail && |done| <= |z|
    ensures tail == z[|done|..] + later
  {
    var all := z + later;
    assert all[|done|..] == tail;
    assert all[|done|..] == z[|done|..] + later;
  }

  /** What a pump's parse consumed is what it read. */
  lemma StillComing(d: nat, t: System16, seat: Seat, k: nat, buffered: seq<byte>, coming: seq<byte>)
    requires InFlight(t, seat, buffered, coming) && |buffered| == Buffered16(t, seat)
    ensures var n := Fetched(t, seat, k);
            && n <= |coming|
            && var u, rest := Pump16(d, t, seat, k), Receiver.ParseStream(buffered + coming[..n]).rest;
               InFlight(u, seat, rest, coming[n..]) && |rest| == Buffered16(u, seat)
  {
    hide Receiver.ParseStream, Writable, Bytes, Heard16, HearFrames, Pump16, Fetched, Reads, AllBytes, Frames.Whole;
    NextBytes(t, seat, k, buffered, coming);
    var n := Fetched(t, seat, k);
    var z, later := buffered + coming[..n], coming[n..];
    var fs := Inbound16(t, seat);
    assert coming == coming[..n] + later;
    assert AllBytes(fs) == z + later;
    assert buffered <= AllBytes(fs);
    PumpParses(d, t, seat, k, buffered, coming[..n]);
    var w := Frames.Whole(fs, |z|);
    assert z == AllBytes(fs)[..|z|];
    Receiver.PrefixParse(fs, |z|);
    SplitBytes(fs, w);
    var done := AllBytes(fs[..w]);
    Suffix(z, later, done, AllBytes(fs[w..]));
    assert AllBytes(fs)[|done|..|z|] == z[|done|..];
    HeardSteps(t, seat, HearFrames(d, seat, Get16(t, seat), fs[..w]), w, |Receiver.ParseStream(z).rest|);
  }

  lemma SplitBytes(fs: seq<Frame16>, w: nat)
    requires AllWritable(fs) && w <= |fs|
    ensures AllWritable(fs[..w]) && AllWritable(fs[w..]) && AllBytes(fs) == AllBytes(fs[..w]) + AllBytes(fs[w..])
  {
    hide AllBytes, Writable;
    assert fs == fs[..w] + fs[w..];
    AllBytesAppend(fs[..w], fs[w..]);
  }

  /** A buffer of the right length is the right buffer. */
  lemma SameBuffer(t: System16, u: System16, seat: Seat, rest: seq<byte>, buffered: seq<byte>, coming: seq<byte>)
    requires InFlight(t, seat, rest, coming) && |rest| == Buffered16(t, seat)
    requires Inbound16(u, seat) == Inbound16(t, seat) && Buffered16(u, seat) == Buffered16(t, seat)
    requires Carries(u, seat, buffered)
    ensures InFlight(u, seat, buffered, coming)
  {
    hide AllBytes, Writable;
    assert buffered == AllBytes(Inbound16(u, seat))[..|buffered|] == rest;
  }

  /** A pass takes from the stream what its pump takes. */
  lemma GoInbound(cfg: Ideal.Config, t: System16, seat: Seat, k: nat, cell: Cell)
    ensures var u := Step16(cfg, t, Ideal.Go(seat, k, cell));
            var v := if Get16(t, seat).gate && Open16(Get16(t, seat)) then t else Pump16(cfg.d, t, seat, k);
            Inbound16(u, seat) == Inbound16(v, seat) && Buffered16(u, seat) == Buffered16(v, seat)
  {
    hide PlayAndPend16, Pump16, Capture16, Open16;
  }

  /** What is coming after a move that pumped. */
  lemma Pumped(cfg: Ideal.Config, t: System16, u: System16, seat: Seat, k: nat, was: seq<byte>, buffered: seq<byte>,
               coming: seq<byte>)
    requires InFlight(t, seat, was, coming) && |was| == Buffered16(t, seat) && Carries(u, seat, buffered)
    requires var v := Pump16(cfg.d, t, seat, k);
             Inbound16(u, seat) == Inbound16(v, seat) && Buffered16(u, seat) == Buffered16(v, seat)
    ensures var n := Fetched(t, seat, k); n <= |coming| && InFlight(u, seat, buffered, coming[n..])
  {
    hide Pump16, InFlight, Carries, Receiver.ParseStream, Fetched;
    StillComing(cfg.d, t, seat, k, was, coming);
    var n := Fetched(t, seat, k);
    SameBuffer(Pump16(cfg.d, t, seat, k), u, seat, Receiver.ParseStream(was + coming[..n]).rest, buffered, coming[n..]);
  }

  lemma StandsSized(c: Console, cfg: Ideal.Config, seat: Seat, t: System16, coming: seq<byte>)
    requires Stands(c, cfg, seat, t, coming)
    ensures |c.pump.Buffered()| == Buffered16(t, seat) && c.gate == Get16(t, seat).gate
  {
  }

  /** One console's move: it reads what the pump of that move may read of what is
      coming, and what it writes is the model's frames in bytes. */
  method Move(c: Console, cfg: Ideal.Config, a: Ideal.Action, coming: seq<byte>, ghost t: System16)
    returns (left: seq<byte>, written: seq<byte>, ghost out: seq<Frame16>)
    requires Stands(c, cfg, a.seat, t, coming)
    modifies c.Footprint()
    ensures Stands(c, cfg, a.seat, Step16(cfg, t, a), left) && c.pump.slips == old(c.pump.slips)
    ensures Stepped(t, Step16(cfg, t, a), a.seat, out) && AllWritable(out) && written == AllBytes(out)
  {
    hide InFlight, Pump16, Stepped, Wrote, PlayAndPend16, Capture16, Receiver.Window, Rings.RingOf, RecordsOf, Open16;
    hide AllBytes, Writable, Reads, Fetched, Carries, Image.ImageOf, Join, Emit16;
    StandsSized(c, cfg, a.seat, t, coming);
    ghost var sent, was := c.sent, c.pump.Buffered();
    var from := |c.sent|;
    left := coming;
    match a {
      case Go(seat, k, cell) =>
        var n := Bounded(k, |coming|);
        NextBytes(t, seat, k, was, coming);
        GoInbound(cfg, t, seat, k, cell);
        var read;
        read, out := c.Go(cfg, coming[..n], cell, t, k);
        if read {
          Pumped(cfg, t, Step16(cfg, t, a), seat, k, was, c.pump.Buffered(), coming);
          left := coming[n..];
        } else {
          SameBuffer(t, Step16(cfg, t, a), seat, was, c.pump.Buffered(), coming);
        }
      case Poll(seat, k) =>
        if c.gate {
          out := [];
          NobodyMoves(t, seat);
          NothingWritten(sent);
        } else {
          var n := Bounded(k, |coming|);
          NextBytes(t, seat, k, was, coming);
          out := c.PumpOn(coming[..n], t, k);
          Pumped(cfg, t, Step16(cfg, t, a), seat, k, was, c.pump.Buffered(), coming);
          left := coming[n..];
        }
      case Fault(seat, sim) =>
        out := [];
        c.Corrupt(sim);
        EmitSteps(t, seat, (Get16(t, seat).(sim := sim), []));
        Faulted(t, Step16(cfg, t, a), seat, was, coming);
        NothingWritten(sent);
    }
    written := Written(c.sent, from, sent, out);
  }

  /** How much a pump reads. */
  function Bounded(k: nat, n: nat): nat {
    var m := if k <= Ideal.READ_MAX then k else Ideal.READ_MAX;
    if m <= n then m else n
  }

  lemma NobodyMoves(t: System16, seat: Seat)
    ensures Stepped(t, t, seat, [])
  {
  }

  lemma NothingWritten(sent: seq<seq<byte>>)
    ensures Wrote(sent, sent, [])
  {
    WroteNothing(sent);
  }

  lemma Faulted(t: System16, u: System16, seat: Seat, buffered: seq<byte>, coming: seq<byte>)
    requires InFlight(t, seat, buffered, coming) && Carries(t, seat, buffered)
    requires Inbound16(u, seat) == Inbound16(t, seat) && Buffered16(u, seat) == Buffered16(t, seat)
    ensures InFlight(u, seat, buffered, coming) && Carries(u, seat, buffered)
  {
  }

  /** The other console's move only adds to what is coming. */
  lemma StandsOn(c: Console, cfg: Ideal.Config, seat: Seat, t: System16, u: System16, coming: seq<byte>, out: seq<Frame16>)
    requires Stands(c, cfg, seat, t, coming) && Stepped(t, u, Other(seat), out) && AllWritable(out)
    ensures Stands(c, cfg, seat, u, coming + AllBytes(out))
  {
    hide AllBytes, Writable, Rings.RingOf, RecordsOf, Image.ImageOf, Join, Receiver.Window;
    AllBytesAppend(Inbound16(t, seat), out);
    assert c.pump.Buffered() + coming + AllBytes(out) == c.pump.Buffered() + (coming + AllBytes(out));
  }

  /** Every run, performed: whatever the schedule, the reads and the faults, two
      consoles joined by two byte streams are after it where the 16-bit model's
      run is, what each has in its buffer and before it is exactly the frames the
      model has in flight to it, and neither has slipped a byte. */
  method Perform(cfg: Ideal.Config, host: Console, guest: Console, acts: seq<Ideal.Action>, ghost sim: Sim)
    returns (down: seq<byte>, up: seq<byte>)
    requires host.Footprint() !! guest.Footprint()
    requires Stands(host, cfg, Ideal.Host, Start16(cfg, sim), []) && Stands(guest, cfg, Ideal.Guest, Start16(cfg, sim), [])
    modifies host.Footprint(), guest.Footprint()
    ensures var t := Run16(cfg, Start16(cfg, sim), acts);
            Stands(host, cfg, Ideal.Host, t, up) && Stands(guest, cfg, Ideal.Guest, t, down)
    ensures host.pump.slips == old(host.pump.slips) && guest.pump.slips == old(guest.pump.slips)
  {
    hide Stands, Step16, Start16, Stepped, AllBytes, AllWritable;
    down, up := [], [];
    var i := 0;
    ghost var t := Start16(cfg, sim);
    RunNone(cfg, t);
    while i < |acts|
      invariant 0 <= i <= |acts| && t == Run16(cfg, Start16(cfg, sim), acts[..i])
      invariant Stands(host, cfg, Ideal.Host, t, up) && Stands(guest, cfg, Ideal.Guest, t, down)
      invariant host.pump.slips == old(host.pump.slips) && guest.pump.slips == old(guest.pump.slips)
    {
      ghost var u, out := Step16(cfg, t, acts[i]), [];
      var written;
      if acts[i].seat.Host? {
        up, written, out := Move(host, cfg, acts[i], up, t);
        StandsOn(guest, cfg, Ideal.Guest, t, u, down, out);
        down := down + written;
      } else {
        down, written, out := Move(guest, cfg, acts[i], down, t);
        StandsOn(host, cfg, Ideal.Host, t, u, up, out);
        up := up + written;
      }
      RunMore(cfg, Start16(cfg, sim), acts, i);
      i := i + 1;
      t := u;
    }
    assert acts[..i] == acts;
  }

  lemma RunNone(cfg: Ideal.Config, s: System16)
    ensures Run16(cfg, s, []) == s
  {
  }

  lemma RunMore(cfg: Ideal.Config, s: System16, acts: seq<Ideal.Action>, i: nat)
    requires i < |acts|
    ensures Run16(cfg, s, acts[..i + 1]) == Step16(cfg, Run16(cfg, s, acts[..i]), acts[i])
  {
    assert acts[..i + 1][..i] == acts[..i];
  }
}
