/** The channels of the 16-bit model as the bytes they are: what a console has
    buffered and reads of its peer's frames, and what it dispatches of them. */
module Channel {
  import opened Words
  import opened GameState
  import opened Console16
  import opened Frames
  import Ideal
  import Receiver

  predicate AllWritable(fs: seq<Frame16>) {
    forall f :: f in fs ==> Writable(f)
  }

  lemma {:induction false} BytesCount(fs: seq<Frame16>)
    requires AllWritable(fs)
    ensures Bytes16(fs) == |AllBytes(fs)|
    decreases |fs|
  {
    if fs != [] {
      BytesCount(fs[1..]);
    }
    hide Bytes, Writable;
  }

  lemma {:induction false} AllBytesAppend(a: seq<Frame16>, b: seq<Frame16>)
    requires AllWritable(a) && AllWritable(b)
    ensures AllWritable(a + b) && AllBytes(a + b) == AllBytes(a) + AllBytes(b)
    decreases |a|
  {
    hide Bytes, Writable;
    if a == [] {
      assert a + b == b;
    } else {
      assert (a + b)[0] == a[0] && (a + b)[1..] == a[1..] + b;
      AllBytesAppend(a[1..], b);
    }
  }

  /** What a console's buffer holds of the stream in flight to it: its first
      bytes. */
  ghost predicate Carries(t: System16, seat: Seat, buffered: seq<byte>) {
    && AllWritable(Inbound16(t, seat))
    && buffered <= AllBytes(Inbound16(t, seat)) && |buffered| == Buffered16(t, seat)
  }

  /** How many bytes a pump that may read k of them reads. */
  function Fetched(t: System16, seat: Seat, k: nat): nat {
    var avail := Bytes16(Inbound16(t, seat)) - Buffered16(t, seat);
    var n := if k <= Ideal.READ_MAX then k else Ideal.READ_MAX;
    if avail < 0 then 0 else if n <= avail then n else avail
  }

  /** A pump's read: the next bytes of the stream. */
  ghost predicate Reads(t: System16, seat: Seat, k: nat, rx: seq<byte>)
    requires AllWritable(Inbound16(t, seat))
  {
    var acc := Buffered16(t, seat);
    var m := Fetched(t, seat, k);
    acc + m <= |AllBytes(Inbound16(t, seat))| && rx == AllBytes(Inbound16(t, seat))[acc..acc + m]
  }

  /** A console's frames one after the other, with what it answers. */
  function HearFrames(d: nat, seat: Seat, c: Con16, fs: seq<Frame16>): (Con16, seq<Frame16>)
    decreases |fs|
  {
    if fs == [] then (c, [])
    else
      var (c1, out1) := Receive16(d, seat, c, fs[0]);
      var (c2, out2) := HearFrames(d, seat, c1, fs[1..]);
      (c2, out1 + out2)
  }

  /** A console has heard the first k frames in flight to it. */
  function Heard16(t: System16, seat: Seat, r: (Con16, seq<Frame16>), k: nat, acc: nat): System16
    requires k <= |Inbound16(t, seat)|
  {
    if seat.Host? then t.(host := r.0, down := t.down + r.1, up := t.up[k..], upAcc := acc)
    else t.(guest := r.0, up := t.up + r.1, down := t.down[k..], downAcc := acc)
  }

  /** Draining dispatches exactly the frames that are complete in the bytes
      buffered, and leaves as many bytes as are over. */
  lemma {:induction false} DrainHears(d: nat, t: System16, seat: Seat)
    requires AllWritable(Inbound16(t, seat)) && Buffered16(t, seat) <= |AllBytes(Inbound16(t, seat))|
    ensures var fs, acc := Inbound16(t, seat), Buffered16(t, seat);
            var k := Whole(fs, acc);
            && |AllBytes(fs[..k])| <= acc
            && Drain16(d, t, seat)
               == Heard16(t, seat, HearFrames(d, seat, Get16(t, seat), fs[..k]), k, acc - |AllBytes(fs[..k])|)
    decreases |Inbound16(t, seat)|
  {
    hide Receive16, Bytes, Writable, Heard16, HearFrames, Emit16, Whole, AllBytes, Deliver16;
    var fs, acc := Inbound16(t, seat), Buffered16(t, seat);
    var k := Whole(fs, acc);
    WholeStep(fs, acc);
    if Ready16(t, seat) {
      var u := Deliver16(d, t, seat);
      DeliverTakes(d, t, seat);
      DrainHears(d, u, seat);
      HeardOneMore(d, t, u, seat, k);
    } else {
      HeardNothing(d, t, seat);
    }
  }

  /** One frame more, or none. */
  lemma WholeStep(fs: seq<Frame16>, n: nat)
    requires AllWritable(fs) && n <= |AllBytes(fs)|
    ensures var k := Whole(fs, n);
            if fs == [] || n < Size16(fs[0]) then k == 0 && fs[..k] == [] && AllBytes(fs[..k]) == []
            else
              var m := n - Size16(fs[0]);
              && k == 1 + Whole(fs[1..], m) && m <= |AllBytes(fs[1..])|
              && |AllBytes(fs[..k])| == Size16(fs[0]) + |AllBytes(fs[1..][..k - 1])|
  {
    hide Bytes, Writable;
    var k := Whole(fs, n);
    if k > 0 {
      assert fs[..k][0] == fs[0] && fs[..k][1..] == fs[1..][..k - 1];
    }
  }

  lemma DeliverTakes(d: nat, t: System16, seat: Seat)
    requires Ready16(t, seat)
    ensures var u := Deliver16(d, t, seat);
            && Inbound16(u, seat) == Inbound16(t, seat)[1..]
            && Buffered16(u, seat) == Buffered16(t, seat) - Size16(Inbound16(t, seat)[0])
  {
    hide Receive16;
  }

  lemma HeardNothing(d: nat, t: System16, seat: Seat)
    ensures Heard16(t, seat, HearFrames(d, seat, Get16(t, seat), []), 0, Buffered16(t, seat)) == t
  {
    assert t.down + [] == t.down && t.up + [] == t.up;
  }

  lemma HeardOneMore(d: nat, t: System16, u: System16, seat: Seat, k: nat)
    requires Ready16(t, seat) && u == Deliver16(d, t, seat) && 0 < k <= |Inbound16(t, seat)|
    ensures k - 1 <= |Inbound16(u, seat)|
    ensures var fs := Inbound16(t, seat);
            forall acc: nat ::
              Heard16(u, seat, HearFrames(d, seat, Get16(u, seat), fs[1..][..k - 1]), k - 1, acc)
              == Heard16(t, seat, HearFrames(d, seat, Get16(t, seat), fs[..k]), k, acc)
  {
    hide Receive16;
    var fs := Inbound16(t, seat);
    assert fs[..k][0] == fs[0] && fs[..k][1..] == fs[1..][..k - 1] && fs[1..][k - 1..] == fs[k..];
    var (c1, out1) := Receive16(d, seat, Get16(t, seat), fs[0]);
    var (c2, out2) := HearFrames(d, seat, c1, fs[1..][..k - 1]);
    assert t.down + out1 + out2 == t.down + (out1 + out2) && t.up + out1 + out2 == t.up + (out1 + out2);
  }

  /** A pump of the model, in bytes: the buffered bytes and the read parse into
      exactly the frames it dispatches, no byte is slipped, and what is left over
      is again what the buffer carries. */
  lemma PumpParses(d: nat, t: System16, seat: Seat, k: nat, buffered: seq<byte>, rx: seq<byte>)
    requires Carries(t, seat, buffered) && Reads(t, seat, k, rx)
    ensures var fs := Inbound16(t, seat);
            var n := Whole(fs, |buffered + rx|);
            var p := Receiver.ParseStream(buffered + rx);
            && p.frames == Receiver.EachBytes(fs[..n]) && p.slips == 0
            && Pump16(d, t, seat, k)
               == Heard16(t, seat, HearFrames(d, seat, Get16(t, seat), fs[..n]), n, |p.rest|)
            && p.rest <= AllBytes(fs[n..])
  {
    hide Receiver.ParseStream, Writable, Bytes, Drain16, HearFrames, AllBytes, Whole, Heard16, Pump16;
    var fs := Inbound16(t, seat);
    var z := buffered + rx;
    assert z == AllBytes(fs)[..|z|];
    Receiver.PrefixParse(fs, |z|);
    PumpDrains(d, t, seat, k, |z|);
    SplitBytes(fs, Whole(fs, |z|), |z|);
  }

  /** A pump, as the drain of what is then buffered. */
  lemma PumpDrains(d: nat, t: System16, seat: Seat, k: nat, n: nat)
    requires AllWritable(Inbound16(t, seat)) && n == Buffered16(t, seat) + Fetched(t, seat, k)
    requires n <= |AllBytes(Inbound16(t, seat))|
    ensures var fs := Inbound16(t, seat);
            var w := Whole(fs, n);
            && |AllBytes(fs[..w])| <= n
            && Pump16(d, t, seat, k)
               == Heard16(t, seat, HearFrames(d, seat, Get16(t, seat), fs[..w]), w, n - |AllBytes(fs[..w])|)
  {
    hide Writable, Bytes, Drain16, HearFrames, AllBytes, Whole;
    var u := if seat.Host? then t.(upAcc := n) else t.(downAcc := n);
    assert Pump16(d, t, seat, k) == Drain16(d, u, seat);
    DrainHears(d, u, seat);
  }

  /** The bytes past the whole frames are the next one's. */
  lemma SplitBytes(fs: seq<Frame16>, w: nat, n: nat)
    requires AllWritable(fs) && w <= |fs| && |AllBytes(fs[..w])| <= n <= |AllBytes(fs)|
    ensures AllBytes(fs)[|AllBytes(fs[..w])|..n] <= AllBytes(fs[w..])
  {
    hide AllBytes, Writable;
    assert fs == fs[..w] + fs[w..];
    AllBytesAppend(fs[..w], fs[w..]);
  }

  function Other(seat: Seat): Seat {
    if seat.Host? then Ideal.Guest else Ideal.Host
  }

  /** A step of one seat, as the other sees it: more frames in flight to it. */
  predicate Stepped(t: System16, u: System16, seat: Seat, out: seq<Frame16>) {
    && Get16(u, Other(seat)) == Get16(t, Other(seat))
    && Inbound16(u, Other(seat)) == Inbound16(t, Other(seat)) + out
    && Buffered16(u, Other(seat)) == Buffered16(t, Other(seat))
  }

  lemma SteppedTwice(t: System16, u: System16, v: System16, seat: Seat, out: seq<Frame16>, more: seq<Frame16>)
    requires Stepped(t, u, seat, out) && Stepped(u, v, seat, more)
    ensures Stepped(t, v, seat, out + more)
  {
    var ch := Inbound16(t, Other(seat));
    assert ch + out + more == ch + (out + more);
  }

  lemma EmitSteps(t: System16, seat: Seat, r: (Con16, seq<Frame16>))
    ensures var u := Emit16(t, seat, r);
            && Get16(u, seat) == r.0 && Stepped(t, u, seat, r.1)
            && Inbound16(u, seat) == Inbound16(t, seat) && Buffered16(u, seat) == Buffered16(t, seat)
  {
  }

  lemma HeardSteps(t: System16, seat: Seat, r: (Con16, seq<Frame16>), k: nat, acc: nat)
    requires k <= |Inbound16(t, seat)|
    ensures var u := Heard16(t, seat, r, k, acc);
            && Get16(u, seat) == r.0 && Stepped(t, u, seat, r.1)
            && Inbound16(u, seat) == Inbound16(t, seat)[k..] && Buffered16(u, seat) == acc
  {
  }
}
