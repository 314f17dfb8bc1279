/** The in-match byte stream between two consoles, one frame at a time.

    Frames here carry unbounded ticks and the resync epoch they were sent in.
    A `Wire` is the state of a receiver that has consumed a stream so far.  The
    sender keeps one too, advanced at every send, so that reliable FIFO
    delivery reads: folding the frames still in flight over the receiver's
    wire gives the sender's wire. */
module Wire {
  import opened Words
  import opened GameState

  /** A stretch of play between two rebases: its number and resume tick. */
  datatype Epoch = Epoch(no: nat, base: nat)

  datatype At = At(ep: Epoch, t: int)

  datatype Frame =
    | Input(ep: Epoch, t: nat, cell: Cell)
    | Crc(ep: Epoch, t: nat, crc: word)
    | Req(ep: Epoch, t: nat)
    | Begin(next: Epoch)
    | Chunk(pos: nat, data: seq<byte>)
    | End

  /** Bytes of a frame on the stream, length byte included. */
  function Size(f: Frame): nat {
    match f
    case Input(_, _, _) => 7
    case Crc(_, _, _) => 7
    case Req(_, _) => 4
    case Begin(_) => 6
    case Chunk(_, data) => 4 + |data|
    case End => 4
  }

  function Bytes(ch: seq<Frame>): nat {
    if ch == [] then 0 else Size(ch[0]) + Bytes(ch[1..])
  }

  datatype Image = NoImage | Image(next: Epoch, buf: seq<byte>)

  datatype Wire = Wire(
    ep: Epoch,              // epoch of the last frame
    last: nat,              // last INPUT tick of that epoch, base+d-1 if none
    log: map<At, Cell>,     // every INPUT
    crcs: map<At, word>,    // every CRC
    req: bool,              // a RESYNC request of this epoch went by
    image: Image,           // state push under way
    starts: map<Epoch, Sim> // state each epoch starts from
  )

  /** The watermark a new epoch starts with. */
  function FirstMark(d: nat, ep: Epoch): nat
    requires d >= 1
  {
    ep.base + d - 1
  }

  /** The wire once a frame of epoch ep is seen. */
  function Mark(d: nat, w: Wire, ep: Epoch): Wire
    requires d >= 1
  {
    if ep == w.ep then w else w.(ep := ep, last := FirstMark(d, ep), req := false)
  }

  function Next(d: nat, w: Wire, f: Frame): Wire
    requires d >= 1
  {
    match f
    case Input(ep, t, cell) =>
      Mark(d, w, ep).(last := t, log := w.log[At(ep, t) := cell])
    case Crc(ep, t, crc) =>
      Mark(d, w, ep).(crcs := w.crcs[At(ep, t) := crc])
    case Req(ep, _) =>
      Mark(d, w, ep).(req := true)
    case Begin(next) =>
      w.(image := Image(next, []))
    case Chunk(pos, data) =>
      if w.image.Image? then w.(image := Image(w.image.next, w.image.buf + data)) else w
    case End =>
      if w.image.Image? && |w.image.buf| == IMG_TOTAL then
        w.(ep := w.image.next, last := FirstMark(d, w.image.next), req := false, image := NoImage,
           starts := w.starts[w.image.next := Clamp(w.image.buf)])
      else w
  }

  /** What holds of every wire reached by an honest stream. */
  predicate Sane(d: nat, w: Wire)
    requires d >= 1
  {
    && FirstMark(d, w.ep) <= w.last
    && (w.image.Image? ==>
          && w.image.next.no == w.ep.no + 1
          && w.last + 17 <= w.image.next.base + d
          && w.image.next !in w.starts
          && |w.image.buf| <= IMG_TOTAL)
  }

  predicate Live(up: bool, w: Wire, ep: Epoch) {
    w.image.NoImage? && (ep == w.ep || (up && w.ep.no < ep.no))
  }

  /** What an honest sender may emit next.  `up` is the guest's stream: its
      epochs change between frames, and its first INPUT of an epoch may be one
      late when the rebase landed inside the gate.  The host's stream changes
      epoch only through a complete state push. */
  predicate Admissible(d: nat, up: bool, w: Wire, f: Frame)
    requires d >= 1
  {
    match f
    case Input(ep, t, _) =>
      var m := Mark(d, w, ep);
      && Live(up, w, ep)
      && (t == m.last + 1 || (up && m.last == FirstMark(d, ep) && t == m.last + 2))
    case Crc(ep, t, _) =>
      var m := Mark(d, w, ep);
      && Live(up, w, ep)
      && t % 64 == 0 && ep.base <= t
      && t + d - 1 <= m.last <= t + d
      && At(ep, t) !in w.crcs
    case Req(ep, _) =>
      up && Live(up, w, ep) && !Mark(d, w, ep).req
    case Begin(next) =>
      && !up && w.image.NoImage?
      && next.no == w.ep.no + 1
      && w.last + 17 <= next.base + d
      && next !in w.starts
    case Chunk(pos, data) =>
      && !up && w.image.Image?
      && pos == |w.image.buf| < IMG_TOTAL
      && |data| == ChunkLen(pos)
    case End =>
      !up && w.image.Image? && |w.image.buf| == IMG_TOTAL
  }

  /** A report moves a wire's mark only by opening a new epoch. */
  lemma NextCrc(d: nat, w: Wire, ep: Epoch, t: nat, crc: word)
    requires d >= 1
    ensures var n := Next(d, w, Crc(ep, t, crc));
            && n.crcs == w.crcs[At(ep, t) := crc] && n.log == w.log && n.image == w.image && n.starts == w.starts
            && (ep == w.ep ==> n == w.(crcs := n.crcs))
            && (ep != w.ep ==> n.ep == ep && n.last == FirstMark(d, ep))
  {
  }

  predicate Chain(d: nat, up: bool, ch: seq<Frame>, w: Wire)
    requires d >= 1
  {
    ch == [] || (Admissible(d, up, w, ch[0]) && Chain(d, up, ch[1..], Next(d, w, ch[0])))
  }

  function Fold(d: nat, ch: seq<Frame>, w: Wire): Wire
    requires d >= 1
  {
    if ch == [] then w else Fold(d, ch[1..], Next(d, w, ch[0]))
  }

  lemma SaneNext(d: nat, up: bool, w: Wire, f: Frame)
    requires d >= 1 && Sane(d, w) && Admissible(d, up, w, f)
    ensures Sane(d, Next(d, w, f))
  {
  }

  lemma {:induction false} SaneFold(d: nat, up: bool, ch: seq<Frame>, w: Wire)
    requires d >= 1 && Sane(d, w) && Chain(d, up, ch, w)
    ensures Sane(d, Fold(d, ch, w))
    decreases |ch|
  {
    if ch != [] {
      SaneNext(d, up, w, ch[0]);
      SaneFold(d, up, ch[1..], Next(d, w, ch[0]));
    }
  }

  /** Appending frames at the sender's end. */
  lemma {:induction false} Extend(d: nat, up: bool, ch: seq<Frame>, more: seq<Frame>, w: Wire)
    requires d >= 1
    ensures Fold(d, ch + more, w) == Fold(d, more, Fold(d, ch, w))
    ensures Chain(d, up, ch + more, w) <==> Chain(d, up, ch, w) && Chain(d, up, more, Fold(d, ch, w))
    decreases |ch|
  {
    if ch == [] {
      assert ch + more == more;
    } else {
      assert (ch + more)[0] == ch[0] && (ch + more)[1..] == ch[1..] + more;
      Extend(d, up, ch[1..], more, Next(d, w, ch[0]));
    }
  }

  lemma {:induction false} BytesExtend(ch: seq<Frame>, more: seq<Frame>)
    ensures Bytes(ch + more) == Bytes(ch) + Bytes(more)
    decreases |ch|
  {
    if ch == [] {
      assert ch + more == more;
    } else {
      assert (ch + more)[0] == ch[0] && (ch + more)[1..] == ch[1..] + more;
      BytesExtend(ch[1..], more);
    }
  }

  /** Epochs only move forward along a stream, and the mark only grows inside
      one. */
  lemma {:induction false} FoldForward(d: nat, up: bool, ch: seq<Frame>, w: Wire)
    requires d >= 1 && Sane(d, w) && Chain(d, up, ch, w)
    ensures var z := Fold(d, ch, w);
            && w.ep.no <= z.ep.no
            && (w.ep.no == z.ep.no ==> w.ep == z.ep && w.last <= z.last)
            && (w.ep == z.ep && w.req ==> z.req)
            && (!up && w.ep.no < z.ep.no ==> w.last + 17 <= z.ep.base + d)
    decreases |ch|
  {
    if ch != [] {
      SaneNext(d, up, w, ch[0]);
      FoldForward(d, up, ch[1..], Next(d, w, ch[0]));
    }
  }

  /** A log key no frame still in flight can touch: at or below the mark of the
      receiver's epoch, in an older epoch, or below any epoch's first INPUT. */
  predicate Settled(d: nat, w: Wire, k: At) {
    k.ep.no < w.ep.no || (k.ep == w.ep && k.t <= w.last) || k.t < k.ep.base + d
  }

  lemma {:induction false} FoldSettled(d: nat, up: bool, ch: seq<Frame>, w: Wire, k: At)
    requires d >= 1 && Sane(d, w) && Chain(d, up, ch, w) && Settled(d, w, k)
    ensures var z := Fold(d, ch, w);
            (k in z.log <==> k in w.log) && (k in w.log ==> z.log[k] == w.log[k])
    decreases |ch|
  {
    if ch != [] {
      SaneNext(d, up, w, ch[0]);
      FoldSettled(d, up, ch[1..], Next(d, w, ch[0]), k);
    }
  }

  /** Checksums and starting states, once on the wire, are never replaced. */
  lemma {:induction false} FoldKeeps(d: nat, up: bool, ch: seq<Frame>, w: Wire)
    requires d >= 1 && Sane(d, w) && Chain(d, up, ch, w)
    ensures var z := Fold(d, ch, w);
            && (forall k :: k in w.crcs ==> k in z.crcs && z.crcs[k] == w.crcs[k])
            && (forall e :: e in w.starts ==> e in z.starts && z.starts[e] == w.starts[e])
    decreases |ch|
  {
    if ch != [] {
      SaneNext(d, up, w, ch[0]);
      NextKeeps(d, up, w, ch[0]);
      hide Next, Admissible;
      FoldKeeps(d, up, ch[1..], Next(d, w, ch[0]));
    }
  }

  lemma NextKeeps(d: nat, up: bool, w: Wire, f: Frame)
    requires d >= 1 && Sane(d, w) && Admissible(d, up, w, f)
    ensures var n := Next(d, w, f);
            && (forall k :: k in w.crcs ==> k in n.crcs && n.crcs[k] == w.crcs[k])
            && (forall e :: e in w.starts ==> e in n.starts && n.starts[e] == w.starts[e])
  {
    hide Mark;
    assert Mark(d, w, if f.Crc? then f.ep else w.ep).crcs == w.crcs by { MarkKeeps(d, w, if f.Crc? then f.ep else w.ep); }
    if Tagged(f) {
      MarkKeeps(d, w, f.ep);
    }
  }

  lemma MarkKeeps(d: nat, w: Wire, ep: Epoch)
    requires d >= 1
    ensures var m := Mark(d, w, ep); m.crcs == w.crcs && m.starts == w.starts && m.log == w.log && m.image == w.image
  {
  }

  /** The epoch tag of a frame that carries one. */
  predicate Tagged(f: Frame) {
    f.Input? || f.Crc? || f.Req?
  }

  /** Where the frames in flight stand between the receiver's wire w and the
      sender's wire z. */
  predicate Between(d: nat, w: Wire, f: Frame, z: Wire) {
    && (Tagged(f) ==>
          && w.ep.no <= f.ep.no <= z.ep.no
          && (f.ep.no == w.ep.no ==> f.ep == w.ep)
          && (f.ep.no == z.ep.no ==> f.ep == z.ep))
    && (f.Input? ==> (f.ep == w.ep ==> w.last < f.t) && (f.ep == z.ep ==> f.t <= z.last)
                     && f.ep.base + d <= f.t)
    && (f.Crc? ==> (f.ep == w.ep ==> w.last <= f.t + d) && (f.ep == z.ep ==> f.t + d <= z.last + 1)
                   && f.ep.base <= f.t && f.t % 64 == 0
                   && At(f.ep, f.t) in z.crcs && z.crcs[At(f.ep, f.t)] == f.crc)
    && (f.Begin? ==> w.ep.no < f.next.no
                     && (z.image.NoImage? ==> f.next.no <= z.ep.no && (f.next.no == z.ep.no ==> f.next == z.ep)))
  }

  /** The epoch a push under way will start is the next one reached. */
  lemma {:induction false} FoldImage(d: nat, up: bool, ch: seq<Frame>, w: Wire)
    requires d >= 1 && Sane(d, w) && Chain(d, up, ch, w)
    requires w.image.Image?
    ensures var z := Fold(d, ch, w);
            z.image.NoImage? ==> w.image.next.no <= z.ep.no
                                 && (w.image.next.no == z.ep.no ==> w.image.next == z.ep)
    decreases |ch|
  {
    if ch != [] {
      var n := Next(d, w, ch[0]);
      SaneNext(d, up, w, ch[0]);
      if n.image.Image? {
        FoldImage(d, up, ch[1..], n);
      } else {
        FoldForward(d, up, ch[1..], n);
      }
    }
  }

  lemma InFlightHead(d: nat, up: bool, ch: seq<Frame>, w: Wire)
    requires d >= 1 && Sane(d, w) && Chain(d, up, ch, w) && ch != []
    ensures Between(d, w, ch[0], Fold(d, ch, w))
  {
    var f := ch[0];
    var n := Next(d, w, f);
    SaneNext(d, up, w, f);
    FoldForward(d, up, ch[1..], n);
    match f
    case Input(_, _, _) =>
    case Crc(_, _, _) => FoldKeeps(d, up, ch[1..], n);
    case Req(_, _) =>
    case Begin(_) => FoldImage(d, up, ch[1..], n);
    case Chunk(_, _) =>
    case End =>
  }

  lemma BetweenNext(d: nat, up: bool, w: Wire, f0: Frame, f: Frame, z: Wire)
    requires d >= 1 && Sane(d, w) && Admissible(d, up, w, f0)
    requires Between(d, Next(d, w, f0), f, z)
    ensures Between(d, w, f, z)
  {
  }

  lemma {:induction false} InFlight(d: nat, up: bool, ch: seq<Frame>, w: Wire, i: nat)
    requires d >= 1 && Sane(d, w) && Chain(d, up, ch, w) && i < |ch|
    ensures Between(d, w, ch[i], Fold(d, ch, w))
    decreases |ch|
  {
    if i == 0 {
      InFlightHead(d, up, ch, w);
    } else {
      SaneNext(d, up, w, ch[0]);
      InFlight(d, up, ch[1..], Next(d, w, ch[0]), i - 1);
      BetweenNext(d, up, w, ch[0], ch[i], Fold(d, ch, w));
    }
  }
}
