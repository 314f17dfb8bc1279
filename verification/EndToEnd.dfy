/** A console's frames through the relay to its peer: the bytes one console
    writes, received by the relay in any pieces, queued, flushed and read in any
    pieces, are the frames the other dispatches. */
module EndToEnd {
  import opened Words
  import opened Console16
  import opened Frames
  import opened Lobby
  import opened RelayState
  import opened Effects
  import opened Relay
  import opened EventLoop
  import Framing
  import Receiver

  /** The first frame of a stream, as the relay parses it. */
  lemma HonestHead(f: Frame16, rest: seq<byte>)
    requires Writable(f)
    ensures var b, q := Bytes(f)[1..], Framing.Parse(rest);
            && Framing.Parse(Bytes(f) + rest) == Framing.Fed([b] + q.bodies, q.rest, q.bad)
            && 1 <= |b| <= 200 && [|b|] + b == Bytes(f) && MatchType(b[0])
  {
    var s := Bytes(f) + rest;
    WritableIsPlausible(f);
    assert s[0] == Bytes(f)[0];
    hide Bytes, Framing.Parse;
    assert Framing.Complete(s) && Framing.Body(s) == Bytes(f)[1..] && Framing.After(s) == rest;
    Framing.ParseStep(s);
  }

  /** Part of a frame is nothing yet. */
  lemma PartUnread(f: Frame16, n: nat)
    requires Writable(f) && n < |Bytes(f)|
    ensures Framing.Parse(Bytes(f)[..n]) == Framing.Fed([], Bytes(f)[..n], false)
  {
    WritableIsPlausible(f);
    Framing.ParseStep(Bytes(f)[..n]);
  }

  /** The bodies of the first n bytes of an honest stream are the frames that
      are complete in them, without their length bytes. */
  lemma {:induction false} HonestBodies(fs: seq<Frame16>, n: nat)
    requires (forall f :: f in fs ==> Writable(f)) && n <= |AllBytes(fs)|
    ensures var p, k := Framing.Parse(AllBytes(fs)[..n]), Whole(fs, n);
            !p.bad && k <= |fs| && AllMatch(p.bodies) && Forwarded(p.bodies) == AllBytes(fs[..k])
    decreases |fs|
  {
    hide Framing.Parse, Bytes, Writable, MatchType;
    if fs == [] || n < |Bytes(fs[0])| {
      NothingHonest(fs, n);
    } else {
      var f, rest := fs[0], fs[1..];
      var left := AllBytes(rest)[..n - |Bytes(f)|];
      assert AllBytes(fs)[..n] == Bytes(f) + left;
      HonestHead(f, left);
      HonestBodies(rest, n - |Bytes(f)|);
      var b, q := Bytes(f)[1..], Framing.Parse(left);
      var k := Whole(fs, n);
      assert ([b] + q.bodies)[1..] == q.bodies;
      assert fs[..k][0] == f && fs[..k][1..] == rest[..k - 1];
    }
  }

  lemma NothingHonest(fs: seq<Frame16>, n: nat)
    requires (forall f :: f in fs ==> Writable(f)) && n <= |AllBytes(fs)|
    requires fs == [] || n < |Bytes(fs[0])|
    ensures Whole(fs, n) == 0 && fs[..0] == [] && AllBytes(fs[..0]) == [] && Forwarded([]) == []
    ensures Framing.Parse(AllBytes(fs)[..n]) == Framing.Fed([], AllBytes(fs)[..n], false)
  {
    hide Bytes, Writable;
    if fs == [] {
      assert AllBytes(fs)[..n] == [];
    } else {
      assert AllBytes(fs)[..n] == Bytes(fs[0])[..n];
      PartUnread(fs[0], n);
    }
  }

  /** What a client said is match frames if everything it said in all is. */
  lemma {:induction false} EachTalkPlays(said: seq<Talk>, ci: nat, k: nat)
    requires AllMatch(Speech(said, ci)) && k < |said| && said[k].ci == ci
    ensures AllMatch(said[k].bodies)
    decreases |said|
  {
    var n := |said| - 1;
    var before, last := Speech(said[..n], ci), if said[n].ci == ci then said[n].bodies else [];
    assert Speech(said, ci) == before + last;
    forall j | 0 <= j < |before| ensures before[j] != [] && MatchType(before[j][0]) {
      assert Speech(said, ci)[j] == before[j];
    }
    forall j | 0 <= j < |last| ensures last[j] != [] && MatchType(last[j][0]) {
      assert Speech(said, ci)[|before| + j] == last[j];
    }
    if k < n {
      EachTalkPlays(said[..n], ci, k);
    }
  }

  lemma BothPlay(said: seq<Talk>, a: nat, b: nat)
    requires AllMatch(Speech(said, a)) && AllMatch(Speech(said, b))
    ensures OnlyPlay(said, [a, b])
  {
    forall k | 0 <= k < |said| && said[k].ci in [a, b] ensures AllMatch(said[k].bodies) {
      EachTalkPlays(said, said[k].ci, k);
    }
  }

  /** A console's bytes have come in from an empty buffer: what it said is the
      frames complete in them. */
  lemma SaidHonestly(s: Snap, t: Snap, events: seq<Event>, said: seq<Talk>, ci: nat, fs: seq<Frame16>)
    requires Sized(s) && Sized(t) && Heard(s, t, events, said) && Live(s, ci) && s.clients[ci].rx == []
    requires (forall f :: f in fs ==> Writable(f)) && Delivered(events, ci) <= AllBytes(fs)
    ensures var k := Whole(fs, |Delivered(events, ci)|);
            k <= |fs| && AllMatch(Speech(said, ci)) && Forwarded(Speech(said, ci)) == AllBytes(fs[..k])
  {
    var z := Delivered(events, ci);
    assert [] + z == z == AllBytes(fs)[..|z|];
    HonestBodies(fs, |z|);
    hide Framing.Parse, AllBytes, Writable;
  }

  /** Everything a client has been sent from some point on. */
  ghost predicate SentSince(s: Snap, t: Snap, i: nat, bytes: seq<byte>)
    requires Sized(s) && Sized(t) && i < MAX_CLIENTS
  {
    && Stream(t, i) == Stream(s, i) + bytes
    && (|Stream(s, i)| <= |t.wire[i]| ==> t.wire[i][|Stream(s, i)|..] <= bytes)
  }

  /** A console that reads no further than z, in any reads, dispatches the frames
      complete in what it has read, in order, and slips no byte. */
  ghost predicate Dispatches(fs: seq<Frame16>, z: seq<byte>)
    requires forall f :: f in fs ==> Writable(f)
  {
    forall pulls: seq<seq<byte>> :: Receiver.Concat(pulls) <= z ==>
      var k := Whole(fs, |Receiver.Concat(pulls)|);
      && k <= |fs|
      && Receiver.ParseReads([], pulls).frames == Receiver.EachBytes(fs[..k])
      && Receiver.ParseReads([], pulls).slips == 0
  }

  lemma PrefixDispatches(fs: seq<Frame16>, z: seq<byte>)
    requires (forall f :: f in fs ==> Writable(f)) && z <= AllBytes(fs)
    ensures Dispatches(fs, z)
  {
    hide Receiver.ParseStream, Receiver.ParseReads, AllBytes, Writable, Bytes, Receiver.Concat;
    forall pulls: seq<seq<byte>> | Receiver.Concat(pulls) <= z
      ensures var k := Whole(fs, |Receiver.Concat(pulls)|);
              && k <= |fs|
              && Receiver.ParseReads([], pulls).frames == Receiver.EachBytes(fs[..k])
              && Receiver.ParseReads([], pulls).slips == 0
    {
      var y := Receiver.Concat(pulls);
      assert y == AllBytes(fs)[..|y|];
      Receiver.NothingParses();
      Receiver.ReadsDoNotMatter([], pulls);
      Receiver.PrefixParse(fs, |y|);
      assert [] + y == y;
    }
  }

  lemma SharedTwo(s: Snap, t: Snap, r: nat, a: nat, b: nat, said: seq<Talk>)
    requires Sized(s) && Sized(t) && Shared(s, t, r, [a, b], said) && a != b && a < MAX_CLIENTS && b < MAX_CLIENTS
    ensures Playing(t, r, [a, b])
    ensures Stream(t, b) == Stream(s, b) + Forwarded(Speech(said, a))
    ensures Stream(t, a) == Stream(s, a) + Forwarded(Speech(said, b))
  {
    RelayedToOther(said, a, b);
    RelayedToOther(said, b, a);
    hide Forwarded, Stream;
  }

  lemma WireSince(s: Snap, t: Snap, i: nat, bytes: seq<byte>)
    requires Sized(s) && Sized(t) && i < MAX_CLIENTS && Stream(t, i) == Stream(s, i) + bytes
    ensures SentSince(s, t, i, bytes)
  {
    var n := |Stream(s, i)|;
    if n <= |t.wire[i]| {
      assert Stream(t, i)[n..] == bytes;
      assert Stream(t, i)[n..][..|t.wire[i]| - n] == t.wire[i][n..];
    }
  }

  lemma {:induction false} AllBytesPrefix(fs: seq<Frame16>, k: nat)
    requires (forall f :: f in fs ==> Writable(f)) && k <= |fs|
    ensures AllBytes(fs[..k]) <= AllBytes(fs)
    decreases k
  {
    if k > 0 {
      assert fs[..k][0] == fs[0] && fs[..k][1..] == fs[1..][..k - 1];
      AllBytesPrefix(fs[1..], k - 1);
    }
  }

  /** End to end, both ways.  Two consoles in a started match write frames; the
      relay's loop receives whatever pieces of them the network delivers, between
      whatever the other connections send, queues and flushes with any partial
      sends.  As long as nobody is lost, each console's socket carries exactly
      the frames the relay has received complete from the other; and however the
      console reads that, it dispatches exactly those frames, in order, as far
      as it has read, and slips no byte. */
  method Exchange(server: Server, events: seq<Event>, ghost r: nat, ghost a: nat, ghost b: nat,
                  ghost fs: seq<Frame16>, ghost gs: seq<Frame16>)
    requires server.Settled() && Rested(server.Snapshot()) && Playing(server.Snapshot(), r, [a, b])
    requires a < MAX_CLIENTS && b < MAX_CLIENTS && server.clients[a].rx == server.clients[b].rx == []
    requires (forall f :: f in fs ==> Writable(f)) && Delivered(events, a) <= AllBytes(fs)
    requires (forall f :: f in gs ==> Writable(f)) && Delivered(events, b) <= AllBytes(gs)
    modifies server
    ensures server.Settled() && Rested(server.Snapshot())
    ensures LiveSet(server.Snapshot()) == LiveSet(old(server.Snapshot())) ==>
              var s, t := old(server.Snapshot()), server.Snapshot();
              var j, k := Whole(fs, |Delivered(events, a)|), Whole(gs, |Delivered(events, b)|);
              && Playing(t, r, [a, b]) && j <= |fs| && k <= |gs|
              && SentSince(s, t, b, AllBytes(fs[..j])) && Dispatches(fs, AllBytes(fs[..j]))
              && SentSince(s, t, a, AllBytes(gs[..k])) && Dispatches(gs, AllBytes(gs[..k]))
  {
    hide LiveSet, Playing, Heard, Shared, OnlyPlay, AllBytes, Writable, Forwarded, Speech, Stream, SentSince, Dispatches;
    hide Rested, AllMatch;
    ghost var s := server.Snapshot();
    TwoMembers(s, server.maxSeats, r, a, b);
    ghost var said := Serve(server, events, r, [a, b]);
    ghost var t := server.Snapshot();
    if LiveSet(t) == LiveSet(s) {
      ghost var j, k := Whole(fs, |Delivered(events, a)|), Whole(gs, |Delivered(events, b)|);
      SaidHonestly(s, t, events, said, a, fs);
      SaidHonestly(s, t, events, said, b, gs);
      BothPlay(said, a, b);
      SharedTwo(s, t, r, a, b, said);
      WireSince(s, t, b, AllBytes(fs[..j]));
      WireSince(s, t, a, AllBytes(gs[..k]));
      AllBytesPrefix(fs, j);
      AllBytesPrefix(gs, k);
      PrefixDispatches(fs, AllBytes(fs[..j]));
      PrefixDispatches(gs, AllBytes(gs[..k]));
    }
  }

  lemma TwoMembers(s: Snap, maxSeats: nat, r: nat, a: nat, b: nat)
    requires Ok(s, maxSeats) && Playing(s, r, [a, b])
    ensures a != b && Live(s, a) && Live(s, b)
  {
    RoomMembers(s, r, maxSeats);
    assert a in [a, b] && b in [a, b] && [a, b][0] == a && [a, b][1] == b;
  }

  /** Once everything has been delivered, sent and read, the peer has dispatched
      every frame and keeps nothing over. */
  lemma NothingMissing(fs: seq<Frame16>, pulls: seq<seq<byte>>)
    requires (forall f :: f in fs ==> Writable(f)) && Receiver.Concat(pulls) == AllBytes(fs)
    ensures Whole(fs, |AllBytes(fs)|) == |fs|
    ensures Receiver.ParseReads([], pulls) == Receiver.Parse(Receiver.EachBytes(fs), 0, [])
  {
    hide Receiver.ParseStream, Receiver.ParseReads, AllBytes, Writable, Bytes, Receiver.Concat;
    WholeAll(fs);
    Receiver.NothingParses();
    Receiver.ReadsDoNotMatter([], pulls);
    Receiver.HonestParse(fs);
    assert [] + Receiver.Concat(pulls) == AllBytes(fs);
  }

  /** ... and its dispatcher reads each of them back as the frame written. */
  lemma FramesReadBack(fs: seq<Frame16>, i: nat)
    requires (forall f :: f in fs ==> Writable(f)) && i < |fs|
    ensures var b := Receiver.EachBytes(fs)[i]; |b| >= 2 && |b| == Total(b[0]) && Read(b) == Some(fs[i])
  {
    assert fs[i] in fs;
    ReadBytes(fs[i]);
    WritableIsPlausible(fs[i]);
  }
}
