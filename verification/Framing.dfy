/** The relay's reading of a client's byte stream, as a pure parser. */
module Framing {
  import opened Words

  const RX_CAP := 256

  /** The frame bodies of a stream, up to a bad length byte or an unfinished
      frame, and what was not consumed. */
  datatype Fed = Fed(bodies: seq<seq<byte>>, rest: seq<byte>, bad: bool)

  predicate BadLength(len: byte) {
    len == 0 || len > 200
  }

  function Parse(s: seq<byte>): (r: Fed)
    ensures !r.bad ==> |r.rest| <= 200
    decreases |s|
  {
    if s == [] then Fed([], [], false)
    else if BadLength(s[0]) then Fed([], s, true)
    else if |s| < 1 + s[0] as int then Fed([], s, false)
    else
      var n: int := s[0];
      var r := Parse(s[n + 1..]);
      Fed([s[1..n + 1]] + r.bodies, r.rest, r.bad)
  }

  /** Bodies put back behind their length bytes. */
  function Framed(bodies: seq<seq<byte>>): seq<byte>
    requires forall b :: b in bodies ==> |b| <= 200
  {
    if bodies == [] then [] else [|bodies[0]|] + bodies[0] + Framed(bodies[1..])
  }

  /** Nothing is lost or made up: the bodies behind their lengths, and the rest,
      are the stream; and the rest is a bad length byte and what follows, or
      holds no whole frame. */
  lemma {:induction false} ParseConserves(s: seq<byte>)
    ensures forall b :: b in Parse(s).bodies ==> 1 <= |b| <= 200
    ensures s == Framed(Parse(s).bodies) + Parse(s).rest
    ensures Parse(s).bad <==> Parse(s).rest != [] && (Parse(s).rest[0] == 0 || Parse(s).rest[0] > 200)
    ensures !Parse(s).bad && Parse(s).rest != [] ==> |Parse(s).rest| <= Parse(s).rest[0]
    decreases |s|
  {
    hide Parse, Framed, Body, After;
    ParseStep(s);
    if Complete(s) {
      AfterShorter(s);
      ParseConserves(After(s));
      var r := Parse(After(s));
      HeadFramed(s);
      FramedCons(Body(s), r.bodies);
      assert s == [s[0]] + Body(s) + Framed(r.bodies) + r.rest;
    } else {
      NothingFramed();
    }
  }

  lemma HeadFramed(s: seq<byte>)
    requires Complete(s)
    ensures |Body(s)| == s[0] as int && 1 <= |Body(s)| <= 200 && s == [s[0]] + Body(s) + After(s)
  {
  }

  lemma FramedCons(b: seq<byte>, bodies: seq<seq<byte>>)
    requires |b| <= 200 && forall x :: x in bodies ==> |x| <= 200
    ensures (forall x :: x in [b] + bodies ==> |x| <= 200) && Framed([b] + bodies) == [|b|] + b + Framed(bodies)
  {
    assert ([b] + bodies)[1..] == bodies;
  }

  lemma NothingFramed()
    ensures Framed([]) == []
  {
  }

  predicate Complete(s: seq<byte>) {
    s != [] && !BadLength(s[0]) && 1 + s[0] as int <= |s|
  }

  function Body(s: seq<byte>): seq<byte>
    requires Complete(s)
  {
    s[1..1 + s[0] as int]
  }

  function After(s: seq<byte>): seq<byte>
    requires Complete(s)
  {
    s[1 + s[0] as int..]
  }

  lemma ParseStep(s: seq<byte>)
    ensures Complete(s) ==>
              var r := Parse(After(s)); Parse(s) == Fed([Body(s)] + r.bodies, r.rest, r.bad)
    ensures !Complete(s) ==> Parse(s) == Fed([], s, s != [] && BadLength(s[0]))
  {
  }

  function Then(p: Fed, q: Fed): Fed {
    Fed(p.bodies + q.bodies, q.rest, q.bad)
  }

  lemma HeadOfBoth(a: seq<byte>, b: seq<byte>)
    requires Complete(a)
    ensures Complete(a + b) && Body(a + b) == Body(a) && After(a + b) == After(a) + b
  {
    assert (a + b)[0] == a[0];
  }

  lemma ThenCons(x: seq<byte>, p: Fed, q: Fed)
    ensures Then(Fed([x] + p.bodies, p.rest, p.bad), q) == Fed([x] + Then(p, q).bodies, q.rest, q.bad)
  {
    assert [x] + (p.bodies + q.bodies) == [x] + p.bodies + q.bodies;
  }

  /** Chunking independence: a stream handed over in two parts gives the same
      bodies, in order; after a bad length byte nothing more is read. */
  lemma {:induction false} SplitParse(a: seq<byte>, b: seq<byte>)
    ensures !Parse(a).bad ==> Parse(a + b) == Then(Parse(a), Parse(Parse(a).rest + b))
    ensures Parse(a).bad ==> Parse(a + b).bad && Parse(a + b).bodies == Parse(a).bodies
    decreases |a|
  {
    hide Parse, Body, After;
    ParseStep(a);
    ParseStep(a + b);
    if Complete(a) {
      HeadOfBoth(a, b);
      AfterShorter(a);
      SplitParse(After(a), b);
      ThenCons(Body(a), Parse(After(a)), Parse(Parse(After(a)).rest + b));
    } else if a != [] && BadLength(a[0]) {
      assert (a + b)[0] == a[0];
    } else {
      NothingRead(a, b);
    }
  }

  lemma AfterShorter(s: seq<byte>)
    requires Complete(s)
    ensures |After(s)| < |s|
  {
  }

  lemma NothingRead(a: seq<byte>, b: seq<byte>)
    requires Parse(a) == Fed([], a, false)
    ensures Parse(a + b) == Then(Parse(a), Parse(Parse(a).rest + b))
  {
  }
}
