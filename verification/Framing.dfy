/** The server's frame parser: independent of how the stream is cut into reads. */
module Framing {
  import opened Octets
  import opened Words
  import opened Protocol
  import opened System

  /** The size sum never wraps: the cap is checked first. */
  lemma {:induction false} NoWrap(b: Bytes)
    requires HEADER_SIZE <= |b| && HeaderSize(b) <= MAX_PAYLOAD
    ensures FrameSize(b) == HEADER_SIZE + HeaderSize(b)
  {
  }

  lemma {:induction false} HeaderKept(a: Bytes, b: Bytes)
    requires HEADER_SIZE <= |a|
    ensures HeaderCode(a + b) == HeaderCode(a) && HeaderSize(a + b) == HeaderSize(a)
  {
    assert (a + b)[0..2] == a[0..2];
    assert (a + b)[2..6] == a[2..6];
  }

  function Prepend(ps: seq<Packet>, r: Parsed): Parsed { r.(requests := ps + r.requests) }

  /** Parsing on after more bytes: a broken header stays broken, otherwise the leftover is parsed again. */
  function Resume(r: Parsed, more: Bytes): Parsed {
    if r.oversize then r.(rest := r.rest + more) else Prepend(r.requests, Parse(r.rest + more))
  }

  lemma {:induction false} PrependPrepend(ps: seq<Packet>, qs: seq<Packet>, r: Parsed)
    ensures Prepend(ps, Prepend(qs, r)) == Prepend(ps + qs, r)
  {
    Associate(ps, qs, r.requests);
  }

  lemma {:induction false} ResumePrepended(ps: seq<Packet>, r: Parsed, more: Bytes)
    ensures Resume(Prepend(ps, r), more) == Prepend(ps, Resume(r, more))
  {
    if !r.oversize { PrependPrepend(ps, r.requests, Parse(r.rest + more)); }
  }

  lemma {:induction false} ParseFrame(a: Bytes)
    requires FrameReady(a)
    ensures 0 < FrameSize(a) <= |a|
    ensures Parse(a) == Prepend([Packet(HeaderCode(a), a[HEADER_SIZE..FrameSize(a)])], Parse(a[FrameSize(a)..]))
  {
  }

  /** Where the stream is cut does not matter. */
  lemma {:induction false} ParseMore(a: Bytes, b: Bytes)
    ensures Parse(a + b) == Resume(Parse(a), b)
    decreases |a|
  {
    if FrameReady(a) {
      var n := FrameSize(a);
      HeaderKept(a, b);
      ParseFrame(a);
      ParseFrame(a + b);
      assert (a + b)[HEADER_SIZE..n] == a[HEADER_SIZE..n];
      assert (a + b)[n..] == a[n..] + b;
      ParseMore(a[n..], b);
      ResumePrepended([Packet(HeaderCode(a), a[HEADER_SIZE..n])], Parse(a[n..]), b);
    } else if HEADER_SIZE <= |a| {
      HeaderKept(a, b);
      assert [] + Parse(a + b).requests == Parse(a + b).requests;
    } else {
      assert [] + Parse(a + b).requests == Parse(a + b).requests;
    }
  }

  /** One parse over a list of chunks, resumed at every chunk. */
  function Fed(chunks: seq<Bytes>): Parsed {
    if chunks == [] then Parsed([], [], false) else Resume(Fed(chunks[..|chunks| - 1]), chunks[|chunks| - 1])
  }

  /** Any cutting of a stream yields the requests, the leftover and the verdict of one parse of the whole. */
  lemma {:induction false} ChunksDoNotMatter(chunks: seq<Bytes>)
    ensures Fed(chunks) == Parse(Joined(chunks))
  {
    if chunks != [] {
      ChunksDoNotMatter(chunks[..|chunks| - 1]);
      ParseMore(Joined(chunks[..|chunks| - 1]), chunks[|chunks| - 1]);
    }
  }

  lemma {:induction false} ParseMessage(p: Packet, tail: Bytes)
    requires |p.payload| <= MAX_PAYLOAD
    ensures Parse(Message(p) + tail) == Prepend([p], Parse(tail))
  {
    var b := Message(p) + tail;
    HeaderBack(p, tail);
    NoWrap(b);
    ParseFrame(b);
    assert Packet(HeaderCode(b), b[HEADER_SIZE..FrameSize(b)]) == p;
    assert b[FrameSize(b)..] == tail;
  }

  /** Frames as _send_packet writes them, of at most 65535 payload bytes, come back whole and in order. */
  lemma {:induction false} ParseMessages(ps: seq<Packet>, rest: Bytes)
    requires forall p | p in ps :: |p.payload| <= MAX_PAYLOAD
    ensures Parse(Messages(ps) + rest) == Prepend(ps, Parse(rest))
  {
    if ps == [] {
      assert Messages(ps) + rest == rest;
      assert [] + Parse(rest).requests == Parse(rest).requests;
    } else {
      assert ps[0] in ps;
      assert forall q | q in ps[1..] :: q in ps;
      calc {
        Parse(Messages(ps) + rest);
        { Associate(Message(ps[0]), Messages(ps[1..]), rest); }
        Parse(Message(ps[0]) + (Messages(ps[1..]) + rest));
        { ParseMessage(ps[0], Messages(ps[1..]) + rest); }
        Prepend([ps[0]], Parse(Messages(ps[1..]) + rest));
        { ParseMessages(ps[1..], rest); }
        Prepend([ps[0]], Prepend(ps[1..], Parse(rest)));
        { PrependPrepend([ps[0]], ps[1..], Parse(rest)); assert [ps[0]] + ps[1..] == ps; }
        Prepend(ps, Parse(rest));
      }
    }
  }

  lemma {:induction false} OversizeFrame(p: Packet, rest: Bytes)
    requires Small(p) && |p.payload| > 65535
    ensures Parse(Message(p) + rest) == Parsed([], Message(p) + rest, true)
  {
    HeaderBack(p, rest);
  }

  /** The first frame of more than 65535 payload bytes stops the parse: the frames before it count, nothing else. */
  lemma {:induction false} OversizeStops(ps: seq<Packet>, p: Packet, rest: Bytes)
    requires (forall q | q in ps :: |q.payload| <= 65535) && Small(p) && |p.payload| > 65535
    ensures Parse(Messages(ps) + (Message(p) + rest)) == Parsed(ps, Message(p) + rest, true)
  {
    ParseMessages(ps, Message(p) + rest);
    OversizeFrame(p, rest);
    assert ps + [] == ps;
  }
}
