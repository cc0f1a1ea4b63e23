/** The stream from server to client: queued frames arrive whole, in order and well-typed. */
module Delivery {
  import opened Octets
  import opened Words
  import opened Protocol
  import opened Records
  import opened System
  import opened Reachable
  import opened Soundness
  import opened Framing
  import opened Connections

  /** The client's frames and what its receive buffer keeps. It has no cap, and its size sum is 64 bits wide. */
  datatype Split = Split(packets: seq<Packet>, rest: Bytes)

  predicate Complete(b: Bytes) {
    HEADER_SIZE <= |b| && HEADER_SIZE + HeaderSize(b) <= |b|
  }

  function FirstOfStream(b: Bytes): Packet
    requires Complete(b)
  {
    Packet(HeaderCode(b), b[HEADER_SIZE..HEADER_SIZE + HeaderSize(b)])
  }

  function AfterFirst(b: Bytes): (r: Bytes)
    requires Complete(b)
    ensures |r| < |b|
  {
    b[HEADER_SIZE + HeaderSize(b)..]
  }

  function Frames(b: Bytes): Split {
    if !Complete(b) then Split([], b)
    else
      var r := Frames(AfterFirst(b));
      r.(packets := [FirstOfStream(b)] + r.packets)
  }

  function Ahead(ps: seq<Packet>, r: Split): Split { r.(packets := ps + r.packets) }

  function Further(r: Split, more: Bytes): Split { Ahead(r.packets, Frames(r.rest + more)) }

  lemma {:induction false} AheadAhead(ps: seq<Packet>, qs: seq<Packet>, r: Split)
    ensures Ahead(ps, Ahead(qs, r)) == Ahead(ps + qs, r)
  {
    Associate(ps, qs, r.packets);
  }

  lemma {:induction false} FramesMore(a: Bytes, b: Bytes)
    ensures Frames(a + b) == Further(Frames(a), b)
    decreases |a|
  {
    if Complete(a) {
      HeaderKept(a, b);
      var n := HEADER_SIZE + HeaderSize(a);
      assert (a + b)[HEADER_SIZE..n] == a[HEADER_SIZE..n];
      assert (a + b)[n..] == a[n..] + b;
      FramesMore(a[n..], b);
      AheadAhead([FirstOfStream(a)], Frames(a[n..]).packets, Frames(Frames(a[n..]).rest + b));
    } else {
      assert [] + Frames(a + b).packets == Frames(a + b).packets;
    }
  }

  /** The client fed chunk by chunk. */
  function Received(chunks: seq<Bytes>): Split {
    if chunks == [] then Split([], []) else Further(Received(chunks[..|chunks| - 1]), chunks[|chunks| - 1])
  }

  lemma {:induction false} ReceivedIsFrames(chunks: seq<Bytes>)
    ensures Received(chunks) == Frames(Joined(chunks))
  {
    if chunks != [] {
      ReceivedIsFrames(chunks[..|chunks| - 1]);
      FramesMore(Joined(chunks[..|chunks| - 1]), chunks[|chunks| - 1]);
    }
  }

  lemma {:induction false} FrameOf(p: Packet, tail: Bytes)
    requires Small(p)
    ensures Frames(Message(p) + tail) == Ahead([p], Frames(tail))
  {
    HeaderBack(p, tail);
    assert FirstOfStream(Message(p) + tail) == p;
    assert AfterFirst(Message(p) + tail) == tail;
  }

  /** A stream cut inside its first frame holds no complete frame. */
  lemma {:induction false} CutShort(p: Packet, b: Bytes)
    requires Small(p) && b <= Message(p) && |b| < |Message(p)|
    ensures Frames(b) == Split([], b)
  {
    if HEADER_SIZE <= |b| {
      HeaderBack(p, []);
      var rest := Message(p)[|b|..];
      assert b + rest == Message(p) + [];
      HeaderKept(b, rest);
    }
  }

  lemma {:induction false} PrefixSplits(a: Bytes, c: Bytes, b: Bytes)
    requires b <= a + c && |a| <= |b|
    ensures b == a + b[|a|..] && b[|a|..] <= c
  {
    assert b[..|a|] == (a + c)[..|a|];
    assert b[|a|..] == (a + c)[|a|..|b|];
  }

  lemma {:induction false} FirstFrames(p: Packet, ps: seq<Packet>, b: Bytes)
    requires Small(p) && Frames(b).packets <= ps
    ensures Frames(Message(p) + b).packets <= [p] + ps
    ensures Frames(b) == Split(ps, []) ==> Frames(Message(p) + b) == Split([p] + ps, [])
  {
    FrameOf(p, b);
  }

  /** What a prefix of the stream yields is a prefix of the frames; the whole stream yields them all. */
  lemma {:induction false} PrefixYieldsPrefix(ps: seq<Packet>, b: Bytes)
    requires (forall p | p in ps :: Small(p)) && b <= Messages(ps)
    ensures Frames(b).packets <= ps
    ensures b == Messages(ps) ==> Frames(b) == Split(ps, [])
  {
    if ps != [] {
      var m, tail := Message(ps[0]), Messages(ps[1..]);
      assert ps[0] in ps;
      assert forall q | q in ps[1..] :: q in ps;
      if |b| < |m| {
        assert b <= m;
        CutShort(ps[0], b);
      } else {
        PrefixSplits(m, tail, b);
        PrefixYieldsPrefix(ps[1..], b[|m|..]);
        FirstFrames(ps[0], ps[1..], b[|m|..]);
        assert ps == [ps[0]] + ps[1..];
        if b == Messages(ps) { assert b[|m|..] == tail; }
      }
    }
  }

  lemma {:induction false} ClientFollowsConn(c: Conn, chunks: seq<Bytes>)
    requires c.past.written + c.send == Messages(c.past.queued) && Joined(chunks) <= c.past.written
    requires forall p | p in c.past.queued :: Small(p) && WellTyped(p)
    ensures Received(chunks).packets <= c.past.queued
    ensures forall p | p in Received(chunks).packets :: WellFormed(p) && Decode(p).1 == []
    ensures c.send == [] && Joined(chunks) == c.past.written ==> Received(chunks) == Split(c.past.queued, [])
  {
    ReceivedIsFrames(chunks);
    assert c.past.written <= Messages(c.past.queued);
    PrefixYieldsPrefix(c.past.queued, Joined(chunks));
    forall p | p in Received(chunks).packets ensures WellFormed(p) && Decode(p).1 == [] {
      assert p in c.past.queued;
      CursorEnds(p);
    }
    if c.send == [] { assert c.past.written + [] == c.past.written; }
  }

  /**
   * End to end, after any run of the server and whatever its partial writes were: a client that has read any
   * chunking of any part of what was written to it has dispatched exactly the first frames queued to it, in
   * order, each of the layout of its code, so that decoding it leaves no byte unread; once everything queued
   * is written and read, it has dispatched them all and its buffer is empty.
   */
  lemma {:induction false} ClientFollowsQueue(w: World, steps: seq<Step>, fd: int, chunks: seq<Bytes>)
    requires WorldOk(w, Run(w, steps).ticks) && fd in Run(w, steps).clients
    requires Joined(chunks) <= Run(w, steps).clients[fd].past.written
    requires forall p | p in Run(w, steps).clients[fd].past.queued :: Small(p)
    ensures var c := Run(w, steps).clients[fd];
            && Received(chunks).packets <= c.past.queued
            && (forall p | p in Received(chunks).packets :: WellFormed(p) && Decode(p).1 == [])
            && (c.send == [] && Joined(chunks) == c.past.written ==> Received(chunks) == Split(c.past.queued, []))
  {
    RunKeepsConns(w, steps);
    assert ConnOk(Run(w, steps).data, fd, Run(w, steps).clients[fd]);
    ClientFollowsConn(Run(w, steps).clients[fd], chunks);
  }
}
