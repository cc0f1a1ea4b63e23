/** What every connection's history keeps over whole runs: its requests, its replies, its bytes. */
module Connections {
  import opened Octets
  import opened Words
  import opened Protocol
  import opened ServerData
  import opened Handlers
  import opened System
  import opened Invariants
  import opened Soundness
  import opened Reachable
  import opened Framing

  /** What remains of a queue when the events are deleted. */
  function Replies(ps: seq<Packet>): seq<Packet> {
    if ps == [] then [] else
      var p := ps[|ps| - 1];
      Replies(ps[..|ps| - 1]) + if IsEvent(p) then [] else [p]
  }

  lemma {:induction false} RepliesSnoc(ps: seq<Packet>, p: Packet)
    ensures Replies(ps + [p]) == Replies(ps) + if IsEvent(p) then [] else [p]
  {
    assert (ps + [p])[..|ps|] == ps;
  }

  lemma {:induction false} RepliesOfEvents(ps: seq<Packet>, es: seq<Packet>)
    requires forall e | e in es :: IsEvent(e)
    ensures Replies(ps + es) == Replies(ps)
  {
    if es == [] {
      assert ps + es == ps;
    } else {
      var n := |es| - 1;
      assert es[n] in es;
      assert forall e | e in es[..n] :: e in es;
      RepliesOfEvents(ps, es[..n]);
      RepliesSnoc(ps + es[..n], es[n]);
      assert ps + es == ps + es[..n] + [es[n]];
    }
  }

  /** The context that a connection's own requests and replies lead to. */
  function Replay(requests: seq<Packet>, replies: seq<Packet>): Option<Context>
    requires |requests| == |replies|
  {
    if requests == [] then None else
      var n := |requests| - 1;
      ContextAfter(Replay(requests[..n], replies[..n]), requests[n], replies[n].code)
  }

  lemma {:induction false} ReplaySnoc(requests: seq<Packet>, replies: seq<Packet>, q: Packet, r: Packet)
    requires |requests| == |replies|
    ensures Replay(requests + [q], replies + [r]) == ContextAfter(Replay(requests, replies), q, r.code)
  {
    var n := |requests|;
    assert (requests + [q])[..n] == requests && (replies + [r])[..n] == replies;
  }

  /** Each request has exactly one reply, in order, of a code it may draw. */
  ghost predicate InStep(requests: seq<Packet>, replies: seq<Packet>) {
    |requests| == |replies| && forall i | 0 <= i < |requests| :: Answers(requests[i].code, replies[i].code)
  }

  ghost predicate BytesOk(c: Conn) {
    && c.past.written + c.send == Messages(c.past.queued)
    && Parse(c.past.read) == Prepend(c.past.requests, Parse(c.recv))
  }

  ghost predicate RepliesOk(d: Data, fd: int, past: Past) {
    && (forall p | p in past.queued :: WellTyped(p))
    && InStep(past.requests, Replies(past.queued))
    && Replay(past.requests, Replies(past.queued)) == ContextOf(d, fd)
  }

  ghost predicate ConnOk(d: Data, fd: int, c: Conn) { BytesOk(c) && RepliesOk(d, fd, c.past) }

  ghost predicate ConnsOk(s: Sys) {
    forall fd | fd in s.clients :: ConnOk(s.data, fd, s.clients[fd])
  }

  // ---------------------------------------------------------------- queueing

  lemma {:induction false} CopiesAre(fds: seq<int>, f: int, p: Packet)
    ensures forall e | e in Copies(fds, f, p) :: e == p
    ensures f !in fds ==> Copies(fds, f, p) == []
  {
    if fds != [] { CopiesAre(fds[1..], f, p); }
  }

  /** A packet is queued once to each of its distinct targets. */
  lemma {:induction false} CopiesOnce(fds: seq<int>, f: int, p: Packet)
    requires NoDuplicates(fds)
    ensures Copies(fds, f, p) == if f in fds then [p] else []
  {
    if fds != [] {
      assert NoDuplicates(fds[1..]);
      CopiesOnce(fds[1..], f, p);
    }
  }

  lemma {:induction false} OnePush(push: Push, f: int)
    requires NoDuplicates(push.fds)
    ensures PushesFor([push], f) == if f in push.fds then [push.packet] else []
  {
    CopiesOnce(push.fds, f, push.packet);
    assert PushesFor([push][1..], f) == [];
  }

  lemma {:induction false} PushesAreEvents(pushes: seq<Push>, f: int)
    requires forall i | 0 <= i < |pushes| :: IsEvent(pushes[i].packet) && WellTyped(pushes[i].packet)
    ensures forall e | e in PushesFor(pushes, f) :: IsEvent(e) && WellTyped(e)
  {
    if pushes != [] {
      CopiesAre(pushes[0].fds, f, pushes[0].packet);
      PushesAreEvents(pushes[1..], f);
    }
  }

  lemma {:induction false} EnqueueBytes(c: Conn, ps: seq<Packet>)
    requires BytesOk(c)
    ensures BytesOk(Enqueue(c, ps))
  {
    MessagesAppend(c.past.queued, ps);
    Associate(c.past.written, c.send, Messages(ps));
  }

  /** A connection that did not issue the request gains events only. */
  lemma {:induction false} BystanderKept(d: Data, e: Data, fd: int, f: int, c: Conn, pushes: seq<Push>)
    requires ConnOk(d, f, c) && f != fd && OthersKept(d, e, fd)
    requires forall i | 0 <= i < |pushes| :: IsEvent(pushes[i].packet) && WellTyped(pushes[i].packet)
    ensures ConnOk(e, f, Enqueue(c, PushesFor(pushes, f)))
  {
    var es := PushesFor(pushes, f);
    PushesAreEvents(pushes, f);
    EnqueueBytes(c, es);
    RepliesOfEvents(c.past.queued, es);
    assert ContextOf(e, f) == ContextOf(d, f) by {
      assert f in e.contexts <==> f in e.contexts - {fd};
      assert f in d.contexts <==> f in d.contexts - {fd};
    }
  }

  lemma {:induction false} RequestNoted(c: Conn, q: Packet, r: Packet)
    requires InStep(c.past.requests, Replies(c.past.queued))
    requires Answers(q.code, r.code) && !IsEvent(r)
    ensures InStep(c.past.requests + [q], Replies(c.past.queued + [r]))
    ensures Replay(c.past.requests + [q], Replies(c.past.queued + [r]))
         == ContextAfter(Replay(c.past.requests, Replies(c.past.queued)), q, r.code)
  {
    RepliesSnoc(c.past.queued, r);
    ReplaySnoc(c.past.requests, Replies(c.past.queued), q, r);
  }

  /** The issuer gains its request and one reply. The receive buffer has already lost the frame. */
  lemma {:induction false} IssuerKept(d: Data, e: Data, fd: int, c: Conn, popped: Conn, q: Packet, r: Packet)
    requires ConnOk(d, fd, c) && FrameReady(c.recv)
    requires q == Packet(HeaderCode(c.recv), c.recv[HEADER_SIZE..FrameSize(c.recv)])
    requires popped == c.(recv := c.recv[FrameSize(c.recv)..], past := c.past.(requests := c.past.requests + [q]))
    requires Answers(q.code, r.code) && !IsEvent(r) && WellTyped(r)
    requires ContextOf(e, fd) == ContextAfter(ContextOf(d, fd), q, r.code)
    ensures ConnOk(e, fd, Enqueue(popped, [r]))
  {
    RequestNoted(c, q, r);
    ParseFrame(c.recv);
    PrependPrepend(c.past.requests, [q], Parse(popped.recv));
    assert BytesOk(popped);
    EnqueueBytes(popped, [r]);
  }

  lemma {:induction false} ServeKeepsConns(w: World, s: Sys, fd: int)
    requires WorldOk(w, s.ticks + 1) && SysOk(w, s) && ConnsOk(s)
    requires fd in s.clients && FrameReady(s.clients[fd].recv)
    ensures ConnsOk(Serve(w, s, fd))
  {
    var q := FirstFrame(s, fd);
    NextIdIsFresh(w, s);
    HandleEffect(s.data, fd, q, w.id(s.ticks), w.clock(s.ticks));
    HandleOk(s.data, fd, q, w.id(s.ticks), w.clock(s.ticks));
    var o := Handle(s.data, fd, q, w.id(s.ticks), w.clock(s.ticks));
    var t := Serve(w, s, fd);
    forall f | f in t.clients ensures ConnOk(t.data, f, t.clients[f]) {
      var c := s.clients[f];
      if f == fd {
        var popped := c.(recv := c.recv[FrameSize(c.recv)..], past := c.past.(requests := c.past.requests + [q]));
        IssuerKept(s.data, o.data, fd, c, popped, q, o.result.response);
      } else {
        BystanderKept(s.data, o.data, fd, f, c, o.result.pushes);
      }
    }
  }

  lemma {:induction false} DisconnectKeepsConns(s: Sys, fd: int)
    requires DataOk(s.data) && ConnsOk(s) && fd in s.clients
    ensures ConnsOk(Disconnect(s, fd))
  {
    var t := Disconnect(s, fd);
    if fd in s.data.sessions {
      LogoutOk(s.data, fd);
      LogoutLocal(s.data, fd, NO_UUID);
      var o := Logout(s.data, fd);
      forall f | f in t.clients ensures ConnOk(t.data, f, t.clients[f]) {
        BystanderKept(s.data, o.data, fd, f, s.clients[f], o.result.pushes);
      }
    }
  }

  lemma {:induction false} ReceiveKeepsBytes(c: Conn, chunk: Bytes)
    requires BytesOk(c)
    ensures BytesOk(c.(recv := c.recv + chunk, past := c.past.(read := c.past.read + chunk)))
  {
    ParseMore(c.past.read, chunk);
    ParseMore(c.recv, chunk);
    ResumePrepended(c.past.requests, Parse(c.recv), chunk);
  }

  lemma {:induction false} FlushKeepsBytes(c: Conn, n: nat)
    requires BytesOk(c) && n <= |c.send|
    ensures BytesOk(c.(send := c.send[n..], past := c.past.(written := c.past.written + c.send[..n])))
  {
    Associate(c.past.written, c.send[..n], c.send[n..]);
    assert c.send[..n] + c.send[n..] == c.send;
  }

  lemma {:induction false} NewConnOk(d: Data, fd: int)
    requires fd !in d.contexts
    ensures ConnOk(d, fd, NEW_CONN)
  {
    assert [] + Parse([]).requests == Parse([]).requests;
  }

  lemma {:induction false} MovedKeepsConns(w: World, s: Sys, m: Move)
    requires WorldOk(w, Moved(w, s, m).ticks) && SysOk(w, s) && ConnsOk(s)
    ensures ConnsOk(Moved(w, s, m))
  {
    match m
    case Opens(fd) => if fd !in s.clients { NewConnOk(s.data, fd); }
    case Receives(fd, chunk) => if fd in s.clients { ReceiveKeepsBytes(s.clients[fd], chunk); }
    case Serves(fd) => if fd in s.clients && FrameReady(s.clients[fd].recv) { ServeKeepsConns(w, s, fd); }
    case Drops(fd) => if fd in s.clients { DisconnectKeepsConns(s, fd); }
    case Flushes(fd, n) =>
      if fd in s.clients && n <= |s.clients[fd].send| { FlushKeepsBytes(s.clients[fd], n); }
  }

  lemma {:induction false} MovesKeepConns(w: World, ms: seq<Move>)
    requires WorldOk(w, Moves(w, ms).ticks)
    ensures ConnsOk(Moves(w, ms))
  {
    if ms != [] {
      var before := ms[..|ms| - 1];
      MovesKeepConns(w, before);
      MovesKeep(w, before);
      MovedKeepsConns(w, Moves(w, before), ms[|ms| - 1]);
    }
  }

  // ---------------------------------------------------------------- between two poll rounds

  /** No complete frame and no broken header is left in a receive buffer. */
  ghost predicate Idle(s: Sys) {
    forall fd | fd in s.clients :: !FrameReady(s.clients[fd].recv) && !Oversize(s.clients[fd].recv)
  }

  ghost predicate OtherBuffersKept(s: Sys, t: Sys, fd: int) {
    t.clients.Keys <= s.clients.Keys && forall f | f in t.clients && f != fd :: t.clients[f].recv == s.clients[f].recv
  }

  lemma {:induction false} ProcessIdles(w: World, s: Sys, fd: int)
    requires fd in s.clients
    ensures OtherBuffersKept(s, Process(w, s, fd), fd)
    ensures fd in Process(w, s, fd).clients ==>
              var b := Process(w, s, fd).clients[fd].recv; !FrameReady(b) && !Oversize(b)
    decreases |s.clients[fd].recv|
  {
    var b := s.clients[fd].recv;
    if !Oversize(b) && FrameReady(b) {
      var t := Serve(w, s, fd);
      assert OtherBuffersKept(s, t, fd);
      ProcessIdles(w, t, fd);
    }
  }

  lemma {:induction false} RunIdles(w: World, steps: seq<Step>)
    ensures Idle(Run(w, steps))
  {
    if steps != [] {
      var s := Run(w, steps[..|steps| - 1]);
      RunIdles(w, steps[..|steps| - 1]);
      match steps[|steps| - 1] {
        case Read(fd, chunk) => if fd in s.clients { ProcessIdles(w, Receive(s, fd, chunk), fd); }
        case _ =>
      }
    }
  }

  /**
   * After every run, on every connection: the frames queued, events deleted, are exactly one reply to each
   * request dispatched, in request order and of a code that request may draw; the requests dispatched are
   * the whole-stream parse of the bytes read, however they arrived; the bytes written and still to write are
   * the queued frames end to end; every queued frame has the layout of its code; and the stored context is
   * what the connection's own requests and replies lead to.
   */
  lemma {:induction false} RunKeepsConns(w: World, steps: seq<Step>)
    requires WorldOk(w, Run(w, steps).ticks)
    ensures ConnsOk(Run(w, steps)) && Idle(Run(w, steps))
    ensures forall fd | fd in Run(w, steps).clients ::
              var c := Run(w, steps).clients[fd];
              Parse(c.past.read) == Parsed(c.past.requests, c.recv, false)
  {
    var ms := RunIsMoves(w, steps);
    MovesKeepConns(w, ms);
    RunIdles(w, steps);
    forall fd | fd in Run(w, steps).clients
      ensures var c := Run(w, steps).clients[fd]; Parse(c.past.read) == Parsed(c.past.requests, c.recv, false)
    {
      var c := Run(w, steps).clients[fd];
      assert ConnOk(Run(w, steps).data, fd, c);
      assert c.past.requests + [] == c.past.requests;
    }
  }
}
