/** One read of a connection, against the parse of everything the connection ever sent. */
module Reads {
  import opened Octets
  import opened Protocol
  import opened System
  import opened Reachable
  import opened Framing
  import opened Connections

  function WithRecv(s: Sys, fd: int, b: Bytes): Sys
    requires fd in s.clients
  {
    s.(clients := s.clients[fd := s.clients[fd].(recv := b)])
  }

  /** The requests dispatched one after the other. */
  function ServeAll(w: World, s: Sys, fd: int, qs: seq<Packet>): (r: Sys)
    requires fd in s.clients
    ensures r.clients.Keys == s.clients.Keys
    decreases |qs|
  {
    if qs == [] then s else ServeAll(w, Dispatch(w, s, fd, qs[0]), fd, qs[1..])
  }

  /** All requests of a parse, then the disconnection a broken header calls for. */
  function Serving(w: World, s: Sys, fd: int, r: Parsed): Sys
    requires fd in s.clients
  {
    var t := ServeAll(w, WithRecv(s, fd, r.rest), fd, r.requests);
    if r.oversize then Disconnect(t, fd) else t
  }

  lemma {:induction false} DispatchIgnoresRecv(w: World, s: Sys, fd: int, q: Packet, b: Bytes)
    requires fd in s.clients
    ensures Dispatch(w, WithRecv(s, fd, b), fd, q) == WithRecv(Dispatch(w, s, fd, q), fd, b)
  {
    var t, u := Dispatch(w, WithRecv(s, fd, b), fd, q), WithRecv(Dispatch(w, s, fd, q), fd, b);
    assert t.clients.Keys == u.clients.Keys;
    assert forall f | f in t.clients :: t.clients[f] == u.clients[f];
    assert t.clients == u.clients;
  }

  lemma {:induction false} RecvTwice(s: Sys, fd: int, a: Bytes, b: Bytes)
    requires fd in s.clients
    ensures WithRecv(WithRecv(s, fd, a), fd, b) == WithRecv(s, fd, b)
  {
  }

  lemma {:induction false} RecvSame(s: Sys, fd: int)
    requires fd in s.clients
    ensures WithRecv(s, fd, s.clients[fd].recv) == s
  {
  }

  /** The loop that pops and dispatches frames does what the parse of the whole buffer says. */
  lemma {:induction false} ProcessServesParse(w: World, s: Sys, fd: int)
    requires fd in s.clients
    ensures Process(w, s, fd) == Serving(w, s, fd, Parse(s.clients[fd].recv))
    decreases |s.clients[fd].recv|
  {
    var b := s.clients[fd].recv;
    if !Oversize(b) && FrameReady(b) {
      var q, r := FirstFrame(s, fd), Parse(b);
      var t := Serve(w, s, fd);
      ParseFrame(b);
      ProcessServesParse(w, t, fd);
      assert Parse(t.clients[fd].recv) == r.(requests := r.requests[1..]);
      RecvTwice(s, fd, t.clients[fd].recv, r.rest);
      DispatchIgnoresRecv(w, Pop(s, fd), fd, q, r.rest);
      assert ServeAll(w, WithRecv(s, fd, r.rest), fd, r.requests)
          == ServeAll(w, Dispatch(w, WithRecv(s, fd, r.rest), fd, q), fd, r.requests[1..]);
    } else {
      RecvSame(s, fd);
    }
  }

  /**
   * After any run, one more read serves exactly the requests that the parse of all bytes ever read from the
   * connection has beyond those already served, keeps that parse's leftover, and drops the connection if and
   * only if that parse meets an oversized header. The cutting into reads shows nowhere.
   */
  lemma {:induction false} ReadServesTheStream(w: World, steps: seq<Step>, fd: int, chunk: Bytes)
    requires WorldOk(w, Run(w, steps).ticks) && fd in Run(w, steps).clients
    ensures var (s, past) := (Run(w, steps), Run(w, steps).clients[fd].past);
            var r := Parse(past.read + chunk);
            && past.requests <= r.requests
            && Next(w, s, Read(fd, chunk))
                 == Serving(w, Receive(s, fd, chunk), fd, r.(requests := r.requests[|past.requests|..]))
            && (fd in Next(w, s, Read(fd, chunk)).clients <==> !r.oversize)
  {
    var s := Run(w, steps);
    var c := s.clients[fd];
    RunKeepsConns(w, steps);
    ParseMore(c.past.read, chunk);
    ProcessServesParse(w, Receive(s, fd, chunk), fd);
    var r := Parse(c.past.read + chunk);
    assert r == Prepend(c.past.requests, Parse(c.recv + chunk));
    assert r.requests[|c.past.requests|..] == Parse(c.recv + chunk).requests;
  }
}
