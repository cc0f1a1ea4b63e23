/** A client and the server it talks to: the n-th reply it reacts to is the reply to the n-th request it issued. */
module ClosedLoop {
  import opened Octets
  import opened Words
  import opened Protocol
  import opened Records
  import opened ServerData
  import opened Handlers
  import opened System
  import opened Invariants
  import opened Soundness
  import opened Reachable
  import opened Framing
  import opened Connections
  import opened Announcements
  import opened Delivery
  import opened Commands
  import opened Simulation

  /** The move that serves the n-th request of the connection fd now is. */
  ghost predicate ServesNth(w: World, s: Sys, m: Move, fd: int, q: Packet, n: nat, reply: Packet) {
    && m == Serves(fd) && fd in s.clients && FrameReady(s.clients[fd].recv)
    && |s.clients[fd].past.requests| == n && FirstFrame(s, fd) == q
    && reply == Handle(s.data, fd, q, w.id(s.ticks), w.clock(s.ticks)).result.response
  }

  /** What a move does to the requests and replies of a connection: nothing, one of each, or it starts anew. */
  ghost predicate OneMore(w: World, s: Sys, m: Move, fd: int, before: Past, after: Past) {
    || (after.requests == before.requests && Replies(after.queued) == Replies(before.queued))
    || (|after.requests| == |before.requests| + 1 && before.requests <= after.requests
        && |Replies(after.queued)| == |Replies(before.queued)| + 1 && Replies(before.queued) <= Replies(after.queued)
        && ServesNth(w, s, m, fd, after.requests[|before.requests|], |before.requests|,
                     Replies(after.queued)[|Replies(before.queued)|]))
  }

  lemma {:induction false} ServeOwn(w: World, s: Sys, fd: int)
    requires SysOk(w, s) && fd in s.clients && FrameReady(s.clients[fd].recv)
    ensures OneMore(w, s, Serves(fd), fd, s.clients[fd].past, Serve(w, s, fd).clients[fd].past)
  {
    var q := FirstFrame(s, fd);
    HandleOk(s.data, fd, q, w.id(s.ticks), w.clock(s.ticks));
    RepliesSnoc(s.clients[fd].past.queued, Handle(s.data, fd, q, w.id(s.ticks), w.clock(s.ticks)).result.response);
  }

  lemma {:induction false} ServeOther(w: World, s: Sys, g: int, fd: int)
    requires SysOk(w, s) && g in s.clients && FrameReady(s.clients[g].recv) && fd in s.clients && g != fd
    ensures OneMore(w, s, Serves(g), fd, s.clients[fd].past, Serve(w, s, g).clients[fd].past)
  {
    var q := FirstFrame(s, g);
    HandleOk(s.data, g, q, w.id(s.ticks), w.clock(s.ticks));
    var pushes := Handle(s.data, g, q, w.id(s.ticks), w.clock(s.ticks)).result.pushes;
    PushesAreEvents(pushes, fd);
    RepliesOfEvents(s.clients[fd].past.queued, PushesFor(pushes, fd));
  }

  lemma {:induction false} DropOther(w: World, s: Sys, g: int, fd: int)
    requires g in s.clients && fd in s.clients && g != fd
    ensures OneMore(w, s, Drops(g), fd, s.clients[fd].past, Disconnect(s, g).clients[fd].past)
  {
    DisconnectReaches(s, g);
    RepliesOfEvents(s.clients[fd].past.queued, Farewell(s.data, g, fd));
  }

  lemma {:induction false} MoveOneMore(w: World, s: Sys, m: Move, fd: int)
    requires SysOk(w, s) && fd in Moved(w, s, m).clients
    ensures fd !in s.clients ==> Moved(w, s, m).clients[fd].past.requests == []
    ensures fd in s.clients ==> OneMore(w, s, m, fd, s.clients[fd].past, Moved(w, s, m).clients[fd].past)
  {
    match m
    case Serves(g) =>
      if g in s.clients && FrameReady(s.clients[g].recv) {
        if g == fd { ServeOwn(w, s, fd); } else if fd in s.clients { ServeOther(w, s, g, fd); }
      }
    case Drops(g) => if g in s.clients { DropOther(w, s, g, fd); }
    case _ =>
  }

  lemma {:induction false} Counted(w: World, ms: seq<Move>, fd: int)
    requires WorldOk(w, Moves(w, ms).ticks) && fd in Moves(w, ms).clients
    ensures var past := Moves(w, ms).clients[fd].past; |Replies(past.queued)| == |past.requests|
  {
    MovesKeepConns(w, ms);
    assert ConnOk(Moves(w, ms).data, fd, Moves(w, ms).clients[fd]);
  }

  lemma {:induction false} TicksGrow(w: World, s: Sys, m: Move)
    ensures s.ticks <= Moved(w, s, m).ticks
  {
  }

  lemma {:induction false} LastMove(w: World, ms: seq<Move>, fd: int)
    requires ms != [] && WorldOk(w, Moves(w, ms).ticks) && fd in Moves(w, ms).clients
    ensures var (s, past) := (Moves(w, ms[..|ms| - 1]), Moves(w, ms).clients[fd].past);
            && WorldOk(w, s.ticks)
            && (fd !in s.clients ==> past.requests == [])
            && (fd in s.clients ==> OneMore(w, s, ms[|ms| - 1], fd, s.clients[fd].past, past))
  {
    var s := Moves(w, ms[..|ms| - 1]);
    TicksGrow(w, s, ms[|ms| - 1]);
    MovesKeep(w, ms[..|ms| - 1]);
    MoveOneMore(w, s, ms[|ms| - 1], fd);
  }

  /** Every reply in a queue is what the server answered when it served that very request. */
  lemma {:induction false} ReplyWas(w: World, ms: seq<Move>, fd: int, n: nat) returns (k: nat)
    requires WorldOk(w, Moves(w, ms).ticks) && fd in Moves(w, ms).clients
    requires n < |Moves(w, ms).clients[fd].past.requests|
    ensures n < |Replies(Moves(w, ms).clients[fd].past.queued)|
    ensures k < |ms|
    ensures var past := Moves(w, ms).clients[fd].past;
            ServesNth(w, Moves(w, ms[..k]), ms[k], fd, past.requests[n], n, Replies(past.queued)[n])
  {
    Counted(w, ms, fd);
    if ms != [] {
      var before := ms[..|ms| - 1];
      var s := Moves(w, before);
      LastMove(w, ms, fd);
      Counted(w, before, fd);
      if n < |s.clients[fd].past.requests| {
        k := ReplyWas(w, before, fd, n);
        assert before[..k] == ms[..k];
      } else {
        k := |ms| - 1;
      }
    }
  }

  lemma {:induction false} RepliesPrefix(a: seq<Packet>, b: seq<Packet>)
    requires a <= b
    ensures Replies(a) <= Replies(b)
  {
    if a != b {
      var n := |b| - 1;
      RepliesPrefix(a, b[..n]);
      assert Replies(b[..n]) <= Replies(b);
    }
  }

  /**
   * The closed loop. On a connection that carries what a client issued for its lines, however its bytes were
   * cut on the way there and on the way back: the n-th packet the client reacts to that is no event is the
   * server's answer to the n-th request the client issued, given when the server served that request.
   */
  lemma {:induction false} LoopCloses(w: World, ms: seq<Move>, fd: int, lines: seq<Bytes>, chunks: seq<Bytes>, n: nat)
    returns (k: nat)
    requires WorldOk(w, Moves(w, ms).ticks) && fd in Moves(w, ms).clients
    requires Moves(w, ms).clients[fd].past.read <= Messages(Session(lines).packets)
    requires Joined(chunks) <= Moves(w, ms).clients[fd].past.written
    requires forall p | p in Moves(w, ms).clients[fd].past.queued :: Small(p)
    requires n < |Replies(Received(chunks).packets)|
    ensures n < |Session(lines).packets| && k < |ms|
    ensures ServesNth(w, Moves(w, ms[..k]), ms[k], fd, Session(lines).packets[n], n,
                      Replies(Received(chunks).packets)[n])
    ensures Answers(Session(lines).packets[n].code, Replies(Received(chunks).packets)[n].code)
  {
    var c := Moves(w, ms).clients[fd];
    MovesKeepConns(w, ms);
    assert ConnOk(Moves(w, ms).data, fd, c);
    ClientFollowsConn(c, chunks);
    RepliesPrefix(Received(chunks).packets, c.past.queued);
    IssuedSmall(lines);
    ParsedPrefix(Session(lines).packets, c.past.read);
    assert c.past.requests <= Session(lines).packets;
    k := ReplyWas(w, ms, fd, n);
  }
}
