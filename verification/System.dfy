/** The server as a transition system: connections, buffers, dispatch and the poll loop's steps. */
module System {
  import opened Octets
  import opened Words
  import opened Protocol
  import opened ServerData
  import opened Handlers

  /** What uuid_generate and time answer while the k-th request is served. */
  datatype World = World(id: nat -> Uuid, clock: nat -> Image)

  /** The first n ids are NUL-free and pairwise distinct: all that a server with n requests behind it has seen. */
  ghost predicate WorldOk(w: World, n: nat) {
    && (forall i: nat | i < n :: 0 !in w.id(i))
    && (forall i: nat, j: nat | i < j < n :: w.id(i) != w.id(j))
  }

  /** History of a connection. The server never looks at it. */
  datatype Past = Past(read: Bytes, requests: seq<Packet>, queued: seq<Packet>, written: Bytes)

  datatype Conn = Conn(recv: Bytes, send: Bytes, past: Past)

  const NEW_CONN := Conn([], [], Past([], [], [], []))

  /** A served login: the name as trimmed, the id its reply starts with, and whose session its descriptor held. */
  datatype SignIn = SignIn(name: Bytes, uuid: Bytes, held: Option<Bytes>)

  /**
   * History of the whole server: every event packet pushed, every user whose last session was
   * overwritten by another login on the same descriptor, those of them who have not logged in since,
   * and every login served.
   */
  datatype Log = Log(pushed: seq<Packet>, dropped: seq<Bytes>, stale: set<Bytes>, signIns: seq<SignIn>)

  datatype Sys = Sys(data: Data, clients: map<int, Conn>, ticks: nat, log: Log)

  const START := Sys(EMPTY_DATA, map[], 0, Log([], [], {}, []))

  // ---------------------------------------------------------------- framing

  datatype Parsed = Parsed(requests: seq<Packet>, rest: Bytes, oversize: bool)

  /** HEADER_SIZE + payload_size in 32-bit arithmetic. */
  function FrameSize(b: Bytes): nat
    requires HEADER_SIZE <= |b|
  {
    (HEADER_SIZE + HeaderSize(b)) % TWO32
  }

  /** The whole-stream parse: complete frames, what is left over, and whether a header broke the cap. */
  function Parse(b: Bytes): Parsed {
    if |b| < HEADER_SIZE then Parsed([], b, false)
    else if HeaderSize(b) > MAX_PAYLOAD then Parsed([], b, true)
    else if |b| < FrameSize(b) then Parsed([], b, false)
    else
      var r := Parse(b[FrameSize(b)..]);
      r.(requests := [Packet(HeaderCode(b), b[HEADER_SIZE..FrameSize(b)])] + r.requests)
  }

  predicate FrameReady(b: Bytes) {
    HEADER_SIZE <= |b| && HeaderSize(b) <= MAX_PAYLOAD && FrameSize(b) <= |b|
  }

  predicate Oversize(b: Bytes) {
    HEADER_SIZE <= |b| && HeaderSize(b) > MAX_PAYLOAD
  }

  // ---------------------------------------------------------------- queueing

  function Enqueue(c: Conn, ps: seq<Packet>): Conn {
    c.(send := c.send + Messages(ps), past := c.past.(queued := c.past.queued + ps))
  }

  function Copies(fds: seq<int>, f: int, p: Packet): seq<Packet> {
    if fds == [] then [] else (if fds[0] == f then [p] else []) + Copies(fds[1..], f, p)
  }

  function PushesFor(pushes: seq<Push>, f: int): seq<Packet> {
    if pushes == [] then [] else Copies(pushes[0].fds, f, pushes[0].packet) + PushesFor(pushes[1..], f)
  }

  /** What a result puts into f's queue: the response for its originator, the events for the others. */
  function SentTo(r: Result, origin: int, f: int): seq<Packet> {
    if f == origin then [r.response] else PushesFor(r.pushes, f)
  }

  function Deliver(clients: map<int, Conn>, origin: int, r: Result): map<int, Conn> {
    map f | f in clients :: Enqueue(clients[f], SentTo(r, origin, f))
  }

  function PushedPackets(pushes: seq<Push>): seq<Packet> {
    if pushes == [] then [] else [pushes[0].packet] + PushedPackets(pushes[1..])
  }

  /** The user whose last session disappears when fd's session is overwritten. */
  function Abandoned(before: map<int, Bytes>, after: map<int, Bytes>, fd: int): seq<Bytes> {
    if fd in before && fd in after && !Online(after, before[fd]) then [before[fd]] else []
  }

  /** The user a descriptor is logged in as. */
  function HeldBy(sessions: map<int, Bytes>, fd: int): Option<Bytes> {
    if fd in sessions then Some(sessions[fd]) else None
  }

  /** Those whose last session was overwritten, without the one fd is logged in as now. */
  function Stale(stale: set<Bytes>, before: map<int, Bytes>, after: map<int, Bytes>, fd: int): set<Bytes> {
    stale + (set x | x in Abandoned(before, after, fd)) - (if fd in after then {after[fd]} else {})
  }

  function Note(log: Log, before: Data, o: Outcome, fd: int): Log {
    Log(log.pushed + PushedPackets(o.result.pushes),
        log.dropped + Abandoned(before.sessions, o.data.sessions, fd),
        Stale(log.stale, before.sessions, o.data.sessions, fd),
        log.signIns)
  }

  function SignIns(q: Packet, held: Option<Bytes>, r: Result): seq<SignIn> {
    if q.code == CMD_LOGIN then [SignIn(Trim(q.payload), Extract(r.response.payload, 0, 36), held)] else []
  }

  // ---------------------------------------------------------------- elementary steps

  function Open(s: Sys, fd: int): Sys {
    s.(clients := s.clients[fd := NEW_CONN])
  }

  function Receive(s: Sys, fd: int, chunk: Bytes): Sys
    requires fd in s.clients
  {
    var c := s.clients[fd];
    s.(clients := s.clients[fd := c.(recv := c.recv + chunk, past := c.past.(read := c.past.read + chunk))])
  }

  /** Takes the first frame off the receive buffer. */
  function Pop(s: Sys, fd: int): (r: Sys)
    requires fd in s.clients && FrameReady(s.clients[fd].recv)
    ensures r.clients.Keys == s.clients.Keys
    ensures |r.clients[fd].recv| < |s.clients[fd].recv|
  {
    var c := s.clients[fd];
    s.(clients := s.clients[fd := c.(recv := c.recv[FrameSize(c.recv)..])])
  }

  function FirstFrame(s: Sys, fd: int): Packet
    requires fd in s.clients && FrameReady(s.clients[fd].recv)
  {
    var b := s.clients[fd].recv;
    Packet(HeaderCode(b), b[HEADER_SIZE..FrameSize(b)])
  }

  function Dispatch(w: World, s: Sys, fd: int, q: Packet): (r: Sys)
    requires fd in s.clients
    ensures r.clients.Keys == s.clients.Keys
    ensures r.clients[fd].recv == s.clients[fd].recv
  {
    var o := Handle(s.data, fd, q, w.id(s.ticks), w.clock(s.ticks));
    var c := s.clients[fd];
    var noted := s.clients[fd := c.(past := c.past.(requests := c.past.requests + [q]))];
    var log := Note(s.log, s.data, o, fd);
    var signIns := log.signIns + SignIns(q, HeldBy(s.data.sessions, fd), o.result);
    Sys(o.data, Deliver(noted, fd, o.result), s.ticks + 1, log.(signIns := signIns))
  }

  /** Pops the first complete frame and dispatches it. */
  function Serve(w: World, s: Sys, fd: int): (r: Sys)
    requires fd in s.clients && FrameReady(s.clients[fd].recv)
    ensures r.clients.Keys == s.clients.Keys
    ensures |r.clients[fd].recv| < |s.clients[fd].recv|
  {
    Dispatch(w, Pop(s, fd), fd, FirstFrame(s, fd))
  }

  /** _handle_client_disconnect */
  function Disconnect(s: Sys, fd: int): Sys
    requires fd in s.clients
  {
    if fd in s.data.sessions then
      var o := Logout(s.data, fd);
      Sys(o.data, Deliver(s.clients, fd, o.result) - {fd}, s.ticks, Note(s.log, s.data, o, fd))
    else
      s.(clients := s.clients - {fd})
  }

  function Flush(s: Sys, fd: int, n: nat): Sys
    requires fd in s.clients && n <= |s.clients[fd].send|
  {
    var c := s.clients[fd];
    s.(clients := s.clients[fd := c.(send := c.send[n..], past := c.past.(written := c.past.written + c.send[..n]))])
  }

  // ---------------------------------------------------------------- the poll loop's steps

  /** _process_recv_buffer */
  function Process(w: World, s: Sys, fd: int): Sys
    requires fd in s.clients
    decreases |s.clients[fd].recv|
  {
    var b := s.clients[fd].recv;
    if Oversize(b) then Disconnect(s, fd)
    else if FrameReady(b) then Process(w, Serve(w, s, fd), fd)
    else s
  }

  /** One ready descriptor, or a new one. Steps that cannot happen change nothing. */
  datatype Step =
    | Accept(fd: int)
    | Read(fd: int, chunk: Bytes)
    | Write(fd: int, n: nat)
    | Hangup(fd: int)

  function Next(w: World, s: Sys, step: Step): Sys {
    match step
    case Accept(fd) => if fd in s.clients then s else Open(s, fd)
    case Read(fd, chunk) => if fd in s.clients then Process(w, Receive(s, fd, chunk), fd) else s
    case Write(fd, n) => if fd in s.clients && n <= |s.clients[fd].send| then Flush(s, fd, n) else s
    case Hangup(fd) => if fd in s.clients then Disconnect(s, fd) else s
  }

  /** The state after any run of steps. */
  function Run(w: World, steps: seq<Step>): Sys {
    if steps == [] then START else Next(w, Run(w, steps[..|steps| - 1]), steps[|steps| - 1])
  }

  // ---------------------------------------------------------------- the same runs, one request at a time

  datatype Move =
    | Opens(fd: int)
    | Receives(fd: int, chunk: Bytes)
    | Serves(fd: int)
    | Drops(fd: int)
    | Flushes(fd: int, n: nat)

  function Moved(w: World, s: Sys, m: Move): Sys {
    match m
    case Opens(fd) => if fd in s.clients then s else Open(s, fd)
    case Receives(fd, chunk) => if fd in s.clients then Receive(s, fd, chunk) else s
    case Serves(fd) => if fd in s.clients && FrameReady(s.clients[fd].recv) then Serve(w, s, fd) else s
    case Drops(fd) => if fd in s.clients then Disconnect(s, fd) else s
    case Flushes(fd, n) => if fd in s.clients && n <= |s.clients[fd].send| then Flush(s, fd, n) else s
  }

  function Moves(w: World, ms: seq<Move>): Sys {
    if ms == [] then START else Moved(w, Moves(w, ms[..|ms| - 1]), ms[|ms| - 1])
  }

  lemma {:induction false} MovesSnoc(w: World, ms: seq<Move>, m: Move)
    ensures Moves(w, ms + [m]) == Moved(w, Moves(w, ms), m)
  {
    assert (ms + [m])[..|ms|] == ms;
  }

  lemma {:induction false} ProcessIsMoves(w: World, ms: seq<Move>, fd: int) returns (ns: seq<Move>)
    requires fd in Moves(w, ms).clients
    ensures Moves(w, ns) == Process(w, Moves(w, ms), fd)
    decreases |Moves(w, ms).clients[fd].recv|
  {
    var s := Moves(w, ms);
    var b := s.clients[fd].recv;
    if Oversize(b) {
      MovesSnoc(w, ms, Drops(fd));
      ns := ms + [Drops(fd)];
    } else if FrameReady(b) {
      MovesSnoc(w, ms, Serves(fd));
      ns := ProcessIsMoves(w, ms + [Serves(fd)], fd);
    } else {
      ns := ms;
    }
  }

  /** Every run of poll-loop steps is a run of moves, so what all moves keep holds after every run. */
  lemma {:induction false} RunIsMoves(w: World, steps: seq<Step>) returns (ms: seq<Move>)
    ensures Moves(w, ms) == Run(w, steps)
  {
    if steps == [] {
      ms := [];
    } else {
      ms := RunIsMoves(w, steps[..|steps| - 1]);
      var s := Moves(w, ms);
      match steps[|steps| - 1] {
        case Accept(fd) =>
          MovesSnoc(w, ms, Opens(fd));
          ms := ms + [Opens(fd)];
        case Read(fd, chunk) =>
          if fd in s.clients {
            MovesSnoc(w, ms, Receives(fd, chunk));
            ms := ProcessIsMoves(w, ms + [Receives(fd, chunk)], fd);
          }
        case Write(fd, n) =>
          MovesSnoc(w, ms, Flushes(fd, n));
          ms := ms + [Flushes(fd, n)];
        case Hangup(fd) =>
          MovesSnoc(w, ms, Drops(fd));
          ms := ms + [Drops(fd)];
      }
    }
  }
}
