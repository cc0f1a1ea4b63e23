/** The server's connection handling, in place: buffers, dispatch and queues. Each method is one step of System. */
module Server {
  import opened Octets
  import opened Words
  import opened Protocol
  import opened ServerData
  import opened Handlers
  import opened System
  import opened Invariants
  import opened Soundness
  import opened Reachable
  import opened Framing
  import opened Connections
  import opened Presence
  import opened Store
  import opened Business

  // ---------------------------------------------------------------- queueing, one packet at a time

  lemma {:induction false} OneMessage(p: Packet)
    ensures Messages([p]) == Message(p)
  {
    assert Messages([p]) == Message(p) + Messages([p][1..]);
  }

  lemma {:induction false} EnqueueTwice(c: Conn, ps: seq<Packet>, qs: seq<Packet>)
    ensures Enqueue(Enqueue(c, ps), qs) == Enqueue(c, ps + qs)
  {
    MessagesAppend(ps, qs);
    Associate(c.send, Messages(ps), Messages(qs));
    Associate(c.past.queued, ps, qs);
  }

  lemma {:induction false} EnqueueNothing(c: Conn)
    ensures Enqueue(c, []) == c
  {
    assert c.send + [] == c.send;
    assert c.past.queued + [] == c.past.queued;
  }

  lemma {:induction false} CopiesAppend(a: seq<int>, b: seq<int>, f: int, p: Packet)
    ensures Copies(a + b, f, p) == Copies(a, f, p) + Copies(b, f, p)
  {
    if a == [] {
      assert a + b == b;
    } else {
      assert (a + b)[1..] == a[1..] + b;
      CopiesAppend(a[1..], b, f, p);
      Associate(if a[0] == f then [p] else [], Copies(a[1..], f, p), Copies(b, f, p));
    }
  }

  lemma {:induction false} PushesAppend(a: seq<Push>, b: seq<Push>, f: int)
    ensures PushesFor(a + b, f) == PushesFor(a, f) + PushesFor(b, f)
  {
    if a == [] {
      assert a + b == b;
    } else {
      assert (a + b)[1..] == a[1..] + b;
      PushesAppend(a[1..], b, f);
      Associate(Copies(a[0].fds, f, a[0].packet), PushesFor(a[1..], f), PushesFor(b, f));
    }
  }

  /** What f's queue has gained after the first n pushes and m targets of the next one. */
  function Gained(pushes: seq<Push>, n: nat, m: nat, origin: int, f: int): seq<Packet>
    requires n <= |pushes| && (n < |pushes| ==> m <= |pushes[n].fds|) && (n == |pushes| ==> m == 0)
  {
    if f == origin then []
    else PushesFor(pushes[..n], f) + if n < |pushes| then Copies(pushes[n].fds[..m], f, pushes[n].packet) else []
  }

  lemma {:induction false} GainedTarget(pushes: seq<Push>, n: nat, m: nat, origin: int, f: int)
    requires n < |pushes| && m < |pushes[n].fds|
    ensures Gained(pushes, n, m + 1, origin, f)
         == Gained(pushes, n, m, origin, f)
          + if f != origin && f == pushes[n].fds[m] then [pushes[n].packet] else []
  {
    var fds, p := pushes[n].fds, pushes[n].packet;
    CopiesAppend(fds[..m], [fds[m]], f, p);
    assert fds[..m + 1] == fds[..m] + [fds[m]];
    assert Copies([fds[m]], f, p) == (if fds[m] == f then [p] else []) + Copies([fds[m]][1..], f, p);
    Associate(PushesFor(pushes[..n], f), Copies(fds[..m], f, p), Copies([fds[m]], f, p));
  }

  lemma {:induction false} GainedPush(pushes: seq<Push>, n: nat, origin: int, f: int)
    requires n < |pushes|
    ensures Gained(pushes, n + 1, 0, origin, f) == Gained(pushes, n, |pushes[n].fds|, origin, f)
  {
    var x := pushes[n];
    PushesAppend(pushes[..n], [x], f);
    assert pushes[..n + 1] == pushes[..n] + [x];
    assert PushesFor([x], f) == Copies(x.fds, f, x.packet) + PushesFor([x][1..], f);
    assert x.fds[..|x.fds|] == x.fds;
    if n + 1 < |pushes| { assert pushes[n + 1].fds[..0] == []; }
  }

  /** Every queue after some pushes. */
  ghost predicate Queued(before: map<int, Conn>, now: map<int, Conn>, pushes: seq<Push>, n: nat, m: nat, origin: int)
    requires n <= |pushes| && (n < |pushes| ==> m <= |pushes[n].fds|) && (n == |pushes| ==> m == 0)
  {
    now.Keys == before.Keys && forall f | f in before :: now[f] == Enqueue(before[f], Gained(pushes, n, m, origin, f))
  }

  lemma {:induction false} QueuedNone(before: map<int, Conn>, pushes: seq<Push>, origin: int)
    ensures Queued(before, before, pushes, 0, 0, origin)
  {
    forall f | f in before ensures before[f] == Enqueue(before[f], Gained(pushes, 0, 0, origin, f)) {
      EnqueueNothing(before[f]);
      assert pushes[..0] == [];
      if pushes != [] { assert pushes[0].fds[..0] == []; }
    }
  }

  lemma {:induction false} TargetGains(c: Conn, pushes: seq<Push>, n: nat, m: nat, origin: int, f: int)
    requires n < |pushes| && m < |pushes[n].fds|
    ensures var (t, now) := (pushes[n].fds[m], Enqueue(c, Gained(pushes, n, m, origin, f)));
            Enqueue(c, Gained(pushes, n, m + 1, origin, f))
              == if f != origin && f == t then Enqueue(now, [pushes[n].packet]) else now
  {
    var gained := Gained(pushes, n, m, origin, f);
    GainedTarget(pushes, n, m, origin, f);
    EnqueueTwice(c, gained, [pushes[n].packet]);
    assert gained + [] == gained;
  }

  lemma {:induction false} QueuedTarget(before: map<int, Conn>, a: map<int, Conn>, b: map<int, Conn>,
                                        pushes: seq<Push>, n: nat, m: nat, origin: int)
    requires n < |pushes| && m < |pushes[n].fds| && Queued(before, a, pushes, n, m, origin)
    requires var (t, p) := (pushes[n].fds[m], pushes[n].packet);
             b == if t != origin && t in a then a[t := Enqueue(a[t], [p])] else a
    ensures Queued(before, b, pushes, n, m + 1, origin)
  {
    forall f | f in before ensures b[f] == Enqueue(before[f], Gained(pushes, n, m + 1, origin, f)) {
      TargetGains(before[f], pushes, n, m, origin, f);
    }
  }

  lemma {:induction false} QueuedPush(before: map<int, Conn>, a: map<int, Conn>, pushes: seq<Push>, n: nat, origin: int)
    requires n < |pushes| && Queued(before, a, pushes, n, |pushes[n].fds|, origin)
    ensures Queued(before, a, pushes, n + 1, 0, origin)
  {
    forall f | f in before ensures a[f] == Enqueue(before[f], Gained(pushes, n + 1, 0, origin, f)) {
      GainedPush(pushes, n, origin, f);
    }
  }

  /** After the response and all pushes every queue is as delivered. */
  lemma {:induction false} QueuedAll(before: map<int, Conn>, replied: map<int, Conn>, now: map<int, Conn>,
                                     origin: int, r: Result)
    requires replied == if origin in before then before[origin := Enqueue(before[origin], [r.response])] else before
    requires Queued(replied, now, r.pushes, |r.pushes|, 0, origin)
    ensures now == Deliver(before, origin, r)
  {
    assert r.pushes[..|r.pushes|] == r.pushes;
    forall f | f in before ensures now[f] == Enqueue(before[f], SentTo(r, origin, f)) {
      if f == origin {
        EnqueueNothing(replied[f]);
      } else {
        assert PushesFor(r.pushes, f) + [] == PushesFor(r.pushes, f);
      }
    }
  }

  /** A disconnection delivers the pushes alone; nobody sees the response. */
  lemma {:induction false} QueuedWithoutReply(before: map<int, Conn>, now: map<int, Conn>, origin: int, r: Result)
    requires Queued(before, now, r.pushes, |r.pushes|, 0, origin)
    ensures now - {origin} == Deliver(before, origin, r) - {origin}
  {
    assert r.pushes[..|r.pushes|] == r.pushes;
    forall f | f in before && f != origin ensures now[f] == Enqueue(before[f], SentTo(r, origin, f)) {
      assert PushesFor(r.pushes, f) + [] == PushesFor(r.pushes, f);
    }
  }

  /** make_message */
  method MakeMessage(code: uint16, payload: Bytes) returns (out: Bytes)
    ensures out == Message(Packet(code, payload))
  {
    var sizeBe := Net32(|payload| % TWO32);
    out := Net16(code);
    out := out + sizeBe;
    out := out + payload;
  }

  lemma {:induction false} SessionIds(d: Data)
    requires SessionsOk(d)
    ensures forall fd | fd in d.sessions :: |d.sessions[fd]| == 36
  {
    forall fd | fd in d.sessions ensures |d.sessions[fd]| == 36 {
      var i := FirstOf(UserIds(d.users), d.sessions[fd]);
      assert UserIds(d.users)[i] == d.users[i].uuid;
    }
  }

  lemma {:induction false} RunSnoc(w: World, steps: seq<Step>, step: Step)
    ensures Run(w, steps + [step]) == Next(w, Run(w, steps), step)
  {
    assert (steps + [step])[..|steps|] == steps;
  }

  /** The history after a request. */
  function Noted(s: Sys, fd: int, q: Packet, o: Outcome): Log {
    var noted := Note(s.log, s.data, o, fd);
    noted.(signIns := noted.signIns + SignIns(q, HeldBy(s.data.sessions, fd), o.result))
  }

  /** Every request takes the next id and time. */
  lemma {:induction false} ProcessTicks(w: World, s: Sys, fd: int)
    requires fd in s.clients
    ensures s.ticks <= Process(w, s, fd).ticks
    decreases |s.clients[fd].recv|
  {
    var b := s.clients[fd].recv;
    if !Oversize(b) && FrameReady(b) { ProcessTicks(w, Serve(w, s, fd), fd); }
  }

  // ---------------------------------------------------------------- the server

  class Server {
    /** Stands for libuuid and the clock: what the request served at each tick gets from them. */
    const world: World
    const data: ServerStore
    const business: Business
    var clients: map<int, Conn>
    var ticks: nat
    ghost var log: Log
    /** The poll loop's steps so far. */
    ghost var steps: seq<Step>

    ghost function Model(): Sys
      reads this, data
    {
      Sys(data.Model(), clients, ticks, log)
    }

    ghost predicate Sound()
      reads this, data
    {
      business.data == data && WorldOk(world, ticks) && SysOk(world, Model())
    }

    /** The object is where the run of its steps leads, so that what holds after every run holds of it. */
    ghost predicate Valid()
      reads this, data
    {
      Sound() && Model() == Run(world, steps)
    }

    constructor (w: World)
      ensures Valid() && steps == [] && world == w && fresh(data)
    {
      var store := new ServerStore();
      var handlers := new Business(store);
      world, data, business := w, store, handlers;
      clients, ticks, log, steps := map[], 0, Log([], [], {}, []), [];
      new;
      assert Model() == START;
      MovesKeep(w, []);
    }

    /** _queue_bytes; the connection's history records the packet. */
    method QueueBytes(fd: int, p: Packet)
      modifies `clients
      ensures clients == if fd in old(clients) then old(clients)[fd := Enqueue(old(clients)[fd], [p])] else old(clients)
    {
      if fd !in clients { return; }
      var bytes := MakeMessage(p.code, p.payload);
      var c := clients[fd];
      OneMessage(p);
      clients := clients[fd := c.(send := c.send + bytes, past := c.past.(queued := c.past.queued + [p]))];
    }

    /** The two loops that _send_result and _handle_client_disconnect share. */
    method QueuePushes(origin: int, pushes: seq<Push>)
      modifies `clients
      ensures Queued(old(clients), clients, pushes, |pushes|, 0, origin)
    {
      ghost var before := clients;
      QueuedNone(before, pushes, origin);
      for n := 0 to |pushes|
        invariant Queued(before, clients, pushes, n, 0, origin)
      {
        var push := pushes[n];
        for m := 0 to |push.fds|
          invariant Queued(before, clients, pushes, n, m, origin)
        {
          ghost var was := clients;
          var target := push.fds[m];
          if target != origin { QueueBytes(target, push.packet); }
          QueuedTarget(before, was, clients, pushes, n, m, origin);
        }
        QueuedPush(before, clients, pushes, n, origin);
      }
    }

    method SendResult(fd: int, r: Result)
      modifies `clients
      ensures clients == Deliver(old(clients), fd, r)
    {
      QueueBytes(fd, r.response);
      ghost var replied := clients;
      QueuePushes(fd, r.pushes);
      QueuedAll(old(clients), replied, clients, fd, r);
    }

    /** The switch of _dispatch: one handler call, or a bare refusal. */
    method Route(fd: int, q: Packet, id: Uuid, now: Image) returns (r: Result)
      requires business.data == data && SessionsOk(data.Model())
      modifies data
      ensures Outcome(data.Model(), r) == Handle(old(data.Model()), fd, q, id, now)
    {
      var p := q.payload;
      SessionIds(data.Model());
      if fd !in data.sessions && q.code != CMD_LOGIN { r := Fail(ERR_UNAUTHORIZED); }
      else if q.code == CMD_LOGIN { r := business.HandleLogin(fd, p, id); }
      else if q.code == CMD_LOGOUT { r := business.HandleLogout(fd); }
      else if q.code == CMD_USERS { r := business.HandleUsers(fd); }
      else if q.code == CMD_USER { r := business.HandleUser(fd, Extract(p, 0, 36)); }
      else if q.code == CMD_SEND { r := business.HandleSend(fd, Extract(p, 0, 36), Extract(p, 36, 512), now); }
      else if q.code == CMD_MESSAGES { r := business.HandleMessages(fd, Extract(p, 0, 36)); }
      else if q.code == CMD_SUBSCRIBE { r := business.HandleSubscribe(fd, Extract(p, 0, 36)); }
      else if q.code == CMD_SUBSCRIBED {
        if p != [] && p[0] == 1 { r := business.HandleSubscribedUsers(fd, Extract(p, 1, 36)); }
        else { r := business.HandleSubscribedTeams(fd); }
      }
      else if q.code == CMD_UNSUBSCRIBE { r := business.HandleUnsubscribe(fd, Extract(p, 0, 36)); }
      else if q.code == CMD_USE { r := business.HandleUse(fd, p); }
      else if q.code == CMD_CREATE { r := business.HandleCreate(fd, p, id, now); }
      else if q.code == CMD_LIST { r := business.HandleList(fd); }
      else if q.code == CMD_INFO { r := business.HandleInfo(fd); }
      else { r := Fail(ERR_INVALID_COMMAND); }
    }

    /** _dispatch, with the history of requests, events and logins kept beside it. */
    method Dispatch(fd: int, q: Packet)
      requires Sound() && fd in clients && WorldOk(world, ticks + 1)
      modifies this, data
      ensures Sound() && Model() == System.Dispatch(world, old(Model()), fd, q)
    {
      DispatchKeeps(world, Model(), fd, q);
      ghost var was := Model();
      var r := Route(fd, q, world.id(ticks), world.clock(ticks));
      ghost var o := Outcome(data.Model(), r);
      var c := clients[fd];
      clients := clients[fd := c.(past := c.past.(requests := c.past.requests + [q]))];
      SendResult(fd, r);
      ticks := ticks + 1;
      log := Noted(was, fd, q, o);
      assert Model() == System.Dispatch(world, was, fd, q);
    }

    /** _handle_client_disconnect */
    method Disconnect(fd: int)
      requires Sound() && fd in clients
      modifies this, data
      ensures Sound() && Model() == System.Disconnect(old(Model()), fd)
    {
      DisconnectKeeps(world, Model(), fd);
      if fd in data.sessions {
        SessionIds(data.Model());
        ghost var before := data.Model();
        var r := business.HandleLogout(fd);
        ghost var was := clients;
        QueuePushes(fd, r.pushes);
        QueuedWithoutReply(was, clients, fd, r);
        log := Note(log, before, Outcome(data.Model(), r), fd);
      }
      clients := clients - {fd};
    }

    /** Takes the first frame off the receive buffer and dispatches it. */
    method ServeFrame(fd: int)
      requires Sound() && fd in clients && FrameReady(clients[fd].recv) && WorldOk(world, ticks + 1)
      modifies this, data
      ensures Sound() && Model() == Serve(world, old(Model()), fd)
    {
      var c := clients[fd];
      var end := (HEADER_SIZE + HeaderSize(c.recv)) % TWO32;
      var q := Packet(HeaderCode(c.recv), c.recv[HEADER_SIZE..end]);
      clients := clients[fd := c.(recv := c.recv[end..])];
      assert Model() == Pop(old(Model()), fd);
      Dispatch(fd, q);
    }

    /** _process_recv_buffer: the loop that pops and dispatches complete frames. */
    method ProcessRecvBuffer(fd: int)
      requires Sound() && fd in clients && WorldOk(world, Process(world, Model(), fd).ticks)
      modifies this, data
      ensures Sound() && Model() == Process(world, old(Model()), fd)
    {
      while |clients[fd].recv| >= HEADER_SIZE
        invariant Sound() && fd in clients
        invariant Process(world, Model(), fd) == Process(world, old(Model()), fd)
        decreases |clients[fd].recv|
      {
        var payloadSize := HeaderSize(clients[fd].recv);
        if payloadSize > MAX_PAYLOAD {
          Disconnect(fd);
          return;
        }
        if |clients[fd].recv| < (HEADER_SIZE + payloadSize) % TWO32 { break; }
        ProcessTicks(world, Serve(world, Model(), fd), fd);
        ServeFrame(fd);
      }
    }

    /** _handle_new_connection, for a descriptor that accept just made. */
    method HandleNewConnection(fd: int)
      requires Valid() && fd !in clients
      modifies `clients, `steps
      ensures Valid() && steps == old(steps) + [Accept(fd)]
    {
      RunSnoc(world, steps, Accept(fd));
      clients := clients[fd := NEW_CONN];
      steps := steps + [Accept(fd)];
    }

    /** _handle_client_read, with what read returned: some bytes, or none. */
    method HandleClientRead(fd: int, got: Option<Bytes>)
      requires Valid() && fd in clients
      requires got.Some? ==> WorldOk(world, Next(world, Model(), Read(fd, got.value)).ticks)
      modifies this, data
      ensures Valid() && steps == old(steps) + [if got.Some? then Read(fd, got.value) else Hangup(fd)]
    {
      ghost var before := steps;
      ghost var step := if got.Some? then Read(fd, got.value) else Hangup(fd);
      RunSnoc(world, steps, step);
      if got.None? {
        Disconnect(fd);
      } else {
        var c := clients[fd];
        clients := clients[fd := c.(recv := c.recv + got.value, past := c.past.(read := c.past.read + got.value))];
        assert Model() == Receive(old(Model()), fd, got.value);
        ProcessRecvBuffer(fd);
      }
      steps := before + [step];
    }

    /** _handle_client_write, with what write returned. */
    method HandleClientWrite(fd: int, n: int)
      requires Valid() && fd in clients && n <= |clients[fd].send|
      modifies this, data
      ensures Valid()
      ensures steps == if old(clients)[fd].send == [] then old(steps)
                       else old(steps) + [if n < 0 then Hangup(fd) else Write(fd, n)]
    {
      var c := clients[fd];
      if c.send == [] { return; }
      ghost var before := steps;
      ghost var step := if n < 0 then Hangup(fd) else Write(fd, n);
      RunSnoc(world, steps, step);
      if n < 0 {
        Disconnect(fd);
      } else {
        clients := clients[fd := c.(send := c.send[n..], past := c.past.(written := c.past.written + c.send[..n]))];
      }
      steps := before + [step];
    }

    /** The poll loop's own hang-up, on POLLERR, POLLHUP or POLLNVAL. */
    method HandleHangup(fd: int)
      requires Valid() && fd in clients
      modifies this, data
      ensures Valid() && steps == old(steps) + [Hangup(fd)]
    {
      ghost var before := steps;
      RunSnoc(world, steps, Hangup(fd));
      Disconnect(fd);
      steps := before + [Hangup(fd)];
    }

    /** What the theorems about runs say of the running server. */
    lemma Promises()
      requires Valid()
      ensures SysOk(world, Model()) && ConnsOk(Model()) && Idle(Model())
      ensures forall u :: Balance(log, u) == Bit(Online(data.sessions, u)) + Times(log.dropped, u)
    {
      RunKeepsConns(world, steps);
      forall u ensures Balance(log, u) == Bit(Online(data.sessions, u)) + Times(log.dropped, u) {
        PresenceLaw(world, steps, u);
      }
    }
  }
}
