/** Presence as one logged-in connection sees it: the events in its own queue. */
module Watching {
  import opened Octets
  import opened Words
  import opened Protocol
  import opened Records
  import opened ServerData
  import opened Handlers
  import opened System
  import opened Invariants
  import opened Soundness
  import opened Reachable
  import opened Connections
  import opened Announcements
  import opened Presence

  /** LOGGED_IN minus LOGGED_OUT packets for u among some packets. */
  function Seen(ps: seq<Packet>, u: Bytes): int {
    Count(ps, EVT_USER_LOGGED_IN, u) - Count(ps, EVT_USER_LOGGED_OUT, u)
  }

  lemma {:induction false} SeenAppend(ps: seq<Packet>, qs: seq<Packet>, u: Bytes)
    ensures Seen(ps + qs, u) == Seen(ps, u) + Seen(qs, u)
  {
    CountAppend(ps, qs, EVT_USER_LOGGED_IN, u);
    CountAppend(ps, qs, EVT_USER_LOGGED_OUT, u);
  }

  /** Not a presence event. */
  predicate Plain(p: Packet) { p.code != EVT_USER_LOGGED_IN && p.code != EVT_USER_LOGGED_OUT }

  lemma {:induction false} PlainUnseen(ps: seq<Packet>, u: Bytes)
    requires forall p | p in ps :: Plain(p)
    ensures Seen(ps, u) == 0
  {
    if ps != [] {
      assert ps[|ps| - 1] in ps;
      assert forall p | p in ps[..|ps| - 1] :: p in ps;
      PlainUnseen(ps[..|ps| - 1], u);
    }
  }

  lemma {:induction false} PlainPushes(pushes: seq<Push>, f: int)
    requires forall i | 0 <= i < |pushes| :: Plain(pushes[i].packet)
    ensures forall p | p in PushesFor(pushes, f) :: Plain(p)
  {
    if pushes != [] {
      CopiesAre(pushes[0].fds, f, pushes[0].packet);
      PlainPushes(pushes[1..], f);
    }
  }

  /** A push that reaches f puts into its queue what the server's history counts. */
  lemma {:induction false} PushSeen(event: Packet, fds: seq<int>, f: int, u: Bytes)
    requires NoDuplicates(fds) && f in fds
    ensures Seen(PushesFor([Push(event, fds)], f), u) == Shift([Push(event, fds)], u)
  {
    OnePush(Push(event, fds), f);
    assert PushedPackets([Push(event, fds)]) == [event];
  }

  lemma {:induction false} NoPushSeen(f: int, u: Bytes)
    ensures Seen(PushesFor([], f), u) == Shift([], u)
  {
  }

  // ---------------------------------------------------------------- one request of somebody else

  lemma {:induction false} LoginSeen(d: Data, fd: int, text: Bytes, id: Uuid, f: int, u: Bytes)
    requires f in d.sessions && f != fd
    ensures Seen(PushesFor(Login(d, fd, text, id).result.pushes, f), u)
        == Shift(Login(d, fd, text, id).result.pushes, u)
  {
    var o := Login(d, fd, text, id);
    if o.result.pushes == [] {
      NoPushSeen(f, u);
    } else {
      SessionFdsOnce(o.data.sessions);
      PushSeen(o.result.pushes[0].packet, SessionFds(o.data.sessions), f, u);
    }
  }

  lemma {:induction false} LogoutSeen(d: Data, fd: int, f: int, u: Bytes)
    requires fd in d.sessions && f in d.sessions && f != fd
    ensures Seen(PushesFor(Logout(d, fd).result.pushes, f), u) == Shift(Logout(d, fd).result.pushes, u)
  {
    var o := Logout(d, fd);
    if o.result.pushes == [] {
      NoPushSeen(f, u);
    } else {
      var fds := SessionFds(o.data.sessions);
      SessionFdsOnce(o.data.sessions);
      DistinctSnoc(fds, fd);
      assert f in fds;
      PushSeen(o.result.pushes[0].packet, fds + [fd], f, u);
    }
  }

  lemma {:induction false} CreateInPlain(d: Data, c: Context, place: Place, p: Bytes, creator: Uuid, id: Uuid,
                                         now: Image)
    requires place == Locate(d.teams, c) && (place.AtTeam? || place.AtChannel? || place.AtThread?)
    requires CreateSize(c.level) <= |p|
    ensures var pushes := CreateIn(d, c, place, p, creator, id, now).result.pushes;
            forall i | 0 <= i < |pushes| :: Plain(pushes[i].packet)
  {
  }

  lemma {:induction false} CreatePlain(d: Data, fd: int, p: Bytes, id: Uuid, now: Image)
    ensures var pushes := Create(d, fd, p, id, now).result.pushes;
            forall i | 0 <= i < |pushes| :: Plain(pushes[i].packet)
  {
    if fd in d.sessions && fd in d.contexts {
      var c := d.contexts[fd];
      var place := Locate(d.teams, c);
      if CreateSize(c.level) <= |p| && place.Resolved() && !place.AtRoot? {
        CreateInPlain(d, c, place, p, Fixed(d.sessions[fd], 36), id, now);
      }
    }
  }

  lemma {:induction false} OthersPlain(d: Data, fd: int, q: Packet, id: Uuid, now: Image)
    requires q.code != CMD_LOGIN && (fd !in d.sessions || q.code != CMD_LOGOUT)
    ensures var pushes := Handle(d, fd, q, id, now).result.pushes;
            forall i | 0 <= i < |pushes| :: Plain(pushes[i].packet)
  {
    var p := q.payload;
    if fd !in d.sessions {
      ReadersQuiet(d, fd, q, id, now);
    } else {
      Routes(d, fd, q, id, now);
      if q.code == CMD_SEND {
        assert Handle(d, fd, q, id, now) == Send(d, fd, Extract(p, 0, 36), Extract(p, 36, 512), now);
      } else if q.code == CMD_SUBSCRIBE { assert Handle(d, fd, q, id, now) == Subscribe(d, fd, Extract(p, 0, 36)); }
      else if q.code == CMD_UNSUBSCRIBE { assert Handle(d, fd, q, id, now) == Unsubscribe(d, fd, Extract(p, 0, 36)); }
      else if q.code == CMD_USE { assert Handle(d, fd, q, id, now) == Use(d, fd, p); }
      else if q.code == CMD_CREATE { CreatePlain(d, fd, p, id, now); }
      else { ReadersQuiet(d, fd, q, id, now); }
    }
  }

  /** Somebody else's request changes what f has seen exactly as it changes the server's own count. */
  lemma {:induction false} HandleSeen(d: Data, fd: int, q: Packet, id: Uuid, now: Image, f: int, u: Bytes)
    requires f in d.sessions && f != fd
    ensures var pushes := Handle(d, fd, q, id, now).result.pushes;
            Seen(PushesFor(pushes, f), u) == Shift(pushes, u)
  {
    if q.code == CMD_LOGIN {
      Routes(d, fd, q, id, now);
      LoginSeen(d, fd, q.payload, id, f, u);
    } else if fd in d.sessions && q.code == CMD_LOGOUT {
      Routes(d, fd, q, id, now);
      LogoutSeen(d, fd, f, u);
    } else {
      var pushes := Handle(d, fd, q, id, now).result.pushes;
      OthersPlain(d, fd, q, id, now);
      OthersSilent(d, fd, q, id, now, u);
      PlainPushes(pushes, f);
      PlainUnseen(PushesFor(pushes, f), u);
    }
  }

  // ---------------------------------------------------------------- while f stays logged in

  /** f's own login, logout or end of connection. */
  predicate Own(s: Sys, m: Move, f: int) {
    || m == Drops(f)
    || (m == Serves(f) && f in s.clients && FrameReady(s.clients[f].recv)
        && (FirstFrame(s, f).code == CMD_LOGIN || FirstFrame(s, f).code == CMD_LOGOUT))
  }

  /** What a queue shows of u, less what the sessions and the overwritten sessions of u account for. */
  function Excess(queue: seq<Packet>, sessions: map<int, Bytes>, dropped: seq<Bytes>, u: Bytes): int {
    Seen(queue, u) - Bit(Online(sessions, u)) - Times(dropped, u)
  }

  function Surplus(s: Sys, f: int, u: Bytes): int
    requires f in s.clients
  {
    Excess(s.clients[f].past.queued, s.data.sessions, s.log.dropped, u)
  }

  lemma {:induction false} OthersExcess(d: Data, g: int, q: Packet, id: Uuid, now: Image,
                                        queue: seq<Packet>, dropped: seq<Bytes>, f: int, u: Bytes)
    requires DataOk(d) && id !in UserIds(d.users) && 0 !in id && f in d.sessions && f != g
    ensures var o := Handle(d, g, q, id, now);
            Excess(queue + PushesFor(o.result.pushes, f), o.data.sessions,
                   dropped + Abandoned(d.sessions, o.data.sessions, g), u)
              == Excess(queue, d.sessions, dropped, u)
  {
    var o := Handle(d, g, q, id, now);
    HandleBalances(d, g, q, id, now, u);
    HandleSeen(d, g, q, id, now, f, u);
    SeenAppend(queue, PushesFor(o.result.pushes, f), u);
    NoteDrops(dropped, d.sessions, o.data.sessions, g, u);
  }

  lemma {:induction false} SessionKept(d: Data, g: int, q: Packet, id: Uuid, now: Image, f: int)
    requires DataOk(d) && id !in UserIds(d.users) && 0 !in id && f in d.sessions && f != g
    ensures f in Handle(d, g, q, id, now).data.sessions
  {
    HandleEffect(d, g, q, id, now);
    var e := Handle(d, g, q, id, now).data;
    assert f in d.sessions - {g};
    assert f in e.sessions - {g};
  }

  /** The parts of a state that Surplus looks at, after a request. */
  lemma {:induction false} DispatchParts(w: World, s: Sys, g: int, q: Packet, f: int)
    requires g in s.clients && f in s.clients
    ensures var (o, t) := (Handle(s.data, g, q, w.id(s.ticks), w.clock(s.ticks)), Dispatch(w, s, g, q));
            && t.data == o.data
            && t.log.dropped == s.log.dropped + Abandoned(s.data.sessions, o.data.sessions, g)
            && t.clients[f].past.queued == s.clients[f].past.queued + SentTo(o.result, g, f)
  {
  }

  lemma {:induction false} OthersRequestSeen(w: World, s: Sys, g: int, q: Packet, f: int, u: Bytes)
    requires WorldOk(w, s.ticks + 1) && SysOk(w, s) && g in s.clients && f in s.data.sessions && f != g
    ensures f in s.clients && f in Dispatch(w, s, g, q).data.sessions
    ensures Surplus(Dispatch(w, s, g, q), f, u) == Surplus(s, f, u)
  {
    var id, now := w.id(s.ticks), w.clock(s.ticks);
    NextIdIsFresh(w, s);
    SessionKept(s.data, g, q, id, now, f);
    DispatchParts(w, s, g, q, f);
    OthersExcess(s.data, g, q, id, now, s.clients[f].past.queued, s.log.dropped, f, u);
  }

  lemma {:induction false} OwnRequestSeen(w: World, s: Sys, f: int, q: Packet, u: Bytes)
    requires WorldOk(w, s.ticks + 1) && SysOk(w, s) && f in s.data.sessions
    requires q.code != CMD_LOGIN && q.code != CMD_LOGOUT
    ensures f in s.clients && f in Dispatch(w, s, f, q).data.sessions
    ensures Surplus(Dispatch(w, s, f, q), f, u) == Surplus(s, f, u)
  {
    var d, id, now := s.data, w.id(s.ticks), w.clock(s.ticks);
    var r := Handle(d, f, q, id, now).result.response;
    HandleOk(d, f, q, id, now);
    OthersKeepUsers(d, f, q, id, now);
    OthersAbandonNobody(d, f, q, id, now);
    DispatchParts(w, s, f, q, f);
    assert s.log.dropped + [] == s.log.dropped;
    PlainUnseen([r], u);
    SeenAppend(s.clients[f].past.queued, [r], u);
  }

  lemma {:induction false} DropExcess(d: Data, g: int, queue: seq<Packet>, dropped: seq<Bytes>, f: int, u: Bytes)
    requires SessionsOk(d) && g in d.sessions && f in d.sessions && f != g
    ensures var o := Logout(d, g);
            Excess(queue + PushesFor(o.result.pushes, f), o.data.sessions, dropped, u)
                == Excess(queue, d.sessions, dropped, u)
  {
    LogoutBalances(d, g, u);
    LogoutSeen(d, g, f, u);
    SeenAppend(queue, PushesFor(Logout(d, g).result.pushes, f), u);
  }

  lemma {:induction false} DropParts(s: Sys, g: int, f: int)
    requires g in s.clients && g in s.data.sessions && f in s.clients && f != g
    ensures var (o, t) := (Logout(s.data, g), Disconnect(s, g));
            && t.data == o.data && t.log.dropped == s.log.dropped && f in t.clients
            && t.clients[f].past.queued == s.clients[f].past.queued + PushesFor(o.result.pushes, f)
  {
    assert s.log.dropped + [] == s.log.dropped;
  }

  lemma {:induction false} DropSeen(w: World, s: Sys, g: int, f: int, u: Bytes)
    requires SysOk(w, s) && g in s.clients && f in s.data.sessions && f != g
    ensures f in s.clients && f in Disconnect(s, g).clients && f in Disconnect(s, g).data.sessions
    ensures Surplus(Disconnect(s, g), f, u) == Surplus(s, f, u)
  {
    if g in s.data.sessions {
      DropParts(s, g, f);
      DropExcess(s.data, g, s.clients[f].past.queued, s.log.dropped, f, u);
    }
  }

  lemma {:induction false} ServeSeen(w: World, s: Sys, g: int, f: int, u: Bytes)
    requires WorldOk(w, s.ticks + 1) && SysOk(w, s) && f in s.data.sessions && !Own(s, Serves(g), f)
    requires g in s.clients && FrameReady(s.clients[g].recv)
    ensures f in s.clients && f in Serve(w, s, g).clients && f in Serve(w, s, g).data.sessions
    ensures Surplus(Serve(w, s, g), f, u) == Surplus(s, f, u)
  {
    var p, q := Pop(s, g), FirstFrame(s, g);
    assert f in s.clients && p.clients[f].past == s.clients[f].past;
    assert Surplus(p, f, u) == Surplus(s, f, u);
    if g == f { OwnRequestSeen(w, p, f, q, u); } else { OthersRequestSeen(w, p, g, q, f, u); }
  }

  lemma {:induction false} MoveSeen(w: World, s: Sys, m: Move, f: int, u: Bytes)
    requires WorldOk(w, Moved(w, s, m).ticks) && SysOk(w, s) && f in s.data.sessions && !Own(s, m, f)
    ensures f in s.clients && f in Moved(w, s, m).clients && f in Moved(w, s, m).data.sessions
    ensures Surplus(Moved(w, s, m), f, u) == Surplus(s, f, u)
  {
    match m
    case Serves(g) => if g in s.clients && FrameReady(s.clients[g].recv) { ServeSeen(w, s, g, f, u); }
    case Drops(g) => if g in s.clients { DropSeen(w, s, g, f, u); }
    case _ =>
  }

  /** After ms, f holds a session and keeps it through the moves that follow. */
  ghost predicate Stays(w: World, ms: seq<Move>, more: seq<Move>, f: int) {
    if more == [] then f in Moves(w, ms).data.sessions
    else
      var n := |more| - 1;
      Stays(w, ms, more[..n], f) && !Own(Moves(w, ms + more[..n]), more[n], f)
  }

  /**
   * As long as a descriptor stays logged in, LOGGED_IN minus LOGGED_OUT events for u in its queue change exactly
   * as much as whether u has a session, plus one for every time u's last session is overwritten meanwhile.
   */
  lemma {:induction false} WatcherSees(w: World, ms: seq<Move>, more: seq<Move>, f: int, u: Bytes)
    requires WorldOk(w, Moves(w, ms + more).ticks) && Stays(w, ms, more, f)
    ensures f in Moves(w, ms).clients && f in Moves(w, ms + more).clients
    ensures f in Moves(w, ms + more).data.sessions
    ensures var (s, t) := (Moves(w, ms), Moves(w, ms + more));
            Seen(t.clients[f].past.queued, u) - Seen(s.clients[f].past.queued, u)
              == Bit(Online(t.data.sessions, u)) - Bit(Online(s.data.sessions, u))
               + Times(t.log.dropped, u) - Times(s.log.dropped, u)
  {
    if more == [] {
      assert ms + more == ms;
      MovesKeep(w, ms);
    } else {
      var n := |more| - 1;
      var before := ms + more[..n];
      assert (ms + more)[..|ms + more| - 1] == before;
      assert (ms + more)[|ms + more| - 1] == more[n];
      WatcherSees(w, ms, more[..n], f, u);
      MovesKeep(w, before);
      MoveSeen(w, Moves(w, before), more[n], f, u);
    }
  }
}
