/** Who hears of a login, a logout and a lost connection, and what tells nobody. */
module Announcements {
  import opened Octets
  import opened Words
  import opened Protocol
  import opened Records
  import opened ServerData
  import opened Handlers
  import opened System
  import opened Invariants
  import opened Soundness
  import opened Reachable
  import opened Connections
  import opened Conversations

  /** The packet of a login, logout or creation, if there is one to send to f. */
  function Told(send: bool, event: Packet, fds: seq<int>, f: int): seq<Packet> {
    if send && f in fds then [event] else []
  }

  lemma {:induction false} OnePushOrNone(send: bool, event: Packet, fds: seq<int>, f: int)
    requires NoDuplicates(fds)
    ensures PushesFor(if send then [Push(event, fds)] else [], f) == Told(send, event, fds, f)
  {
    if send { OnePush(Push(event, fds), f); }
  }

  lemma {:induction false} LoginPushes(d: Data, fd: int, text: Bytes, id: Uuid, f: int)
    requires UsersOk(d.users) && id !in UserIds(d.users) && 0 !in id
    ensures var (users, i) := Enrol(d.users, Trim(text), id);
            var o := Login(d, fd, text, id);
            PushesFor(o.result.pushes, f)
              == if !Online(d.sessions, users[i].uuid) && f in o.data.sessions
                 then [Packet(EVT_USER_LOGGED_IN, o.result.response.payload)] else []
  {
    var (users, i) := Enrol(d.users, Trim(text), id);
    var o := Login(d, fd, text, id);
    EnrolKeeps(d.users, Trim(text), id);
    TrimNulFree(users[i].uuid);
    SessionFdsOnce(o.data.sessions);
    OnePushOrNone(!Online(d.sessions, users[i].uuid), Packet(EVT_USER_LOGGED_IN, o.result.response.payload),
                  SessionFds(o.data.sessions), f);
  }

  /**
   * A login is announced exactly if its user had no session yet: once to every other session, with the payload
   * of the reply, and to nobody else.
   */
  lemma {:induction false} LoginReaches(w: World, s: Sys, fd: int, q: Packet)
    requires WorldOk(w, s.ticks + 1) && SysOk(w, s) && fd in s.clients && q.code == CMD_LOGIN
    ensures var t := Dispatch(w, s, fd, q);
            var reply := Handle(s.data, fd, q, w.id(s.ticks), w.clock(s.ticks)).result.response;
            && fd in t.data.sessions
            && forall f | f in s.clients ::
                 t.clients[f].past.queued == s.clients[f].past.queued +
                   if f == fd then [reply]
                   else if !Online(s.data.sessions, t.data.sessions[fd]) && f in s.data.sessions
                   then [Packet(EVT_USER_LOGGED_IN, reply.payload)]
                   else []
  {
    var d, id := s.data, w.id(s.ticks);
    NextIdIsFresh(w, s);
    Routes(d, fd, q, id, w.clock(s.ticks));
    var (users, i) := Enrol(d.users, Trim(q.payload), id);
    var o := Login(d, fd, q.payload, id);
    EnrolKeeps(d.users, Trim(q.payload), id);
    TrimNulFree(users[i].uuid);
    forall f | f in s.clients && f != fd
      ensures PushesFor(o.result.pushes, f)
           == if !Online(d.sessions, o.data.sessions[fd]) && f in d.sessions
              then [Packet(EVT_USER_LOGGED_IN, o.result.response.payload)] else []
    {
      LoginPushes(d, fd, q.payload, id, f);
    }
  }

  lemma {:induction false} LogoutPushes(d: Data, fd: int, f: int)
    requires fd in d.sessions && f != fd
    ensures PushesFor(Logout(d, fd).result.pushes, f)
         == if !Online(d.sessions - {fd}, d.sessions[fd]) && f in d.sessions
            then [Packet(EVT_USER_LOGGED_OUT, Encode(Account(d.users, d.sessions[fd])))] else []
  {
    var sessions := d.sessions - {fd};
    var fds := SessionFds(sessions);
    SessionFdsOnce(sessions);
    DistinctSnoc(fds, fd);
    assert f in fds + [fd] <==> f in d.sessions;
    OnePushOrNone(!Online(sessions, d.sessions[fd]),
                  Packet(EVT_USER_LOGGED_OUT, Encode(Account(d.users, d.sessions[fd]))), fds + [fd], f);
  }

  /** What f hears when fd's session ends. */
  function Farewell(d: Data, fd: int, f: int): seq<Packet> {
    if fd in d.sessions && f in d.sessions && !Online(d.sessions - {fd}, d.sessions[fd])
    then [Packet(EVT_USER_LOGGED_OUT, Encode(Account(d.users, d.sessions[fd])))]
    else []
  }

  /**
   * A logout is announced exactly if it ends its user's last session: once to every other session, and to nobody
   * else.
   */
  lemma {:induction false} LogoutReaches(w: World, s: Sys, fd: int, q: Packet)
    requires fd in s.clients && fd in s.data.sessions && q.code == CMD_LOGOUT
    ensures var t := Dispatch(w, s, fd, q);
            && fd !in t.data.sessions
            && forall f | f in s.clients ::
                 t.clients[f].past.queued == s.clients[f].past.queued +
                   if f == fd then [Packet(RES_LOGOUT_OK, Encode(Account(s.data.users, s.data.sessions[fd])))]
                   else Farewell(s.data, fd, f)
  {
    Routes(s.data, fd, q, w.id(s.ticks), w.clock(s.ticks));
    forall f | f in s.clients && f != fd
      ensures PushesFor(Logout(s.data, fd).result.pushes, f) == Farewell(s.data, fd, f)
    {
      LogoutPushes(s.data, fd, f);
    }
  }

  /** A lost connection is announced like a logout, and leaves every other connection's received bytes alone. */
  lemma {:induction false} DisconnectReaches(s: Sys, fd: int)
    requires fd in s.clients
    ensures var t := Disconnect(s, fd);
            && t.clients.Keys == s.clients.Keys - {fd}
            && fd !in t.data.sessions
            && forall f | f in t.clients ::
                 && t.clients[f].past.queued == s.clients[f].past.queued + Farewell(s.data, fd, f)
                 && t.clients[f].recv == s.clients[f].recv && t.clients[f].past.requests == s.clients[f].past.requests
  {
    if fd in s.data.sessions {
      forall f | f in s.clients && f != fd
        ensures PushesFor(Logout(s.data, fd).result.pushes, f) == Farewell(s.data, fd, f)
      {
        LogoutPushes(s.data, fd, f);
      }
    } else {
      assert forall f | f in s.clients :: s.clients[f].past.queued + [] == s.clients[f].past.queued;
    }
  }

  /** Every other request is answered to its sender alone. */
  lemma {:induction false} OthersTellNobody(w: World, s: Sys, fd: int, q: Packet)
    requires fd in s.clients && q.code != CMD_LOGIN && q.code != CMD_LOGOUT
    requires q.code != CMD_SEND && q.code != CMD_CREATE
    ensures var t := Dispatch(w, s, fd, q);
            forall f | f in s.clients ::
              t.clients[f].past.queued == s.clients[f].past.queued +
                if f == fd then [Handle(s.data, fd, q, w.id(s.ticks), w.clock(s.ticks)).result.response] else []
  {
    var d, p := s.data, q.payload;
    var o := Handle(d, fd, q, w.id(s.ticks), w.clock(s.ticks));
    assert o.result.pushes == [] by {
      if fd in d.sessions && (q.code == CMD_USE || q.code == CMD_SUBSCRIBE || q.code == CMD_UNSUBSCRIBE) {
        Routes(d, fd, q, w.id(s.ticks), w.clock(s.ticks));
        if q.code == CMD_USE { assert o == Use(d, fd, p); }
        else if q.code == CMD_SUBSCRIBE { assert o == Subscribe(d, fd, Extract(p, 0, 36)); }
        else { assert o == Unsubscribe(d, fd, Extract(p, 0, 36)); }
      } else {
        ReadersQuiet(d, fd, q, w.id(s.ticks), w.clock(s.ticks));
      }
    }
  }
}
