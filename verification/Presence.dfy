/** Presence: how the LOGGED_IN and LOGGED_OUT events add up over whole runs. */
module Presence {
  import opened Octets
  import opened Words
  import opened Protocol
  import opened Records
  import opened ServerData
  import opened Handlers
  import opened System
  import opened Invariants
  import opened Soundness
  import opened Reachable

  predicate Names(p: Packet, code: uint16, u: Bytes) {
    p.code == code && 36 <= |p.payload| && p.payload[..36] == u
  }

  /** How many of the pushed packets carry this code for user u. */
  function Count(ps: seq<Packet>, code: uint16, u: Bytes): nat {
    if ps == [] then 0 else
      Count(ps[..|ps| - 1], code, u) + if Names(ps[|ps| - 1], code, u) then 1 else 0
  }

  function Times(xs: seq<Bytes>, u: Bytes): nat {
    if xs == [] then 0 else Times(xs[..|xs| - 1], u) + if xs[|xs| - 1] == u then 1 else 0
  }

  /** LOGGED_IN minus LOGGED_OUT pushes for u. */
  function Balance(log: Log, u: Bytes): int {
    Count(log.pushed, EVT_USER_LOGGED_IN, u) - Count(log.pushed, EVT_USER_LOGGED_OUT, u)
  }

  function Bit(b: bool): int { if b then 1 else 0 }

  /** Each push raises or lowers the balance; each overwritten last session leaves it one too high. */
  ghost predicate Balanced(s: Sys, u: Bytes) {
    Balance(s.log, u) == Bit(Online(s.data.sessions, u)) + Times(s.log.dropped, u)
  }

  /** is_logged says that a session exists, or that the last one was overwritten and no login came since. */
  ghost predicate Marked(users: seq<User>, sessions: map<int, Bytes>, stale: set<Bytes>, u: Bytes) {
    && (u in stale ==> !Online(sessions, u))
    && forall i | 0 <= i < |users| && users[i].uuid == u :: users[i].isLogged <==> Online(sessions, u) || u in stale
  }

  ghost predicate MarkedIn(s: Sys, u: Bytes) {
    Marked(s.data.users, s.data.sessions, s.log.stale, u) && (u in s.log.stale ==> u in s.log.dropped)
  }

  lemma {:induction false} CountAppend(ps: seq<Packet>, qs: seq<Packet>, code: uint16, u: Bytes)
    ensures Count(ps + qs, code, u) == Count(ps, code, u) + Count(qs, code, u)
  {
    if qs == [] {
      assert ps + qs == ps;
    } else {
      var n := |qs| - 1;
      CountAppend(ps, qs[..n], code, u);
      assert (ps + qs)[..|ps + qs| - 1] == ps + qs[..n];
    }
  }

  lemma {:induction false} TimesSnoc(xs: seq<Bytes>, x: Bytes, u: Bytes)
    ensures Times(xs + [x], u) == Times(xs, u) + Bit(x == u)
  {
    assert (xs + [x])[..|xs|] == xs;
  }

  /** The change of the balance that one result's pushes make. */
  function Shift(pushes: seq<Push>, u: Bytes): int {
    Count(PushedPackets(pushes), EVT_USER_LOGGED_IN, u) - Count(PushedPackets(pushes), EVT_USER_LOGGED_OUT, u)
  }

  lemma {:induction false} ShiftOne(event: Packet, fds: seq<int>, u: Bytes)
    ensures Shift([], u) == 0
    ensures Shift([Push(event, fds)], u)
         == Bit(Names(event, EVT_USER_LOGGED_IN, u)) - Bit(Names(event, EVT_USER_LOGGED_OUT, u))
  {
    assert PushedPackets([Push(event, fds)]) == [event];
    assert [event][..0] == [];
  }

  lemma {:induction false} NoteShifts(pushed: seq<Packet>, pushes: seq<Push>, u: Bytes, a: Log, b: Log)
    requires a.pushed == pushed && b.pushed == pushed + PushedPackets(pushes)
    ensures Balance(b, u) == Balance(a, u) + Shift(pushes, u)
  {
    CountAppend(pushed, PushedPackets(pushes), EVT_USER_LOGGED_IN, u);
    CountAppend(pushed, PushedPackets(pushes), EVT_USER_LOGGED_OUT, u);
  }

  lemma {:induction false} NoteDrops(dropped: seq<Bytes>, before: map<int, Bytes>, after: map<int, Bytes>, fd: int,
                                     u: Bytes)
    ensures Times(dropped + Abandoned(before, after, fd), u)
         == Times(dropped, u) + Bit(fd in before && fd in after && before[fd] == u && !Online(after, u))
  {
    var a := Abandoned(before, after, fd);
    if a == [] { assert dropped + a == dropped; } else { TimesSnoc(dropped, a[0], u); }
  }

  lemma {:induction false} AccountNames(x: User, code: uint16, event: uint16, u: Bytes)
    ensures Names(Packet(event, Encode(AccountRow(x))), code, u) <==> event == code && x.uuid == u
  {
    var tail: Row := [Str(x.name)];
    assert AccountRow(x)[1..] == tail;
    assert Encode(AccountRow(x)) == x.uuid + Encode(tail);
    assert (x.uuid + Encode(tail))[..36] == x.uuid;
  }

  // ---------------------------------------------------------------- one session gained or lost

  lemma {:induction false} OnlineAfterLogin(before: map<int, Bytes>, fd: int, v: Bytes, u: Bytes)
    ensures Online(before[fd := v], u) <==>
              u == v || exists f :: f in before && f != fd && before[f] == u
  {
    var after := before[fd := v];
    if u == v { assert after[fd] == u; }
    if f :| f in before && f != fd && before[f] == u { assert after[f] == u; }
  }

  /** A login adds up: events, sessions and overwritten sessions together. */
  lemma {:induction false} LoginShift(before: map<int, Bytes>, fd: int, v: Bytes, u: Bytes)
    ensures Bit(!Online(before, v) && u == v)
         == Bit(Online(before[fd := v], u)) - Bit(Online(before, u))
          + Bit(fd in before && before[fd] == u && !Online(before[fd := v], u))
  {
    OnlineAfterLogin(before, fd, v, u);
    if Online(before, u) {
      var f :| f in before && before[f] == u;
      if f == fd {
        assert before[fd] == u;
      }
    }
  }

  lemma {:induction false} LogoutShift(before: map<int, Bytes>, fd: int, u: Bytes)
    requires fd in before
    ensures -Bit(!Online(before - {fd}, before[fd]) && u == before[fd])
         == Bit(Online(before - {fd}, u)) - Bit(Online(before, u))
  {
    var after := before - {fd};
    if Online(before, u) && u != before[fd] {
      var f :| f in before && before[f] == u;
      assert f in after && after[f] == u;
    }
    if Online(after, u) {
      var f :| f in after && after[f] == u;
      assert f in before && before[f] == u;
    }
    assert Online(before, before[fd]);
  }

  lemma {:induction false} LoginBalances(d: Data, fd: int, text: Bytes, id: Uuid, u: Bytes)
    requires UsersOk(d.users) && id !in UserIds(d.users) && 0 !in id
    ensures var o := Login(d, fd, text, id);
            Shift(o.result.pushes, u) == Bit(Online(o.data.sessions, u)) - Bit(Online(d.sessions, u))
                                       + Bit(fd in d.sessions && d.sessions[fd] == u && !Online(o.data.sessions, u))
  {
    var (users, i) := Enrol(d.users, Trim(text), id);
    EnrolKeeps(d.users, Trim(text), id);
    TrimNulFree(users[i].uuid);
    AccountNames(users[i], EVT_USER_LOGGED_IN, EVT_USER_LOGGED_IN, u);
    AccountNames(users[i], EVT_USER_LOGGED_OUT, EVT_USER_LOGGED_IN, u);
    LoginShift(d.sessions, fd, users[i].uuid, u);
    var o := Login(d, fd, text, id);
    ShiftOne(Packet(EVT_USER_LOGGED_IN, Encode(AccountRow(users[i]))), SessionFds(o.data.sessions), u);
  }

  lemma {:induction false} LogoutBalances(d: Data, fd: int, u: Bytes)
    requires SessionsOk(d) && fd in d.sessions
    ensures var o := Logout(d, fd);
            Shift(o.result.pushes, u) == Bit(Online(o.data.sessions, u)) - Bit(Online(d.sessions, u))
  {
    var i := FirstOf(UserIds(d.users), d.sessions[fd]);
    assert i < |d.users| && d.users[i].uuid == d.sessions[fd];
    AccountNames(d.users[i], EVT_USER_LOGGED_OUT, EVT_USER_LOGGED_OUT, u);
    AccountNames(d.users[i], EVT_USER_LOGGED_IN, EVT_USER_LOGGED_OUT, u);
    LogoutShift(d.sessions, fd, u);
    var o := Logout(d, fd);
    ShiftOne(Packet(EVT_USER_LOGGED_OUT, Encode(AccountRow(d.users[i]))), SessionFds(o.data.sessions) + [fd], u);
  }

  lemma {:induction false} CreateInSilent(d: Data, c: Context, place: Place, p: Bytes, creator: Uuid, id: Uuid,
                                          now: Image, u: Bytes)
    requires place == Locate(d.teams, c) && (place.AtTeam? || place.AtChannel? || place.AtThread?)
    requires CreateSize(c.level) <= |p|
    ensures Shift(CreateIn(d, c, place, p, creator, id, now).result.pushes, u) == 0
  {
    var o := CreateIn(d, c, place, p, creator, id, now);
    ShiftOne(o.result.pushes[0].packet, o.result.pushes[0].fds, u);
  }

  lemma {:induction false} CreateSilent(d: Data, fd: int, p: Bytes, id: Uuid, now: Image, u: Bytes)
    ensures Shift(Create(d, fd, p, id, now).result.pushes, u) == 0
  {
    if fd in d.sessions && fd in d.contexts {
      var c, user := d.contexts[fd], d.sessions[fd];
      var place := Locate(d.teams, c);
      if CreateSize(c.level) <= |p| && place.Resolved() {
        if place.AtRoot? {
          var o := CreateTeam(d, p, id, user);
          ShiftOne(o.result.pushes[0].packet, o.result.pushes[0].fds, u);
        } else {
          CreateInSilent(d, c, place, p, Fixed(user, 36), id, now, u);
        }
      }
    }
  }

  lemma {:induction false} SendSilent(d: Data, fd: int, x: Bytes, body: Bytes, now: Image, u: Bytes)
    ensures Shift(Send(d, fd, x, body, now).result.pushes, u) == 0
  {
    var o := Send(d, fd, x, body, now);
    if o.result.pushes != [] { ShiftOne(o.result.pushes[0].packet, o.result.pushes[0].fds, u); }
  }

  /** No other request touches a session or announces a login or logout. */
  lemma {:induction false} OthersSilent(d: Data, fd: int, q: Packet, id: Uuid, now: Image, u: Bytes)
    requires q.code != CMD_LOGIN
    requires fd !in d.sessions || q.code != CMD_LOGOUT
    ensures Handle(d, fd, q, id, now).data.sessions == d.sessions
    ensures Shift(Handle(d, fd, q, id, now).result.pushes, u) == 0
  {
    var p := q.payload;
    OthersKeepUsers(d, fd, q, id, now);
    if fd !in d.sessions {
      ReadersQuiet(d, fd, q, id, now);
    } else {
      Routes(d, fd, q, id, now);
      if q.code == CMD_SEND { SendSilent(d, fd, Extract(p, 0, 36), Extract(p, 36, 512), now, u); }
      else if q.code == CMD_SUBSCRIBE { assert Handle(d, fd, q, id, now) == Subscribe(d, fd, Extract(p, 0, 36)); }
      else if q.code == CMD_UNSUBSCRIBE { assert Handle(d, fd, q, id, now) == Unsubscribe(d, fd, Extract(p, 0, 36)); }
      else if q.code == CMD_USE { assert Handle(d, fd, q, id, now) == Use(d, fd, p); }
      else if q.code == CMD_CREATE { CreateSilent(d, fd, p, id, now, u); }
      else { ReadersQuiet(d, fd, q, id, now); }
    }
  }

  lemma {:induction false} HandleBalances(d: Data, fd: int, q: Packet, id: Uuid, now: Image, u: Bytes)
    requires UsersOk(d.users) && SessionsOk(d) && id !in UserIds(d.users) && 0 !in id
    ensures var o := Handle(d, fd, q, id, now);
            Shift(o.result.pushes, u) == Bit(Online(o.data.sessions, u)) - Bit(Online(d.sessions, u))
                                       + Bit(fd in d.sessions && fd in o.data.sessions && d.sessions[fd] == u
                                             && !Online(o.data.sessions, u))
  {
    if q.code == CMD_LOGIN {
      Routes(d, fd, q, id, now);
      LoginBalances(d, fd, q.payload, id, u);
    } else if q.code == CMD_LOGOUT && fd in d.sessions {
      Routes(d, fd, q, id, now);
      LogoutBalances(d, fd, u);
      assert fd !in Logout(d, fd).data.sessions;
    } else {
      OthersSilent(d, fd, q, id, now, u);
      if fd in d.sessions && d.sessions[fd] == u { assert Online(d.sessions, u); }
    }
  }

  // ---------------------------------------------------------------- is_logged

  lemma {:induction false} LoginSession(d: Data, fd: int, text: Bytes, id: Uuid)
    requires UsersOk(d.users) && id !in UserIds(d.users) && 0 !in id
    ensures var (users, i) := Enrol(d.users, Trim(text), id);
            Login(d, fd, text, id).data.sessions == d.sessions[fd := users[i].uuid]
  {
    var (users, i) := Enrol(d.users, Trim(text), id);
    EnrolKeeps(d.users, Trim(text), id);
    TrimNulFree(users[i].uuid);
  }

  /** A login on fd as v moves u into the overwritten ones, out of them, or leaves it where it is. */
  lemma {:induction false} StaleAfterLogin(stale: set<Bytes>, before: map<int, Bytes>, fd: int, v: Bytes, u: Bytes)
    requires u in stale ==> !Online(before, u)
    ensures var (after, now) := (before[fd := v], Stale(stale, before, before[fd := v], fd));
            && (u in now ==> !Online(after, u))
            && (u == v ==> Online(after, u))
            && (u != v ==> (Online(after, u) || u in now <==> Online(before, u) || u in stale))
  {
    OnlineAfterLogin(before, fd, v, u);
    if fd in before && before[fd] == u { assert Online(before, u); }
  }

  /** The user who logs in is marked; nobody else's mark changes. */
  lemma {:induction false} LoginMarks(d: Data, fd: int, text: Bytes, id: Uuid, i: nat)
    requires UsersOk(d.users) && id !in UserIds(d.users) && 0 !in id
    requires i < |Login(d, fd, text, id).data.users|
    ensures var (users, k) := Enrol(d.users, Trim(text), id);
            var x := Login(d, fd, text, id).data.users[i];
            if x.uuid == users[k].uuid then x.isLogged else i < |d.users| && x == d.users[i]
  {
    var (users, k) := Enrol(d.users, Trim(text), id);
    EnrolKeeps(d.users, Trim(text), id);
    if users[i].uuid == users[k].uuid { IdAt(users, i, k); }
  }

  lemma {:induction false} LoginMarked(d: Data, stale: set<Bytes>, fd: int, text: Bytes, id: Uuid, u: Bytes)
    requires UsersOk(d.users) && id !in UserIds(d.users) && 0 !in id && Marked(d.users, d.sessions, stale, u)
    ensures var e := Login(d, fd, text, id).data;
            Marked(e.users, e.sessions, Stale(stale, d.sessions, e.sessions, fd), u)
  {
    var (users, k) := Enrol(d.users, Trim(text), id);
    var e := Login(d, fd, text, id).data;
    LoginSession(d, fd, text, id);
    StaleAfterLogin(stale, d.sessions, fd, users[k].uuid, u);
    forall i | 0 <= i < |e.users| && e.users[i].uuid == u
      ensures e.users[i].isLogged <==> Online(e.sessions, u) || u in Stale(stale, d.sessions, e.sessions, fd)
    {
      LoginMarks(d, fd, text, id, i);
    }
  }

  /** The mark of the user who logs out says whether a session is left; nobody else's mark changes. */
  lemma {:induction false} LogoutMarks(d: Data, fd: int, i: nat)
    requires UsersOk(d.users) && SessionsOk(d) && fd in d.sessions && i < |Logout(d, fd).data.users|
    ensures i < |d.users| && Logout(d, fd).data.users[i].uuid == d.users[i].uuid
    ensures Logout(d, fd).data.users[i].isLogged
         == if d.users[i].uuid == d.sessions[fd] then Online(d.sessions - {fd}, d.sessions[fd]) else d.users[i].isLogged
  {
    var k := FirstOf(UserIds(d.users), d.sessions[fd]);
    assert UserIds(d.users)[k] == d.users[k].uuid;
    if d.users[i].uuid == d.sessions[fd] { IdAt(d.users, i, k); }
  }

  lemma {:induction false} LogoutMarked(d: Data, stale: set<Bytes>, fd: int, u: Bytes)
    requires UsersOk(d.users) && SessionsOk(d) && fd in d.sessions && Marked(d.users, d.sessions, stale, u)
    ensures var e := Logout(d, fd).data;
            Marked(e.users, e.sessions, Stale(stale, d.sessions, e.sessions, fd), u)
  {
    var e := Logout(d, fd).data;
    LogoutShift(d.sessions, fd, u);
    assert Online(d.sessions, d.sessions[fd]);
    assert Stale(stale, d.sessions, e.sessions, fd) == stale;
    forall i | 0 <= i < |e.users| && e.users[i].uuid == u
      ensures e.users[i].isLogged <==> Online(e.sessions, u) || u in stale
    {
      LogoutMarks(d, fd, i);
    }
  }

  /** A request other than a login abandons nobody. */
  lemma {:induction false} OthersAbandonNobody(d: Data, fd: int, q: Packet, id: Uuid, now: Image)
    requires q.code != CMD_LOGIN
    ensures Abandoned(d.sessions, Handle(d, fd, q, id, now).data.sessions, fd) == []
  {
    if fd in d.sessions && q.code == CMD_LOGOUT {
      Routes(d, fd, q, id, now);
    } else {
      OthersKeepUsers(d, fd, q, id, now);
      if fd in d.sessions { assert Online(d.sessions, d.sessions[fd]); }
    }
  }

  lemma {:induction false} OthersMarked(d: Data, stale: set<Bytes>, fd: int, u: Bytes)
    requires Marked(d.users, d.sessions, stale, u)
    ensures Marked(d.users, d.sessions, Stale(stale, d.sessions, d.sessions, fd), u)
  {
    if fd in d.sessions { assert Online(d.sessions, d.sessions[fd]); }
  }

  lemma {:induction false} HandleMarks(d: Data, stale: set<Bytes>, fd: int, q: Packet, id: Uuid, now: Image, u: Bytes)
    requires DataOk(d) && id !in UserIds(d.users) && 0 !in id && Marked(d.users, d.sessions, stale, u)
    ensures var e := Handle(d, fd, q, id, now).data;
            Marked(e.users, e.sessions, Stale(stale, d.sessions, e.sessions, fd), u)
  {
    if q.code == CMD_LOGIN {
      Routes(d, fd, q, id, now);
      LoginMarked(d, stale, fd, q.payload, id, u);
    } else if q.code == CMD_LOGOUT && fd in d.sessions {
      Routes(d, fd, q, id, now);
      LogoutMarked(d, stale, fd, u);
    } else {
      OthersKeepUsers(d, fd, q, id, now);
      OthersMarked(d, stale, fd, u);
    }
  }

  // ---------------------------------------------------------------- whole runs

  lemma {:induction false} DispatchBalances(w: World, s: Sys, fd: int, q: Packet, u: Bytes)
    requires WorldOk(w, s.ticks + 1) && SysOk(w, s) && fd in s.clients && Balanced(s, u) && MarkedIn(s, u)
    ensures Balanced(Dispatch(w, s, fd, q), u) && MarkedIn(Dispatch(w, s, fd, q), u)
  {
    NextIdIsFresh(w, s);
    var id, now := w.id(s.ticks), w.clock(s.ticks);
    var o := Handle(s.data, fd, q, id, now);
    HandleBalances(s.data, fd, q, id, now, u);
    HandleMarks(s.data, s.log.stale, fd, q, id, now, u);
    NoteShifts(s.log.pushed, o.result.pushes, u, s.log, Note(s.log, s.data, o, fd));
    NoteDrops(s.log.dropped, s.data.sessions, o.data.sessions, fd, u);
  }

  lemma {:induction false} DisconnectBalances(w: World, s: Sys, fd: int, u: Bytes)
    requires SysOk(w, s) && fd in s.clients && Balanced(s, u) && MarkedIn(s, u)
    ensures Balanced(Disconnect(s, fd), u) && MarkedIn(Disconnect(s, fd), u)
  {
    if fd in s.data.sessions {
      var o := Logout(s.data, fd);
      LogoutBalances(s.data, fd, u);
      LogoutMarked(s.data, s.log.stale, fd, u);
      NoteShifts(s.log.pushed, o.result.pushes, u, s.log, Note(s.log, s.data, o, fd));
      NoteDrops(s.log.dropped, s.data.sessions, o.data.sessions, fd, u);
    }
  }

  lemma {:induction false} MovedBalances(w: World, s: Sys, m: Move, u: Bytes)
    requires WorldOk(w, Moved(w, s, m).ticks) && SysOk(w, s) && Balanced(s, u) && MarkedIn(s, u)
    ensures Balanced(Moved(w, s, m), u) && MarkedIn(Moved(w, s, m), u)
  {
    match m
    case Serves(fd) =>
      if fd in s.clients && FrameReady(s.clients[fd].recv) {
        DispatchBalances(w, Pop(s, fd), fd, FirstFrame(s, fd), u);
      }
    case Drops(fd) => if fd in s.clients { DisconnectBalances(w, s, fd, u); }
    case _ =>
  }

  lemma {:induction false} MovesBalance(w: World, ms: seq<Move>, u: Bytes)
    requires WorldOk(w, Moves(w, ms).ticks)
    ensures Balanced(Moves(w, ms), u) && MarkedIn(Moves(w, ms), u)
  {
    if ms != [] {
      var before := ms[..|ms| - 1];
      MovesBalance(w, before, u);
      MovesKeep(w, before);
      MovedBalances(w, Moves(w, before), ms[|ms| - 1], u);
    }
  }

  /**
   * On every run and for every user: LOGGED_IN pushes minus LOGGED_OUT pushes is 1 if some session maps to
   * the user and 0 otherwise, plus one for every time a login on the same descriptor overwrote the user's
   * last session. So events and sessions agree exactly when that never happened. is_logged agrees with the
   * sessions exactly when it never happened or the user has logged in since.
   */
  lemma {:induction false} PresenceLaw(w: World, steps: seq<Step>, u: Bytes)
    requires WorldOk(w, Run(w, steps).ticks)
    ensures var s := Run(w, steps);
            && Balance(s.log, u) == Bit(Online(s.data.sessions, u)) + Times(s.log.dropped, u)
            && (Balance(s.log, u) == Bit(Online(s.data.sessions, u)) <==> u !in s.log.dropped)
            && (u in s.log.stale ==> u in s.log.dropped && !Online(s.data.sessions, u))
            && forall i | 0 <= i < |s.data.users| && s.data.users[i].uuid == u ::
                 && (s.data.users[i].isLogged <==> Online(s.data.sessions, u) || u in s.log.stale)
                 && ((s.data.users[i].isLogged <==> Online(s.data.sessions, u)) <==> u !in s.log.stale)
  {
    var ms := RunIsMoves(w, steps);
    MovesBalance(w, ms, u);
    TimesZero(Run(w, steps).log.dropped, u);
  }

  lemma {:induction false} TimesZero(xs: seq<Bytes>, u: Bytes)
    ensures Times(xs, u) == 0 <==> u !in xs
  {
    if xs != [] {
      TimesZero(xs[..|xs| - 1], u);
      assert xs == xs[..|xs| - 1] + [xs[|xs| - 1]];
    }
  }

  /**
   * The login that breaks the balance of u, seen before it is served: it arrives on a descriptor whose
   * session is u's only one, under a name that stands for somebody else.
   */
  lemma {:induction false} WhenAbandoned(d: Data, fd: int, text: Bytes, id: Uuid, u: Bytes)
    requires DataOk(d) && id !in UserIds(d.users) && 0 !in id
    ensures var (users, i) := Enrol(d.users, Trim(text), id);
            u in Abandoned(d.sessions, Login(d, fd, text, id).data.sessions, fd) <==>
              && fd in d.sessions && d.sessions[fd] == u && users[i].uuid != u
              && forall f | f in d.sessions && f != fd :: d.sessions[f] != u
  {
    var (users, i) := Enrol(d.users, Trim(text), id);
    LoginSession(d, fd, text, id);
    OverwrittenBy(d.sessions, fd, users[i].uuid, u);
  }

  lemma {:induction false} OverwrittenBy(before: map<int, Bytes>, fd: int, v: Bytes, u: Bytes)
    ensures u in Abandoned(before, before[fd := v], fd) <==>
              && fd in before && before[fd] == u && v != u
              && forall f | f in before && f != fd :: before[f] != u
  {
    OnlineAfterLogin(before, fd, v, u);
  }

  // ---------------------------------------------------------------- when nobody is dropped

  /** Whether a login under this text, on fd, would leave the user whose session fd holds without any. */
  predicate Overwrites(d: Data, fd: int, text: Bytes, id: Uuid) {
    var (users, i) := Enrol(d.users, Trim(text), id);
    && fd in d.sessions && d.sessions[fd] != users[i].uuid
    && forall f | f in d.sessions && f != fd :: d.sessions[f] != d.sessions[fd]
  }

  /** The same about a move: it serves such a login. */
  predicate Displaces(w: World, s: Sys, m: Move) {
    && m.Serves? && m.fd in s.clients && FrameReady(s.clients[m.fd].recv)
    && FirstFrame(s, m.fd).code == CMD_LOGIN
    && Overwrites(s.data, m.fd, FirstFrame(s, m.fd).payload, w.id(s.ticks))
  }

  lemma {:induction false} LoginAbandons(d: Data, fd: int, text: Bytes, id: Uuid)
    requires DataOk(d) && id !in UserIds(d.users) && 0 !in id
    ensures Abandoned(d.sessions, Login(d, fd, text, id).data.sessions, fd) == []
       <==> !Overwrites(d, fd, text, id)
  {
    if fd in d.sessions { WhenAbandoned(d, fd, text, id, d.sessions[fd]); }
  }

  lemma {:induction false} MovedDrops(w: World, s: Sys, m: Move)
    requires WorldOk(w, Moved(w, s, m).ticks) && SysOk(w, s)
    ensures s.log.dropped <= Moved(w, s, m).log.dropped
    ensures Moved(w, s, m).log.dropped == s.log.dropped <==> !Displaces(w, s, m)
  {
    match m
    case Serves(fd) =>
      if fd in s.clients && FrameReady(s.clients[fd].recv) {
        var q, id, now := FirstFrame(s, fd), w.id(s.ticks), w.clock(s.ticks);
        NextIdIsFresh(w, s);
        if q.code == CMD_LOGIN {
          Routes(s.data, fd, q, id, now);
          LoginAbandons(s.data, fd, q.payload, id);
        } else {
          OthersAbandonNobody(s.data, fd, q, id, now);
        }
      }
    case _ =>
  }

  /** None of the moves serves such a login. */
  predicate NoneDisplaced(w: World, ms: seq<Move>) {
    ms == []
    || (NoneDisplaced(w, ms[..|ms| - 1]) && !Displaces(w, Moves(w, ms[..|ms| - 1]), ms[|ms| - 1]))
  }

  /** Over any run of moves: nobody is ever dropped exactly if no move serves such a login. */
  lemma {:induction false} WhenNobodyIsDropped(w: World, ms: seq<Move>)
    requires WorldOk(w, Moves(w, ms).ticks)
    ensures Moves(w, ms).log.dropped == [] <==> NoneDisplaced(w, ms)
  {
    if ms != [] {
      var n := |ms| - 1;
      WhenNobodyIsDropped(w, ms[..n]);
      MovesKeep(w, ms[..n]);
      MovedDrops(w, Moves(w, ms[..n]), ms[n]);
    }
  }

  /** Every login so far was on a free descriptor, or by the user whose session it held. */
  ghost predicate Steady(log: Log) {
    forall i | 0 <= i < |log.signIns| :: log.signIns[i].held.None? || log.signIns[i].held.value == log.signIns[i].uuid
  }

  lemma {:induction false} SteadySnoc(log: Log, more: Log, e: SignIn)
    requires more.signIns == log.signIns + [e]
    ensures Steady(more) <==> Steady(log) && (e.held.None? || e.held.value == e.uuid)
  {
    assert forall i | 0 <= i < |log.signIns| :: more.signIns[i] == log.signIns[i];
    assert more.signIns[|log.signIns|] == e;
  }

  lemma {:induction false} ReplyNames(d: Data, fd: int, text: Bytes, id: Uuid)
    requires DataOk(d) && id !in UserIds(d.users) && 0 !in id
    ensures var o := Login(d, fd, text, id);
            fd in o.data.sessions && Extract(o.result.response.payload, 0, 36) == o.data.sessions[fd]
  {
    var (users, i) := Enrol(d.users, Trim(text), id);
    LoginSession(d, fd, text, id);
    AccountNames(users[i], RES_LOGIN_OK, RES_LOGIN_OK, users[i].uuid);
  }

  lemma {:induction false} SteadyLogin(w: World, s: Sys, fd: int, q: Packet)
    requires WorldOk(w, s.ticks + 1) && SysOk(w, s) && fd in s.clients && q.code == CMD_LOGIN
    requires Steady(Dispatch(w, s, fd, q).log)
    ensures Steady(s.log) && Dispatch(w, s, fd, q).log.dropped == s.log.dropped
  {
    var d, id := s.data, w.id(s.ticks);
    NextIdIsFresh(w, s);
    Routes(d, fd, q, id, w.clock(s.ticks));
    var o := Login(d, fd, q.payload, id);
    ReplyNames(d, fd, q.payload, id);
    SteadySnoc(s.log, Dispatch(w, s, fd, q).log,
               SignIn(Trim(q.payload), Extract(o.result.response.payload, 0, 36), HeldBy(d.sessions, fd)));
    assert o.data.sessions[fd] == o.data.sessions[fd];
  }

  lemma {:induction false} SteadyMove(w: World, s: Sys, m: Move)
    requires WorldOk(w, Moved(w, s, m).ticks) && SysOk(w, s) && Steady(Moved(w, s, m).log)
    ensures Steady(s.log) && Moved(w, s, m).log.dropped == s.log.dropped
  {
    match m
    case Serves(fd) =>
      if fd in s.clients && FrameReady(s.clients[fd].recv) {
        var q := FirstFrame(s, fd);
        if q.code == CMD_LOGIN {
          SteadyLogin(w, Pop(s, fd), fd, q);
        } else {
          OthersAbandonNobody(s.data, fd, q, w.id(s.ticks), w.clock(s.ticks));
          assert s.log.signIns + [] == s.log.signIns;
        }
      }
    case _ =>
  }

  lemma {:induction false} SteadyMoves(w: World, ms: seq<Move>)
    requires WorldOk(w, Moves(w, ms).ticks) && Steady(Moves(w, ms).log)
    ensures Moves(w, ms).log.dropped == []
  {
    if ms != [] {
      MovesKeep(w, ms[..|ms| - 1]);
      SteadyMove(w, Moves(w, ms[..|ms| - 1]), ms[|ms| - 1]);
      SteadyMoves(w, ms[..|ms| - 1]);
    }
  }

  /**
   * On runs where no descriptor that holds a session logs in as another user, nobody is dropped: the balance of
   * every user is 1 if some session maps to it and 0 otherwise, and is_logged says the same.
   */
  lemma {:induction false} SteadyRunsBalance(w: World, steps: seq<Step>, u: Bytes)
    requires WorldOk(w, Run(w, steps).ticks) && Steady(Run(w, steps).log)
    ensures var s := Run(w, steps);
            && s.log.dropped == [] && Balance(s.log, u) == Bit(Online(s.data.sessions, u))
            && forall i | 0 <= i < |s.data.users| && s.data.users[i].uuid == u ::
                 s.data.users[i].isLogged <==> Online(s.data.sessions, u)
  {
    var ms := RunIsMoves(w, steps);
    SteadyMoves(w, ms);
    PresenceLaw(w, steps, u);
  }
}
