/** One request at a time: what it may answer, what it may push, and what it leaves alone. */
module Soundness {
  import opened Octets
  import opened Words
  import opened Protocol
  import opened Records
  import opened ServerData
  import opened Handlers
  import opened Invariants

  predicate Within(code: uint16, lo: uint16, hi: uint16) { lo <= code <= hi }

  /**
   * The replies each request can draw in a reachable state. CMD_CREATE, CMD_LIST and CMD_INFO never draw
   * an ERR_UNKNOWN_*, CMD_LIST and CMD_INFO never draw ERR_INVALID_COMMAND.
   */
  predicate Answers(request: uint16, reply: uint16) {
    || (reply == ERR_UNAUTHORIZED && request != CMD_LOGIN)
    || (if request == CMD_LOGIN then reply == RES_LOGIN_OK
        else if request == CMD_LOGOUT then reply == RES_LOGOUT_OK
        else if request == CMD_USERS then reply == RES_USERS_LIST
        else if request == CMD_USER then
          reply == RES_USER_INFO || reply == ERR_UNKNOWN_USER || reply == ERR_INVALID_COMMAND
        else if request == CMD_SEND then
          reply == RES_SEND_OK || reply == ERR_UNKNOWN_USER || reply == ERR_INVALID_COMMAND
        else if request == CMD_MESSAGES then
          reply == RES_MESSAGES_LIST || reply == ERR_UNKNOWN_USER || reply == ERR_INVALID_COMMAND
        else if request == CMD_SUBSCRIBE then
          reply == RES_SUBSCRIBE_OK || reply == ERR_UNKNOWN_TEAM || reply == ERR_INVALID_COMMAND
        else if request == CMD_SUBSCRIBED then
          || reply == RES_SUBSCRIBED_TEAMS || reply == RES_SUBSCRIBED_USERS
          || reply == ERR_UNKNOWN_TEAM || reply == ERR_NOT_SUBSCRIBED || reply == ERR_INVALID_COMMAND
        else if request == CMD_UNSUBSCRIBE then
          || reply == RES_UNSUBSCRIBE_OK
          || reply == ERR_UNKNOWN_TEAM || reply == ERR_NOT_SUBSCRIBED || reply == ERR_INVALID_COMMAND
        else if request == CMD_USE then
          || Entered(reply)
          || Within(reply, ERR_UNKNOWN_TEAM, ERR_UNKNOWN_THREAD)
          || (reply == ERR_NOT_SUBSCRIBED || reply == ERR_INVALID_COMMAND)
        else if request == CMD_CREATE then
          || Within(reply, RES_TEAM_CREATED, RES_REPLY_CREATED)
          || (reply == ERR_NOT_SUBSCRIBED || reply == ERR_INVALID_COMMAND)
        else if request == CMD_LIST then Within(reply, RES_LIST_TEAMS, RES_LIST_REPLIES)
        else if request == CMD_INFO then Entered(reply)
        else reply == ERR_INVALID_COMMAND)
  }

  /** The four replies that describe where a context stands. */
  predicate Entered(reply: uint16) { Within(reply, RES_TEAM_INFO, RES_USER_DETAILS) }

  /** A packet whose payload fits the size field has the layout of its code. */
  predicate WellTyped(p: Packet) { Small(p) ==> WellFormed(p) }

  ghost predicate ResultOk(request: uint16, r: Result) {
    && Answers(request, r.response.code) && !IsEvent(r.response) && WellTyped(r.response)
    && forall i | 0 <= i < |r.pushes| ::
         IsEvent(r.pushes[i].packet) && WellTyped(r.pushes[i].packet) && NoDuplicates(r.pushes[i].fds)
  }

  function ContextOf(d: Data, fd: int): Option<Context> {
    if fd in d.contexts then Some(d.contexts[fd]) else None
  }

  /** The context after a request, from the one before it, the request and its reply alone. */
  function ContextAfter(c: Option<Context>, q: Packet, reply: uint16): Option<Context> {
    if reply == RES_LOGIN_OK then Some(NO_CONTEXT)
    else if reply == RES_LOGOUT_OK then None
    else if q.code == CMD_USE && Entered(reply) then Requested(q.payload)
    else c
  }

  /** A request on fd touches no session and no context but fd's own. */
  ghost predicate OthersKept(d: Data, e: Data, fd: int) {
    && e.sessions - {fd} == d.sessions - {fd}
    && e.contexts - {fd} == d.contexts - {fd}
  }

  /** Users are never removed, reordered or given another id. */
  ghost predicate UsersKept(d: Data, e: Data, id: Uuid) {
    UserIds(e.users) == UserIds(d.users) || UserIds(e.users) == UserIds(d.users) + [id]
  }

  /** What a request does to the data, whatever it answers. */
  ghost predicate Effect(d: Data, fd: int, q: Packet, id: Uuid, o: Outcome) {
    && DataOk(o.data)
    && OthersKept(d, o.data, fd)
    && UsersKept(d, o.data, id)
    && Grow(d.teams, o.data.teams)
    && ContextOf(o.data, fd) == ContextAfter(ContextOf(d, fd), q, o.result.response.code)
  }

  // ---------------------------------------------------------------- layouts of the records

  lemma {:induction false} RowsFitLayouts()
    ensures forall u: User :: RowFits(AccountRow(u), ACCOUNT)
    ensures forall s, u: User :: RowFits(StatusRow(s, u), STATUS)
    ensures forall t: Team :: RowFits(TeamRow(t), PLACE)
    ensures forall c: Channel :: RowFits(ChannelRow(c), PLACE)
    ensures forall k: Thread :: RowFits(ThreadRow(k), TOPIC)
    ensures forall x: Uuid, r: Reply :: RowFits(ReplyRow(x, r), POST)
    ensures forall m: Letter :: RowFits(LetterRow(m), POST)
  {
  }

  lemma {:induction false} OnceTyped(code: uint16, row: Row)
    requires LayoutOf(code).Once? && RowFits(row, LayoutOf(code).fields)
    ensures WellTyped(Packet(code, Encode(row)))
  {
    OnceBack(code, row);
  }

  lemma {:induction false} ListTyped(code: uint16, rows: seq<Row>)
    requires LayoutOf(code).Counted? && RowsFit(rows, LayoutOf(code).fields)
    ensures WellTyped(Packet(code, EncodeList(rows)))
  {
    if Small(Packet(code, EncodeList(rows))) { ListWellFormed(code, rows); }
  }

  /** An id echo, and an id alone. */
  lemma {:induction false} IdTyped(code: uint16, id: Uuid)
    requires LayoutOf(code) == Once(ID)
    ensures WellTyped(Packet(code, Encode([Str(id)])))
  {
    OnceTyped(code, [Str(id)]);
  }

  lemma {:induction false} BareTyped(code: uint16)
    requires LayoutOf(code) == Once(NOTHING)
    ensures WellTyped(Packet(code, []))
  {
  }

  // ---------------------------------------------------------------- replies and events

  lemma {:induction false} ReplyOk(request: uint16, code: uint16, payload: Bytes)
    requires Answers(request, code) && code <= ERR_INVALID_COMMAND && WellTyped(Packet(code, payload))
    ensures ResultOk(request, Result(Packet(code, payload), []))
  {
  }

  lemma {:induction false} RefuseOk(request: uint16, d: Data, code: uint16)
    requires code == ERR_UNAUTHORIZED || code == ERR_NOT_SUBSCRIBED || code == ERR_INVALID_COMMAND
    requires Answers(request, code)
    ensures ResultOk(request, Refuse(d, code).result)
  {
    BareTyped(code);
    ReplyOk(request, code, []);
  }

  lemma {:induction false} UnknownOk(request: uint16, d: Data, code: uint16, x: Bytes)
    requires ERR_UNKNOWN_TEAM <= code <= ERR_UNKNOWN_USER && Answers(request, code)
    ensures ResultOk(request, Unknown(d, code, x).result)
  {
    IdTyped(code, Fixed(x, 36));
    ReplyOk(request, code, Encode([Str(Fixed(x, 36))]));
  }

  lemma {:induction false} UsersOkay(d: Data, fd: int)
    ensures ResultOk(CMD_USERS, ListUsers(d, fd).result)
  {
    RefuseOk(CMD_USERS, d, ERR_UNAUTHORIZED);
    RowsFitLayouts();
    ListTyped(RES_USERS_LIST, StatusRows(d.sessions, d.users));
  }

  lemma {:induction false} ShowUserOk(d: Data, fd: int, x: Bytes)
    requires fd in d.sessions
    ensures ResultOk(CMD_USER, ShowUser(d, fd, x).result)
  {
    var i := FirstOf(UserIds(d.users), x);
    if |x| != 36 {
      RefuseOk(CMD_USER, d, ERR_INVALID_COMMAND);
    } else if i == |d.users| {
      UnknownOk(CMD_USER, d, ERR_UNKNOWN_USER, x);
    } else {
      RowsFitLayouts();
      OnceTyped(RES_USER_INFO, StatusRow(d.sessions, d.users[i]));
    }
  }

  lemma {:induction false} HistoryOk(d: Data, fd: int, x: Bytes)
    requires fd in d.sessions
    ensures ResultOk(CMD_MESSAGES, History(d, fd, x).result)
  {
    if |x| != 36 {
      RefuseOk(CMD_MESSAGES, d, ERR_INVALID_COMMAND);
    } else if FirstOf(UserIds(d.users), x) == |d.users| {
      UnknownOk(CMD_MESSAGES, d, ERR_UNKNOWN_USER, x);
    } else {
      RowsFitLayouts();
      ListTyped(RES_MESSAGES_LIST, LetterRows(Conversation(d.letters, d.sessions[fd], x)));
    }
  }

  lemma {:induction false} SubscribedTeamsOk(d: Data, fd: int)
    requires fd in d.sessions
    ensures ResultOk(CMD_SUBSCRIBED, SubscribedTeams(d, fd).result)
  {
    RowsFitLayouts();
    ListTyped(RES_SUBSCRIBED_TEAMS, TeamRows(TeamsOf(d.teams, d.sessions[fd])));
  }

  lemma {:induction false} SubscribedUsersOk(d: Data, fd: int, x: Bytes)
    requires fd in d.sessions
    ensures ResultOk(CMD_SUBSCRIBED, SubscribedUsers(d, fd, x).result)
  {
    var t := FirstOf(TeamIds(d.teams), x);
    if |x| != 36 {
      RefuseOk(CMD_SUBSCRIBED, d, ERR_INVALID_COMMAND);
    } else if t == |d.teams| {
      UnknownOk(CMD_SUBSCRIBED, d, ERR_UNKNOWN_TEAM, x);
    } else if d.sessions[fd] !in d.teams[t].members {
      RefuseOk(CMD_SUBSCRIBED, d, ERR_NOT_SUBSCRIBED);
    } else {
      RowsFitLayouts();
      ListTyped(RES_SUBSCRIBED_USERS, StatusRows(d.sessions, UsersNamed(d.users, d.teams[t].members)));
    }
  }

  lemma {:induction false} AccountFits(users: seq<User>, x: Bytes)
    ensures RowFits(Account(users, x), ACCOUNT)
  {
  }

  lemma {:induction false} DescribeTyped(teams: seq<Team>, c: Context)
    requires Locate(teams, c).Resolved() && !Locate(teams, c).AtRoot?
    ensures var (code, row) := Describe(teams, Locate(teams, c));
            Entered(code) && code != RES_USER_DETAILS && WellTyped(Packet(code, Encode(row)))
  {
    RowsFitLayouts();
    var (code, row) := Describe(teams, Locate(teams, c));
    OnceTyped(code, row);
  }

  lemma {:induction false} AccountTyped(users: seq<User>, x: Bytes)
    ensures WellTyped(Packet(RES_USER_DETAILS, Encode(Account(users, x))))
  {
    AccountFits(users, x);
    OnceTyped(RES_USER_DETAILS, Account(users, x));
  }

  lemma {:induction false} InfoOk(d: Data, fd: int)
    requires fd in d.sessions && fd in d.contexts && Locate(d.teams, d.contexts[fd]).Resolved()
    ensures ResultOk(CMD_INFO, Info(d, fd).result)
  {
    var place := Locate(d.teams, d.contexts[fd]);
    if place.AtRoot? {
      AccountTyped(d.users, d.sessions[fd]);
      ReplyOk(CMD_INFO, RES_USER_DETAILS, Encode(Account(d.users, d.sessions[fd])));
    } else {
      DescribeTyped(d.teams, d.contexts[fd]);
      var (code, row) := Describe(d.teams, place);
      ReplyOk(CMD_INFO, code, Encode(row));
    }
  }

  lemma {:induction false} ListingTyped(teams: seq<Team>, c: Context)
    requires Locate(teams, c).Resolved()
    ensures var (code, rows) := Listing(teams, c);
            Within(code, RES_LIST_TEAMS, RES_LIST_REPLIES) && WellTyped(Packet(code, EncodeList(rows)))
  {
    RowsFitLayouts();
    var (code, rows) := Listing(teams, c);
    ListTyped(code, rows);
  }

  lemma {:induction false} ListOk(d: Data, fd: int)
    requires fd in d.sessions && fd in d.contexts && Locate(d.teams, d.contexts[fd]).Resolved()
    ensures ResultOk(CMD_LIST, List(d, fd).result)
  {
    ListingTyped(d.teams, d.contexts[fd]);
    var (code, rows) := Listing(d.teams, d.contexts[fd]);
    ReplyOk(CMD_LIST, code, EncodeList(rows));
  }

  lemma {:induction false} SessionFdsOnce(sessions: map<int, Bytes>)
    ensures NoDuplicates(SessionFds(sessions))
  {
    IncreasingNoDuplicates(SessionFds(sessions));
  }

  /** A reply with at most one event beside it. */
  lemma {:induction false} AnnouncedOk(request: uint16, reply: Packet, event: Packet, pushes: seq<Push>, fds: seq<int>)
    requires Answers(request, reply.code) && !IsEvent(reply) && WellTyped(reply)
    requires IsEvent(event) && WellTyped(event) && NoDuplicates(fds)
    requires pushes == [] || pushes == [Push(event, fds)]
    ensures ResultOk(request, Result(reply, pushes))
  {
  }

  lemma {:induction false} LoginOk(d: Data, fd: int, text: Bytes, id: Uuid)
    ensures ResultOk(CMD_LOGIN, Login(d, fd, text, id).result)
  {
    var o := Login(d, fd, text, id);
    var (users, i) := Enrol(d.users, Trim(text), id);
    var row := AccountRow(users[i]);
    RowsFitLayouts();
    OnceTyped(RES_LOGIN_OK, row);
    OnceTyped(EVT_USER_LOGGED_IN, row);
    SessionFdsOnce(o.data.sessions);
    AnnouncedOk(CMD_LOGIN, Packet(RES_LOGIN_OK, Encode(row)), Packet(EVT_USER_LOGGED_IN, Encode(row)),
                o.result.pushes, SessionFds(o.data.sessions));
  }

  lemma {:induction false} LogoutOk(d: Data, fd: int)
    requires fd in d.sessions
    ensures ResultOk(CMD_LOGOUT, Logout(d, fd).result)
  {
    var o := Logout(d, fd);
    var row := Account(d.users, d.sessions[fd]);
    AccountFits(d.users, d.sessions[fd]);
    OnceTyped(RES_LOGOUT_OK, row);
    OnceTyped(EVT_USER_LOGGED_OUT, row);
    SessionFdsOnce(o.data.sessions);
    var fds := SessionFds(o.data.sessions);
    assert fd !in fds;
    assert NoDuplicates(fds + [fd]);
    AnnouncedOk(CMD_LOGOUT, Packet(RES_LOGOUT_OK, Encode(row)), Packet(EVT_USER_LOGGED_OUT, Encode(row)),
                o.result.pushes, fds + [fd]);
  }

  lemma {:induction false} SendOk(d: Data, fd: int, x: Bytes, body: Bytes, now: Image)
    requires fd in d.sessions
    ensures ResultOk(CMD_SEND, Send(d, fd, x, body, now).result)
  {
    if |x| != 36 {
      RefuseOk(CMD_SEND, d, ERR_INVALID_COMMAND);
    } else if FirstOf(UserIds(d.users), x) == |d.users| {
      UnknownOk(CMD_SEND, d, ERR_UNKNOWN_USER, x);
    } else {
      var row: Row := [Str(Fixed(d.sessions[fd], 36)), Str(Fixed(Trim(body), 512))];
      assert RowFits(row, NOTE);
      OnceTyped(EVT_MESSAGE_RECEIVED, row);
      BareTyped(RES_SEND_OK);
      IncreasingNoDuplicates(UserFds(d.sessions, x));
      AnnouncedOk(CMD_SEND, Packet(RES_SEND_OK, []), Packet(EVT_MESSAGE_RECEIVED, Encode(row)),
                  Send(d, fd, x, body, now).result.pushes, UserFds(d.sessions, x));
    }
  }

  lemma {:induction false} SubscribeOk(d: Data, fd: int, x: Bytes)
    requires fd in d.sessions
    ensures ResultOk(CMD_SUBSCRIBE, Subscribe(d, fd, x).result)
  {
    var t := FirstOf(TeamIds(d.teams), x);
    if |x| != 36 {
      RefuseOk(CMD_SUBSCRIBE, d, ERR_INVALID_COMMAND);
    } else if t == |d.teams| {
      UnknownOk(CMD_SUBSCRIBE, d, ERR_UNKNOWN_TEAM, x);
    } else {
      IdTyped(RES_SUBSCRIBE_OK, d.teams[t].uuid);
      ReplyOk(CMD_SUBSCRIBE, RES_SUBSCRIBE_OK, Encode([Str(d.teams[t].uuid)]));
    }
  }

  lemma {:induction false} UnsubscribeOk(d: Data, fd: int, x: Bytes)
    requires fd in d.sessions
    ensures ResultOk(CMD_UNSUBSCRIBE, Unsubscribe(d, fd, x).result)
  {
    var t := FirstOf(TeamIds(d.teams), x);
    if |x| != 36 {
      RefuseOk(CMD_UNSUBSCRIBE, d, ERR_INVALID_COMMAND);
    } else if t == |d.teams| {
      UnknownOk(CMD_UNSUBSCRIBE, d, ERR_UNKNOWN_TEAM, x);
    } else {
      RefuseOk(CMD_UNSUBSCRIBE, d, ERR_NOT_SUBSCRIBED);
      IdTyped(RES_UNSUBSCRIBE_OK, d.teams[t].uuid);
      ReplyOk(CMD_UNSUBSCRIBE, RES_UNSUBSCRIBE_OK, Encode([Str(d.teams[t].uuid)]));
    }
  }

  lemma {:induction false} RequestedLevel(p: Bytes)
    requires Requested(p).Some?
    ensures Requested(p).value.level == p[0] <= USE_THREAD
  {
  }

  lemma {:induction false} UseResolvedOk(d: Data, fd: int, p: Bytes, c: Context)
    requires fd in d.sessions && Requested(p) == Some(c) && Locate(d.teams, c).Resolved()
    ensures ResultOk(CMD_USE, Use(d, fd, p).result)
  {
    var place := Locate(d.teams, c);
    if place.AtRoot? {
      AccountTyped(d.users, d.sessions[fd]);
      ReplyOk(CMD_USE, RES_USER_DETAILS, Encode(Account(d.users, d.sessions[fd])));
    } else {
      RefuseOk(CMD_USE, d, ERR_NOT_SUBSCRIBED);
      DescribeTyped(d.teams, c);
      var (code, row) := Describe(d.teams, place);
      ReplyOk(CMD_USE, code, Encode(row));
    }
  }

  lemma {:induction false} UseOk(d: Data, fd: int, p: Bytes)
    requires fd in d.sessions
    ensures ResultOk(CMD_USE, Use(d, fd, p).result)
  {
    RefuseOk(CMD_USE, d, ERR_INVALID_COMMAND);
    RefuseOk(CMD_USE, d, ERR_NOT_SUBSCRIBED);
    if Requested(p).Some? {
      var c := Requested(p).value;
      if Locate(d.teams, c).Resolved() {
        UseResolvedOk(d, fd, p, c);
      } else {
        UnknownOk(CMD_USE, d, ERR_UNKNOWN_TEAM, c.team);
        UnknownOk(CMD_USE, d, ERR_UNKNOWN_CHANNEL, c.channel);
        UnknownOk(CMD_USE, d, ERR_UNKNOWN_THREAD, c.thread);
      }
    }
  }

  lemma {:induction false} CreatedOk(d: Data, code: uint16, event: uint16, row: Row, fds: seq<int>)
    requires RES_TEAM_CREATED <= code <= RES_REPLY_CREATED && EVT_TEAM_CREATED <= event <= EVT_REPLY_CREATED
    requires LayoutOf(code).Once? && LayoutOf(event) == LayoutOf(code) && RowFits(row, LayoutOf(code).fields)
    requires NoDuplicates(fds)
    ensures ResultOk(CMD_CREATE, Created(d, code, event, row, fds).result)
  {
    OnceTyped(code, row);
    OnceTyped(event, row);
    AnnouncedOk(CMD_CREATE, Packet(code, Encode(row)), Packet(event, Encode(row)),
                [Push(Packet(event, Encode(row)), fds)], fds);
  }

  lemma {:induction false} CreateChannelOk(d: Data, x: Channel, fds: seq<int>)
    requires NoDuplicates(fds)
    ensures ResultOk(CMD_CREATE, Created(d, RES_CHANNEL_CREATED, EVT_CHANNEL_CREATED, ChannelRow(x), fds).result)
  {
    RowsFitLayouts();
    CreatedOk(d, RES_CHANNEL_CREATED, EVT_CHANNEL_CREATED, ChannelRow(x), fds);
  }

  lemma {:induction false} CreateThreadOk(d: Data, x: Thread, fds: seq<int>)
    requires NoDuplicates(fds)
    ensures ResultOk(CMD_CREATE, Created(d, RES_THREAD_CREATED, EVT_THREAD_CREATED, ThreadRow(x), fds).result)
  {
    RowsFitLayouts();
    CreatedOk(d, RES_THREAD_CREATED, EVT_THREAD_CREATED, ThreadRow(x), fds);
  }

  lemma {:induction false} CreateReplyOk(d: Data, thread: Uuid, x: Reply, fds: seq<int>)
    requires NoDuplicates(fds)
    ensures ResultOk(CMD_CREATE, Created(d, RES_REPLY_CREATED, EVT_REPLY_CREATED, ReplyRow(thread, x), fds).result)
  {
    RowsFitLayouts();
    CreatedOk(d, RES_REPLY_CREATED, EVT_REPLY_CREATED, ReplyRow(thread, x), fds);
  }

  lemma {:induction false} CreateInOk(d: Data, c: Context, place: Place, p: Bytes, creator: Uuid, id: Uuid, now: Image)
    requires place == Locate(d.teams, c) && (place.AtTeam? || place.AtChannel? || place.AtThread?)
    requires CreateSize(c.level) <= |p|
    ensures ResultOk(CMD_CREATE, CreateIn(d, c, place, p, creator, id, now).result)
  {
    var e := CreateIn(d, c, place, p, creator, id, now).data;
    var fds := MemberFds(d.sessions, d.teams[place.t].members);
    IncreasingNoDuplicates(fds);
    match place {
      case AtTeam(t) => CreateChannelOk(e, Channel(id, p[..32], p[32..287], []), fds);
      case AtChannel(t, i) => CreateThreadOk(e, Thread(id, creator, p[..32], p[32..544], now, []), fds);
      case AtThread(t, i, k) => CreateReplyOk(e, c.thread, Reply(id, creator, p[..512], now), fds);
    }
  }

  lemma {:induction false} CreateTeamOk(d: Data, p: Bytes, id: Uuid, user: Bytes)
    requires CreateSize(USE_NONE) <= |p|
    ensures ResultOk(CMD_CREATE, CreateTeam(d, p, id, user).result)
  {
    var team := Team(id, p[..32], p[32..287], [], [user]);
    RowsFitLayouts();
    SessionFdsOnce(d.sessions);
    CreatedOk(d, RES_TEAM_CREATED, EVT_TEAM_CREATED, TeamRow(team), SessionFds(d.sessions));
  }

  lemma {:induction false} CreateOk(d: Data, fd: int, p: Bytes, id: Uuid, now: Image)
    requires fd in d.sessions && fd in d.contexts && Locate(d.teams, d.contexts[fd]).Resolved()
    ensures ResultOk(CMD_CREATE, Create(d, fd, p, id, now).result)
  {
    var c, user := d.contexts[fd], d.sessions[fd];
    var place := Locate(d.teams, c);
    if |p| < CreateSize(c.level) {
      RefuseOk(CMD_CREATE, d, ERR_INVALID_COMMAND);
    } else if place.AtRoot? {
      CreateTeamOk(d, p, id, user);
    } else if user !in d.teams[place.t].members {
      RefuseOk(CMD_CREATE, d, ERR_NOT_SUBSCRIBED);
    } else {
      CreateInOk(d, c, place, p, Fixed(user, 36), id, now);
    }
  }

  /** Every reply and every event of every request, in every state that keeps the data invariant. */
  lemma {:induction false} HandleOk(d: Data, fd: int, q: Packet, id: Uuid, now: Image)
    requires SessionsOk(d) && ContextsOk(d)
    ensures ResultOk(q.code, Handle(d, fd, q, id, now).result)
  {
    var p := q.payload;
    if fd !in d.sessions && q.code != CMD_LOGIN { RefuseOk(q.code, d, ERR_UNAUTHORIZED); }
    else if q.code == CMD_LOGIN { LoginOk(d, fd, p, id); }
    else if q.code == CMD_LOGOUT { LogoutOk(d, fd); }
    else if q.code == CMD_USERS { UsersOkay(d, fd); }
    else if q.code == CMD_USER { ShowUserOk(d, fd, Extract(p, 0, 36)); }
    else if q.code == CMD_SEND { SendOk(d, fd, Extract(p, 0, 36), Extract(p, 36, 512), now); }
    else if q.code == CMD_MESSAGES { HistoryOk(d, fd, Extract(p, 0, 36)); }
    else if q.code == CMD_SUBSCRIBE { SubscribeOk(d, fd, Extract(p, 0, 36)); }
    else if q.code == CMD_SUBSCRIBED {
      if p != [] && p[0] == 1 { SubscribedUsersOk(d, fd, Extract(p, 1, 36)); } else { SubscribedTeamsOk(d, fd); }
    }
    else if q.code == CMD_UNSUBSCRIBE { UnsubscribeOk(d, fd, Extract(p, 0, 36)); }
    else if q.code == CMD_USE { UseOk(d, fd, p); }
    else if q.code == CMD_CREATE { CreateOk(d, fd, p, id, now); }
    else if q.code == CMD_LIST { ListOk(d, fd); }
    else if q.code == CMD_INFO { InfoOk(d, fd); }
    else { RefuseOk(q.code, d, ERR_INVALID_COMMAND); }
  }

  // ---------------------------------------------------------------- effects

  lemma {:induction false} QuietEffect(d: Data, fd: int, q: Packet, id: Uuid, o: Outcome)
    requires DataOk(d) && o.data == d
    requires ContextAfter(ContextOf(d, fd), q, o.result.response.code) == ContextOf(d, fd)
    ensures Effect(d, fd, q, id, o)
  {
    GrowSame(d.teams);
  }

  /** A handler that only changes letters or the team tree. */
  lemma {:induction false} TreeEffect(d: Data, fd: int, q: Packet, id: Uuid, o: Outcome)
    requires DataOk(o.data) && o.data.users == d.users && o.data.sessions == d.sessions && o.data.contexts == d.contexts
    requires Grow(d.teams, o.data.teams)
    requires ContextAfter(ContextOf(d, fd), q, o.result.response.code) == ContextOf(d, fd)
    ensures Effect(d, fd, q, id, o)
  {
  }

  lemma {:induction false} PutAway<V>(m: map<int, V>, fd: int, v: V)
    ensures m[fd := v] - {fd} == m - {fd}
  {
  }

  lemma {:induction false} LoginIds(d: Data, fd: int, text: Bytes, id: Uuid)
    requires UsersOk(d.users) && id !in UserIds(d.users) && 0 !in id
    ensures UsersKept(d, Login(d, fd, text, id).data, id)
  {
    var (users, i) := Enrol(d.users, Trim(text), id);
    EnrolKeeps(d.users, Trim(text), id);
    UserIdsUpdate(users, i, true);
    if users != d.users { assert UserIds(users) == UserIds(d.users) + [id]; }
  }

  lemma {:induction false} LoginLocal(d: Data, fd: int, text: Bytes, id: Uuid)
    ensures OthersKept(d, Login(d, fd, text, id).data, fd)
  {
    PutAway(d.sessions, fd, Trim(Enrol(d.users, Trim(text), id).0[Enrol(d.users, Trim(text), id).1].uuid));
    PutAway(d.contexts, fd, NO_CONTEXT);
  }

  lemma {:induction false} LoginEffect(d: Data, fd: int, q: Packet, id: Uuid)
    requires DataOk(d) && id !in UserIds(d.users) && 0 !in id
    ensures Effect(d, fd, q, id, Login(d, fd, q.payload, id))
  {
    LoginKeeps(d, fd, q.payload, id);
    LoginIds(d, fd, q.payload, id);
    LoginLocal(d, fd, q.payload, id);
    GrowSame(d.teams);
  }

  lemma {:induction false} LogoutLocal(d: Data, fd: int, id: Uuid)
    requires fd in d.sessions
    ensures OthersKept(d, Logout(d, fd).data, fd)
    ensures UsersKept(d, Logout(d, fd).data, id)
    ensures fd !in Logout(d, fd).data.contexts
  {
    var o := Logout(d, fd);
    var i := FirstOf(UserIds(d.users), d.sessions[fd]);
    if i < |d.users| { UserIdsUpdate(d.users, i, Online(o.data.sessions, d.sessions[fd])); }
  }

  lemma {:induction false} LogoutEffect(d: Data, fd: int, q: Packet, id: Uuid)
    requires DataOk(d) && fd in d.sessions
    ensures Effect(d, fd, q, id, Logout(d, fd))
  {
    LogoutKeeps(d, fd);
    LogoutLocal(d, fd, id);
    GrowSame(d.teams);
  }

  lemma {:induction false} SendEffect(d: Data, fd: int, q: Packet, id: Uuid, x: Bytes, body: Bytes, now: Image)
    requires DataOk(d) && q.code == CMD_SEND
    ensures Effect(d, fd, q, id, Send(d, fd, x, body, now))
  {
    GrowSame(d.teams);
    var e := Send(d, fd, x, body, now).data;
    assert e == d.(letters := e.letters);
    assert DataOk(d.(letters := e.letters));
  }

  lemma {:induction false} SubscribeEffect(d: Data, fd: int, q: Packet, id: Uuid, x: Bytes)
    requires DataOk(d) && q.code == CMD_SUBSCRIBE
    ensures Effect(d, fd, q, id, Subscribe(d, fd, x))
  {
    SubscribeKeeps(d, fd, x);
    var o := Subscribe(d, fd, x);
    GrowSame(d.teams);
    if o.data != d {
      var t := FirstOf(TeamIds(d.teams), x);
      GrowMembers(d.teams, t, d.teams[t].members + [d.sessions[fd]]);
    }
    TreeEffect(d, fd, q, id, o);
  }

  lemma {:induction false} UnsubscribeEffect(d: Data, fd: int, q: Packet, id: Uuid, x: Bytes)
    requires DataOk(d) && q.code == CMD_UNSUBSCRIBE
    ensures Effect(d, fd, q, id, Unsubscribe(d, fd, x))
  {
    UnsubscribeKeeps(d, fd, x);
    var o := Unsubscribe(d, fd, x);
    GrowSame(d.teams);
    if o.data != d {
      var t := FirstOf(TeamIds(d.teams), x);
      var members := d.teams[t].members;
      var i := FirstOf(members, d.sessions[fd]);
      GrowMembers(d.teams, t, members[..i] + members[i + 1..]);
    }
    TreeEffect(d, fd, q, id, o);
  }

  lemma {:induction false} EnterKeeps(d: Data, fd: int, c: Context)
    requires DataOk(d) && fd in d.sessions && Locate(d.teams, c).Resolved()
    ensures DataOk(d.(contexts := d.contexts[fd := c]))
  {
    var e := d.(contexts := d.contexts[fd := c]);
    assert e.contexts.Keys == d.contexts.Keys;
    assert SessionsOk(e) && ContextsOk(e) && LoggedOk(e);
  }

  lemma {:induction false} EnterEffect(d: Data, fd: int, q: Packet, id: Uuid, c: Context, o: Outcome)
    requires DataOk(d) && q.code == CMD_USE && fd in d.sessions
    requires Requested(q.payload) == Some(c) && Locate(d.teams, c).Resolved()
    requires o.data == d.(contexts := d.contexts[fd := c]) && Entered(o.result.response.code)
    ensures Effect(d, fd, q, id, o)
  {
    EnterKeeps(d, fd, c);
    PutAway(d.contexts, fd, c);
    GrowSame(d.teams);
  }

  lemma {:induction false} DescribeCodes(teams: seq<Team>, c: Context)
    requires Locate(teams, c).Resolved() && !Locate(teams, c).AtRoot?
    ensures Entered(Describe(teams, Locate(teams, c)).0)
  {
  }

  lemma {:induction false} UseEffect(d: Data, fd: int, q: Packet, id: Uuid)
    requires DataOk(d) && q.code == CMD_USE && fd in d.sessions
    ensures Effect(d, fd, q, id, Use(d, fd, q.payload))
  {
    var o := Use(d, fd, q.payload);
    if Requested(q.payload).Some? {
      RequestedLevel(q.payload);
      var c := Requested(q.payload).value;
      var place := Locate(d.teams, c);
      if place.AtRoot? {
        EnterEffect(d, fd, q, id, c, o);
      } else if place.Resolved() && d.sessions[fd] in d.teams[place.t].members {
        DescribeCodes(d.teams, c);
        EnterEffect(d, fd, q, id, c, o);
      } else {
        QuietEffect(d, fd, q, id, o);
      }
    } else {
      QuietEffect(d, fd, q, id, o);
    }
  }

  lemma {:induction false} CreatedEffect(d: Data, fd: int, q: Packet, id: Uuid, o: Outcome)
    requires DataOk(o.data) && o.data == d.(teams := o.data.teams) && Grow(d.teams, o.data.teams)
    requires q.code == CMD_CREATE && Within(o.result.response.code, RES_TEAM_CREATED, RES_REPLY_CREATED)
    ensures Effect(d, fd, q, id, o)
  {
    TreeEffect(d, fd, q, id, o);
  }

  lemma {:induction false} CreateInShape(d: Data, c: Context, place: Place, p: Bytes, creator: Uuid, id: Uuid,
                                         now: Image)
    requires place == Locate(d.teams, c) && (place.AtTeam? || place.AtChannel? || place.AtThread?)
    requires CreateSize(c.level) <= |p|
    ensures var o := CreateIn(d, c, place, p, creator, id, now);
            o.data == d.(teams := o.data.teams) && Within(o.result.response.code, RES_TEAM_CREATED, RES_REPLY_CREATED)
  {
  }

  lemma {:induction false} CreateEffect(d: Data, fd: int, q: Packet, id: Uuid, now: Image)
    requires DataOk(d) && q.code == CMD_CREATE && fd in d.sessions
    ensures Effect(d, fd, q, id, Create(d, fd, q.payload, id, now))
  {
    assert fd in d.contexts;
    var p, c, user := q.payload, d.contexts[fd], d.sessions[fd];
    var place := Locate(d.teams, c);
    assert place.Resolved();
    if |p| < CreateSize(c.level) {
      QuietEffect(d, fd, q, id, Refuse(d, ERR_INVALID_COMMAND));
    } else if place.AtRoot? {
      CreateTeamKeeps(d, Team(id, p[..32], p[32..287], [], [user]));
      CreatedEffect(d, fd, q, id, CreateTeam(d, p, id, user));
    } else if user !in d.teams[place.t].members {
      QuietEffect(d, fd, q, id, Refuse(d, ERR_NOT_SUBSCRIBED));
    } else {
      CreateInKeeps(d, c, place, p, Fixed(user, 36), id, now);
      CreateInShape(d, c, place, p, Fixed(user, 36), id, now);
      CreatedEffect(d, fd, q, id, CreateIn(d, c, place, p, Fixed(user, 36), id, now));
    }
  }

  lemma {:induction false} ReadersQuiet(d: Data, fd: int, q: Packet, id: Uuid, now: Image)
    requires q.code != CMD_LOGIN
    requires fd !in d.sessions || (q.code != CMD_LOGOUT && q.code != CMD_SEND && q.code != CMD_USE)
    requires fd !in d.sessions || (q.code != CMD_SUBSCRIBE && q.code != CMD_UNSUBSCRIBE && q.code != CMD_CREATE)
    ensures Handle(d, fd, q, id, now).data == d && Handle(d, fd, q, id, now).result.pushes == []
    ensures var reply := Handle(d, fd, q, id, now).result.response.code;
            reply >= RES_USERS_LIST && (q.code == CMD_USE ==> !Entered(reply))
  {
  }

  lemma {:induction false} ReaderEffect(d: Data, fd: int, q: Packet, id: Uuid, now: Image)
    requires DataOk(d) && q.code != CMD_LOGIN
    requires fd !in d.sessions || (q.code != CMD_LOGOUT && q.code != CMD_SEND && q.code != CMD_USE)
    requires fd !in d.sessions || (q.code != CMD_SUBSCRIBE && q.code != CMD_UNSUBSCRIBE && q.code != CMD_CREATE)
    ensures Effect(d, fd, q, id, Handle(d, fd, q, id, now))
  {
    ReadersQuiet(d, fd, q, id, now);
    QuietEffect(d, fd, q, id, Handle(d, fd, q, id, now));
  }

  /** Which handler serves a request that may change something. */
  lemma {:induction false} Routes(d: Data, fd: int, q: Packet, id: Uuid, now: Image)
    requires fd in d.sessions || q.code == CMD_LOGIN
    ensures var (o, p) := (Handle(d, fd, q, id, now), q.payload);
            && (q.code == CMD_LOGIN ==> o == Login(d, fd, p, id))
            && (q.code == CMD_LOGOUT ==> o == Logout(d, fd))
            && (q.code == CMD_SEND ==> o == Send(d, fd, Extract(p, 0, 36), Extract(p, 36, 512), now))
            && (q.code == CMD_SUBSCRIBE ==> o == Subscribe(d, fd, Extract(p, 0, 36)))
            && (q.code == CMD_UNSUBSCRIBE ==> o == Unsubscribe(d, fd, Extract(p, 0, 36)))
            && (q.code == CMD_USE ==> o == Use(d, fd, p))
            && (q.code == CMD_CREATE ==> o == Create(d, fd, p, id, now))
  {
  }

  lemma {:induction false} SubscriptionEffect(d: Data, fd: int, q: Packet, id: Uuid, now: Image)
    requires DataOk(d) && fd in d.sessions
    requires q.code == CMD_SEND || q.code == CMD_SUBSCRIBE || q.code == CMD_UNSUBSCRIBE
    ensures Effect(d, fd, q, id, Handle(d, fd, q, id, now))
  {
    var p := q.payload;
    Routes(d, fd, q, id, now);
    if q.code == CMD_SEND { SendEffect(d, fd, q, id, Extract(p, 0, 36), Extract(p, 36, 512), now); }
    else if q.code == CMD_SUBSCRIBE { SubscribeEffect(d, fd, q, id, Extract(p, 0, 36)); }
    else { UnsubscribeEffect(d, fd, q, id, Extract(p, 0, 36)); }
  }

  lemma {:induction false} TreeRequestEffect(d: Data, fd: int, q: Packet, id: Uuid, now: Image)
    requires DataOk(d) && fd in d.sessions
    requires q.code == CMD_LOGOUT || q.code == CMD_USE || q.code == CMD_CREATE
    ensures Effect(d, fd, q, id, Handle(d, fd, q, id, now))
  {
    Routes(d, fd, q, id, now);
    if q.code == CMD_LOGOUT { LogoutEffect(d, fd, q, id); }
    else if q.code == CMD_USE { UseEffect(d, fd, q, id); }
    else { CreateEffect(d, fd, q, id, now); }
  }

  /** What every request does to the data. */
  lemma {:induction false} HandleEffect(d: Data, fd: int, q: Packet, id: Uuid, now: Image)
    requires DataOk(d) && id !in UserIds(d.users) && 0 !in id
    ensures Effect(d, fd, q, id, Handle(d, fd, q, id, now))
  {
    if q.code == CMD_LOGIN {
      Routes(d, fd, q, id, now);
      LoginEffect(d, fd, q, id);
    } else if fd in d.sessions && (q.code == CMD_SEND || q.code == CMD_SUBSCRIBE || q.code == CMD_UNSUBSCRIBE) {
      SubscriptionEffect(d, fd, q, id, now);
    } else if fd in d.sessions && (q.code == CMD_LOGOUT || q.code == CMD_USE || q.code == CMD_CREATE) {
      TreeRequestEffect(d, fd, q, id, now);
    } else {
      ReaderEffect(d, fd, q, id, now);
    }
  }

  lemma {:induction false} CreateInKeepsUsers(d: Data, c: Context, place: Place, p: Bytes, creator: Uuid, id: Uuid,
                                              now: Image)
    requires place == Locate(d.teams, c) && (place.AtTeam? || place.AtChannel? || place.AtThread?)
    requires CreateSize(c.level) <= |p|
    ensures CreateIn(d, c, place, p, creator, id, now).data.users == d.users
    ensures CreateIn(d, c, place, p, creator, id, now).data.sessions == d.sessions
  {
  }

  lemma {:induction false} CreateKeepsUsers(d: Data, fd: int, p: Bytes, id: Uuid, now: Image)
    ensures Create(d, fd, p, id, now).data.users == d.users
    ensures Create(d, fd, p, id, now).data.sessions == d.sessions
  {
    if fd in d.sessions && fd in d.contexts {
      var c := d.contexts[fd];
      var place := Locate(d.teams, c);
      if CreateSize(c.level) <= |p| && place.Resolved() && !place.AtRoot? {
        CreateInKeepsUsers(d, c, place, p, Fixed(d.sessions[fd], 36), id, now);
      }
    }
  }

  /** Only logins and logouts touch users and sessions. */
  lemma {:induction false} OthersKeepUsers(d: Data, fd: int, q: Packet, id: Uuid, now: Image)
    requires q.code != CMD_LOGIN
    requires fd !in d.sessions || q.code != CMD_LOGOUT
    ensures Handle(d, fd, q, id, now).data.users == d.users
    ensures Handle(d, fd, q, id, now).data.sessions == d.sessions
  {
    var p := q.payload;
    if fd !in d.sessions {
      ReadersQuiet(d, fd, q, id, now);
    } else {
      Routes(d, fd, q, id, now);
      if q.code == CMD_SEND {
        assert Handle(d, fd, q, id, now) == Send(d, fd, Extract(p, 0, 36), Extract(p, 36, 512), now);
      } else if q.code == CMD_SUBSCRIBE { assert Handle(d, fd, q, id, now) == Subscribe(d, fd, Extract(p, 0, 36)); }
      else if q.code == CMD_UNSUBSCRIBE { assert Handle(d, fd, q, id, now) == Unsubscribe(d, fd, Extract(p, 0, 36)); }
      else if q.code == CMD_USE { assert Handle(d, fd, q, id, now) == Use(d, fd, p); }
      else if q.code == CMD_CREATE { CreateKeepsUsers(d, fd, p, id, now); }
      else { ReadersQuiet(d, fd, q, id, now); }
    }
  }
}
