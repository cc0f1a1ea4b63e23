/** What each request does to the server's data and what it answers. */
module Handlers {
  import opened Octets
  import opened Words
  import opened Protocol
  import opened Records
  import opened ServerData

  datatype Push = Push(packet: Packet, fds: seq<int>)

  datatype Result = Result(response: Packet, pushes: seq<Push>)

  datatype Outcome = Outcome(data: Data, result: Result)

  function Answer(d: Data, code: uint16, payload: Bytes): Outcome {
    Outcome(d, Result(Packet(code, payload), []))
  }

  function Refuse(d: Data, code: uint16): Outcome { Answer(d, code, []) }

  /** A refusal that echoes the id it could not find. */
  function Unknown(d: Data, code: uint16, id: Bytes): Outcome { Answer(d, code, Encode([Str(Fixed(id, 36))])) }

  // ---------------------------------------------------------------- login and logout

  /** The user a login name stands for, created under the given id when no stored name matches. */
  function Enrol(users: seq<User>, name: Bytes, id: Uuid): (seq<User>, nat) {
    var i := FirstOf(UserNames(users), name);
    (if i < |users| then users else users + [User(id, Fixed(name, 32), true)], i)
  }

  function Login(d: Data, fd: int, text: Bytes, id: Uuid): Outcome {
    var name := Trim(text);
    var (users, i) := Enrol(d.users, name, id);
    var u := users[i];
    var sessions := d.sessions[fd := Trim(u.uuid)];
    var payload := Encode(AccountRow(u));
    Outcome(
      d.(users := users[i := u.(isLogged := true)], sessions := sessions, contexts := d.contexts[fd := NO_CONTEXT]),
      Result(Packet(RES_LOGIN_OK, payload),
             if Online(d.sessions, Trim(u.uuid)) then []
             else [Push(Packet(EVT_USER_LOGGED_IN, payload), SessionFds(sessions))]))
  }

  /** The account a session id names; a missing user shows as a blank name. */
  function Account(users: seq<User>, uuid: Bytes): Row {
    var i := FirstOf(UserIds(users), uuid);
    if i < |users| then AccountRow(users[i]) else [Str(Fixed(uuid, 36)), Str(Zeros(32))]
  }

  function Logout(d: Data, fd: int): Outcome {
    if fd !in d.sessions then Refuse(d, ERR_UNAUTHORIZED) else
      var uuid := d.sessions[fd];
      var i := FirstOf(UserIds(d.users), uuid);
      var payload := Encode(Account(d.users, uuid));
      var sessions := d.sessions - {fd};
      var still := Online(sessions, uuid);
      Outcome(
        d.(users := if i < |d.users| then d.users[i := d.users[i].(isLogged := still)] else d.users,
           sessions := sessions, contexts := d.contexts - {fd}),
        Result(Packet(RES_LOGOUT_OK, payload),
               if still then []
               else [Push(Packet(EVT_USER_LOGGED_OUT, payload), SessionFds(sessions) + [fd])]))
  }

  // ---------------------------------------------------------------- users

  function ListUsers(d: Data, fd: int): Outcome {
    if fd !in d.sessions then Refuse(d, ERR_UNAUTHORIZED)
    else Answer(d, RES_USERS_LIST, EncodeList(StatusRows(d.sessions, d.users)))
  }

  function ShowUser(d: Data, fd: int, uuid: Bytes): Outcome {
    if fd !in d.sessions then Refuse(d, ERR_UNAUTHORIZED)
    else if |uuid| != 36 then Refuse(d, ERR_INVALID_COMMAND)
    else
      var i := FirstOf(UserIds(d.users), uuid);
      if i == |d.users| then Unknown(d, ERR_UNKNOWN_USER, uuid)
      else Answer(d, RES_USER_INFO, Encode(StatusRow(d.sessions, d.users[i])))
  }

  // ---------------------------------------------------------------- private messages

  function Send(d: Data, fd: int, receiver: Bytes, body: Bytes, now: Image): Outcome {
    if fd !in d.sessions then Refuse(d, ERR_UNAUTHORIZED)
    else if |receiver| != 36 then Refuse(d, ERR_INVALID_COMMAND)
    else if FirstOf(UserIds(d.users), receiver) == |d.users| then Unknown(d, ERR_UNKNOWN_USER, receiver)
    else
      var m := Letter(Fixed(d.sessions[fd], 36), receiver, Fixed(Trim(body), 512), now);
      var fds := UserFds(d.sessions, receiver);
      Outcome(
        d.(letters := d.letters + [m]),
        Result(Packet(RES_SEND_OK, []),
               if fds == [] then []
               else [Push(Packet(EVT_MESSAGE_RECEIVED, Encode([Str(m.sender), Str(m.body)])), fds)]))
  }

  function History(d: Data, fd: int, other: Bytes): Outcome {
    if fd !in d.sessions then Refuse(d, ERR_UNAUTHORIZED)
    else if |other| != 36 then Refuse(d, ERR_INVALID_COMMAND)
    else if FirstOf(UserIds(d.users), other) == |d.users| then Unknown(d, ERR_UNKNOWN_USER, other)
    else Answer(d, RES_MESSAGES_LIST, EncodeList(LetterRows(Conversation(d.letters, d.sessions[fd], other))))
  }

  // ---------------------------------------------------------------- subscriptions

  function WithMembers(teams: seq<Team>, t: nat, members: seq<Bytes>): seq<Team>
    requires t < |teams|
  {
    teams[t := teams[t].(members := members)]
  }

  function Subscribe(d: Data, fd: int, uuid: Bytes): Outcome {
    if fd !in d.sessions then Refuse(d, ERR_UNAUTHORIZED)
    else if |uuid| != 36 then Refuse(d, ERR_INVALID_COMMAND)
    else
      var t := FirstOf(TeamIds(d.teams), uuid);
      if t == |d.teams| then Unknown(d, ERR_UNKNOWN_TEAM, uuid)
      else
        var user, members := d.sessions[fd], d.teams[t].members;
        Answer(if user in members then d else d.(teams := WithMembers(d.teams, t, members + [user])),
               RES_SUBSCRIBE_OK, Encode([Str(d.teams[t].uuid)]))
  }

  function Unsubscribe(d: Data, fd: int, uuid: Bytes): Outcome {
    if fd !in d.sessions then Refuse(d, ERR_UNAUTHORIZED)
    else if |uuid| != 36 then Refuse(d, ERR_INVALID_COMMAND)
    else
      var t := FirstOf(TeamIds(d.teams), uuid);
      if t == |d.teams| then Unknown(d, ERR_UNKNOWN_TEAM, uuid)
      else
        var members := d.teams[t].members;
        var i := FirstOf(members, d.sessions[fd]);
        if i == |members| then Refuse(d, ERR_NOT_SUBSCRIBED)
        else Answer(d.(teams := WithMembers(d.teams, t, members[..i] + members[i + 1..])),
                    RES_UNSUBSCRIBE_OK, Encode([Str(d.teams[t].uuid)]))
  }

  function SubscribedTeams(d: Data, fd: int): Outcome {
    if fd !in d.sessions then Refuse(d, ERR_UNAUTHORIZED)
    else Answer(d, RES_SUBSCRIBED_TEAMS, EncodeList(TeamRows(TeamsOf(d.teams, d.sessions[fd]))))
  }

  function SubscribedUsers(d: Data, fd: int, uuid: Bytes): Outcome {
    if fd !in d.sessions then Refuse(d, ERR_UNAUTHORIZED)
    else if |uuid| != 36 then Refuse(d, ERR_INVALID_COMMAND)
    else
      var t := FirstOf(TeamIds(d.teams), uuid);
      if t == |d.teams| then Unknown(d, ERR_UNKNOWN_TEAM, uuid)
      else if d.sessions[fd] !in d.teams[t].members then Refuse(d, ERR_NOT_SUBSCRIBED)
      else Answer(d, RES_SUBSCRIBED_USERS,
                  EncodeList(StatusRows(d.sessions, UsersNamed(d.users, d.teams[t].members))))
  }

  // ---------------------------------------------------------------- contexts

  /** The context a CMD_USE payload asks for; None when it is too short or its level unknown. */
  function Requested(p: Bytes): Option<Context> {
    if p == [] then None
    else if p[0] == USE_NONE then Some(NO_CONTEXT)
    else if p[0] == USE_TEAM && |p| >= 37 then Some(Context(USE_TEAM, p[1..37], NO_UUID, NO_UUID))
    else if p[0] == USE_CHANNEL && |p| >= 73 then Some(Context(USE_CHANNEL, p[1..37], p[37..73], NO_UUID))
    else if p[0] == USE_THREAD && |p| >= 109 then Some(Context(USE_THREAD, p[1..37], p[37..73], p[73..109]))
    else None
  }

  /** The record that describes the entity a context stands on. */
  function Describe(teams: seq<Team>, p: Place): (uint16, Row)
    requires p.AtTeam? ==> p.t < |teams|
    requires p.AtChannel? ==> p.t < |teams| && p.c < |teams[p.t].channels|
    requires p.AtThread? ==> p.t < |teams| && p.c < |teams[p.t].channels| && p.k < |teams[p.t].channels[p.c].threads|
    requires p.AtTeam? || p.AtChannel? || p.AtThread?
  {
    match p
    case AtTeam(t) => (RES_TEAM_INFO, TeamRow(teams[t]))
    case AtChannel(t, c) => (RES_CHANNEL_INFO, ChannelRow(teams[t].channels[c]))
    case AtThread(t, c, k) => (RES_THREAD_INFO, ThreadRow(teams[t].channels[c].threads[k]))
  }

  function Use(d: Data, fd: int, p: Bytes): Outcome {
    if fd !in d.sessions then Refuse(d, ERR_UNAUTHORIZED)
    else match Requested(p)
      case None => Refuse(d, ERR_INVALID_COMMAND)
      case Some(c) =>
        var place := Locate(d.teams, c);
        var entered := d.(contexts := d.contexts[fd := c]);
        if place.AtRoot? then Answer(entered, RES_USER_DETAILS, Encode(Account(d.users, d.sessions[fd])))
        else if place.NoTeam? || place.NoLevel? then Unknown(d, ERR_UNKNOWN_TEAM, c.team)
        else if d.sessions[fd] !in d.teams[place.t].members then Refuse(d, ERR_NOT_SUBSCRIBED)
        else if place.NoChannel? then Unknown(d, ERR_UNKNOWN_CHANNEL, c.channel)
        else if place.NoThread? then Unknown(d, ERR_UNKNOWN_THREAD, c.thread)
        else
          var (code, row) := Describe(d.teams, place);
          Answer(entered, code, Encode(row))
  }

  function Info(d: Data, fd: int): Outcome {
    if fd !in d.sessions then Refuse(d, ERR_UNAUTHORIZED)
    else if fd !in d.contexts then Refuse(d, ERR_INVALID_COMMAND)
    else
      var place := Locate(d.teams, d.contexts[fd]);
      if place.AtRoot? then Answer(d, RES_USER_DETAILS, Encode(Account(d.users, d.sessions[fd])))
      else if place.NoTeam? then Refuse(d, ERR_UNKNOWN_TEAM)
      else if place.NoChannel? then Refuse(d, ERR_UNKNOWN_CHANNEL)
      else if place.NoThread? then Refuse(d, ERR_UNKNOWN_THREAD)
      else if place.NoLevel? then Refuse(d, ERR_INVALID_COMMAND)
      else
        var (code, row) := Describe(d.teams, place);
        Answer(d, code, Encode(row))
  }

  /** The records below a resolved context, and the code that carries them. */
  function Listing(teams: seq<Team>, c: Context): (uint16, seq<Row>)
    requires Locate(teams, c).Resolved()
  {
    match Locate(teams, c)
    case AtRoot => (RES_LIST_TEAMS, TeamRows(teams))
    case AtTeam(t) => (RES_LIST_CHANNELS, ChannelRows(teams[t].channels))
    case AtChannel(t, i) => (RES_LIST_THREADS, ThreadRows(teams[t].channels[i].threads))
    case AtThread(t, i, k) => (RES_LIST_REPLIES, ReplyRows(c.thread, teams[t].channels[i].threads[k].replies))
  }

  function List(d: Data, fd: int): Outcome {
    if fd !in d.sessions then Refuse(d, ERR_UNAUTHORIZED)
    else if fd !in d.contexts then Refuse(d, ERR_INVALID_COMMAND)
    else
      var place := Locate(d.teams, d.contexts[fd]);
      if place.NoTeam? then Refuse(d, ERR_UNKNOWN_TEAM)
      else if place.NoChannel? then Refuse(d, ERR_UNKNOWN_CHANNEL)
      else if place.NoThread? then Refuse(d, ERR_UNKNOWN_THREAD)
      else if place.NoLevel? then Refuse(d, ERR_INVALID_COMMAND)
      else
        var (code, rows) := Listing(d.teams, d.contexts[fd]);
        Answer(d, code, EncodeList(rows))
  }

  // ---------------------------------------------------------------- creation

  /** The payload size CMD_CREATE asks for at each context level. */
  function CreateSize(level: byte): nat {
    if level <= USE_TEAM then 32 + 255 else if level == USE_CHANNEL then 32 + 512 else 512
  }

  function AddChannel(teams: seq<Team>, t: nat, x: Channel): seq<Team>
    requires t < |teams|
  {
    teams[t := teams[t].(channels := teams[t].channels + [x])]
  }

  function WithChannel(teams: seq<Team>, t: nat, c: nat, x: Channel): seq<Team>
    requires t < |teams| && c < |teams[t].channels|
  {
    teams[t := teams[t].(channels := teams[t].channels[c := x])]
  }

  function AddThread(teams: seq<Team>, t: nat, c: nat, x: Thread): seq<Team>
    requires t < |teams| && c < |teams[t].channels|
  {
    var channel := teams[t].channels[c];
    WithChannel(teams, t, c, channel.(threads := channel.threads + [x]))
  }

  function AddReply(teams: seq<Team>, t: nat, c: nat, k: nat, x: Reply): seq<Team>
    requires t < |teams| && c < |teams[t].channels| && k < |teams[t].channels[c].threads|
  {
    var channel := teams[t].channels[c];
    var thread := channel.threads[k];
    WithChannel(teams, t, c, channel.(threads := channel.threads[k := thread.(replies := thread.replies + [x])]))
  }

  function Created(d: Data, code: uint16, event: uint16, row: Row, fds: seq<int>): Outcome {
    Outcome(d, Result(Packet(code, Encode(row)), [Push(Packet(event, Encode(row)), fds)]))
  }

  function CreateTeam(d: Data, p: Bytes, id: Uuid, user: Bytes): Outcome
    requires CreateSize(USE_NONE) <= |p|
  {
    var team := Team(id, p[..32], p[32..287], [], [user]);
    Created(d.(teams := d.teams + [team]), RES_TEAM_CREATED, EVT_TEAM_CREATED, TeamRow(team), SessionFds(d.sessions))
  }

  function Create(d: Data, fd: int, p: Bytes, id: Uuid, now: Image): Outcome {
    if fd !in d.sessions then Refuse(d, ERR_UNAUTHORIZED)
    else if fd !in d.contexts then Refuse(d, ERR_INVALID_COMMAND)
    else
      var user, c := d.sessions[fd], d.contexts[fd];
      var place := Locate(d.teams, c);
      if place.NoLevel? || |p| < CreateSize(c.level) then Refuse(d, ERR_INVALID_COMMAND)
      else if place.AtRoot? then CreateTeam(d, p, id, user)
      else if place.NoTeam? then Refuse(d, ERR_UNKNOWN_TEAM)
      else if user !in d.teams[place.t].members then Refuse(d, ERR_NOT_SUBSCRIBED)
      else if place.NoChannel? then Refuse(d, ERR_UNKNOWN_CHANNEL)
      else if place.NoThread? then Refuse(d, ERR_UNKNOWN_THREAD)
      else CreateIn(d, c, place, p, Fixed(user, 36), id, now)
  }

  function CreateChannel(d: Data, t: nat, p: Bytes, id: Uuid): Outcome
    requires t < |d.teams| && CreateSize(USE_TEAM) <= |p|
  {
    var x := Channel(id, p[..32], p[32..287], []);
    Created(d.(teams := AddChannel(d.teams, t, x)), RES_CHANNEL_CREATED, EVT_CHANNEL_CREATED,
            ChannelRow(x), MemberFds(d.sessions, d.teams[t].members))
  }

  function CreateThread(d: Data, t: nat, i: nat, p: Bytes, creator: Uuid, id: Uuid, now: Image): Outcome
    requires t < |d.teams| && i < |d.teams[t].channels| && CreateSize(USE_CHANNEL) <= |p|
  {
    var x := Thread(id, creator, p[..32], p[32..544], now, []);
    Created(d.(teams := AddThread(d.teams, t, i, x)), RES_THREAD_CREATED, EVT_THREAD_CREATED,
            ThreadRow(x), MemberFds(d.sessions, d.teams[t].members))
  }

  function CreateReply(d: Data, thread: Uuid, t: nat, i: nat, k: nat, p: Bytes, creator: Uuid, id: Uuid,
                       now: Image): Outcome
    requires t < |d.teams| && i < |d.teams[t].channels| && k < |d.teams[t].channels[i].threads|
    requires CreateSize(USE_THREAD) <= |p|
  {
    var x := Reply(id, creator, p[..512], now);
    Created(d.(teams := AddReply(d.teams, t, i, k, x)), RES_REPLY_CREATED, EVT_REPLY_CREATED,
            ReplyRow(thread, x), MemberFds(d.sessions, d.teams[t].members))
  }

  /** The three creations inside a team, by a member of it. */
  function CreateIn(d: Data, c: Context, place: Place, p: Bytes, creator: Uuid, id: Uuid, now: Image): Outcome
    requires place == Locate(d.teams, c) && (place.AtTeam? || place.AtChannel? || place.AtThread?)
    requires CreateSize(c.level) <= |p|
  {
    match place
    case AtTeam(t) => CreateChannel(d, t, p, id)
    case AtChannel(t, i) => CreateThread(d, t, i, p, creator, id, now)
    case AtThread(t, i, k) => CreateReply(d, c.thread, t, i, k, p, creator, id, now)
  }

  // ---------------------------------------------------------------- dispatch

  /** extract_sv */
  function Extract(p: Bytes, off: nat, size: nat): Bytes {
    if off + size > |p| then [] else p[off..off + size]
  }

  /** One request, as Server::_dispatch routes it. */
  function Handle(d: Data, fd: int, q: Packet, id: Uuid, now: Image): Outcome {
    var p := q.payload;
    if fd !in d.sessions && q.code != CMD_LOGIN then Refuse(d, ERR_UNAUTHORIZED)
    else if q.code == CMD_LOGIN then Login(d, fd, p, id)
    else if q.code == CMD_LOGOUT then Logout(d, fd)
    else if q.code == CMD_USERS then ListUsers(d, fd)
    else if q.code == CMD_USER then ShowUser(d, fd, Extract(p, 0, 36))
    else if q.code == CMD_SEND then Send(d, fd, Extract(p, 0, 36), Extract(p, 36, 512), now)
    else if q.code == CMD_MESSAGES then History(d, fd, Extract(p, 0, 36))
    else if q.code == CMD_SUBSCRIBE then Subscribe(d, fd, Extract(p, 0, 36))
    else if q.code == CMD_SUBSCRIBED then
      if p != [] && p[0] == 1 then SubscribedUsers(d, fd, Extract(p, 1, 36)) else SubscribedTeams(d, fd)
    else if q.code == CMD_UNSUBSCRIBE then Unsubscribe(d, fd, Extract(p, 0, 36))
    else if q.code == CMD_USE then Use(d, fd, p)
    else if q.code == CMD_CREATE then Create(d, fd, p, id, now)
    else if q.code == CMD_LIST then List(d, fd)
    else if q.code == CMD_INFO then Info(d, fd)
    else Refuse(d, ERR_INVALID_COMMAND)
  }
}
