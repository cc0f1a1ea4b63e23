/** What the server answers to each request and what it changes, from the request's bytes to the reply's. */
module Requests {
  import opened Octets
  import opened Words
  import opened Protocol
  import opened Records
  import opened ServerData
  import opened Handlers
  import opened Invariants
  import opened Soundness
  import opened Conversations
  import opened RoundTrips
  import opened Describing
  import opened Creation
  import opened CreatedContent

  /** An answer that nobody but the sender hears. */
  function Only(d: Data, code: uint16, payload: Bytes): Outcome { Outcome(d, Result(Packet(code, payload), [])) }

  // ---------------------------------------------------------------- payloads, byte by byte

  lemma {:induction false} EncodeOne(v: Value)
    ensures Encode([v]) == EncodeValue(v)
  {
    assert Encode([v]) == EncodeValue(v) + Encode([v][1..]);
  }

  lemma {:induction false} EncodeThen(v: Value, row: Row)
    ensures Encode([v] + row) == EncodeValue(v) + Encode(row)
  {
    assert ([v] + row)[1..] == row;
  }

  lemma {:induction false} EncodeThree(a: Value, b: Value, c: Value)
    ensures Encode([a, b, c]) == EncodeValue(a) + EncodeValue(b) + EncodeValue(c)
  {
    EncodeOne(c);
    EncodeThen(b, [c]);
    EncodeThen(a, [b, c]);
    assert [b] + [c] == [b, c] && [a] + [b, c] == [a, b, c];
    Associate(EncodeValue(a), EncodeValue(b), EncodeValue(c));
  }

  lemma {:induction false} EncodeFour(a: Value, b: Value, c: Value, d: Value)
    ensures Encode([a, b, c, d]) == EncodeValue(a) + EncodeValue(b) + EncodeValue(c) + EncodeValue(d)
  {
    EncodeThree(b, c, d);
    EncodeThen(a, [b, c, d]);
    assert [a] + [b, c, d] == [a, b, c, d];
    Associate(EncodeValue(a), EncodeValue(b) + EncodeValue(c), EncodeValue(d));
    Associate(EncodeValue(a), EncodeValue(b), EncodeValue(c));
  }

  lemma {:induction false} EncodeFive(a: Value, b: Value, c: Value, d: Value, e: Value)
    ensures Encode([a, b, c, d, e])
         == EncodeValue(a) + EncodeValue(b) + EncodeValue(c) + EncodeValue(d) + EncodeValue(e)
  {
    EncodeFour(b, c, d, e);
    EncodeThen(a, [b, c, d, e]);
    assert [a] + [b, c, d, e] == [a, b, c, d, e];
    var (x, y) := (EncodeValue(b) + EncodeValue(c), EncodeValue(d));
    Associate(EncodeValue(a), x + y, EncodeValue(e));
    Associate(EncodeValue(a), x, y);
    Associate(EncodeValue(a), EncodeValue(b), EncodeValue(c));
  }

  // ---------------------------------------------------------------- requests that no handler sees

  /** Without a session, nothing but a login gets through. */
  lemma {:induction false} NoSession(d: Data, fd: int, q: Packet, id: Uuid, now: Image)
    requires fd !in d.sessions && q.code != 0x01
    ensures Handle(d, fd, q, id, now) == Only(d, 0xE0, [])
  {
  }

  /** A code that is no request. */
  lemma {:induction false} NoSuchRequest(d: Data, fd: int, q: Packet, id: Uuid, now: Image)
    requires fd in d.sessions && (q.code == 0 || q.code > 0x0D)
    ensures Handle(d, fd, q, id, now) == Only(d, 0xE7, [])
  {
  }

  /** Which handler serves a request that changes nothing. */
  lemma {:induction false} ReaderRouted(d: Data, fd: int, q: Packet, id: Uuid, now: Image)
    requires fd in d.sessions
    ensures var (o, x) := (Handle(d, fd, q, id, now), Extract(q.payload, 0, 36));
            && (q.code == CMD_USERS ==> o == ListUsers(d, fd))
            && (q.code == CMD_USER ==> o == ShowUser(d, fd, x))
            && (q.code == CMD_MESSAGES ==> o == History(d, fd, x))
            && (q.code == CMD_INFO ==> o == Info(d, fd))
            && (q.code == CMD_LIST ==> o == List(d, fd))
  {
  }

  // ---------------------------------------------------------------- login and logout

  /**
   * A login opens a session of the first user of that name, or of a new user with the next id, in no context, and
   * answers id and stored name.
   */
  lemma {:induction false} LoginAnswered(d: Data, fd: int, q: Packet, id: Uuid, now: Image)
    requires UsersOk(d.users) && q.code == CMD_LOGIN && 0 !in id
    ensures var (o, name) := (Handle(d, fd, q, id, now), Trim(q.payload));
            var sessions := d.sessions;
            var contexts := d.contexts[fd := Context(USE_NONE, Zeros(36), Zeros(36), Zeros(36))];
            if name in UserNames(d.users) then
              var i := FirstOf(UserNames(d.users), name);
              var u := d.users[i];
              && o.data == d.(users := d.users[i := User(u.uuid, u.name, true)],
                              sessions := sessions[fd := u.uuid], contexts := contexts)
              && o.result.response == Packet(RES_LOGIN_OK, u.uuid + u.name)
            else
              && o.data == d.(users := d.users + [User(id, Fixed(name, 32), true)],
                              sessions := sessions[fd := id], contexts := contexts)
              && o.result.response == Packet(RES_LOGIN_OK, id + Fixed(name, 32))
  {
    var (users, i) := Enrol(d.users, Trim(q.payload), id);
    TrimNulFree(users[i].uuid);
    TwoTexts(users[i].uuid, users[i].name);
    Routes(d, fd, q, id, now);
  }

  /** A logout ends the session and its context, and answers id and stored name of the user. */
  lemma {:induction false} LogoutAnswered(d: Data, fd: int, q: Packet, id: Uuid, now: Image)
    requires DataOk(d) && fd in d.sessions && q.code == CMD_LOGOUT
    ensures var (o, i) := (Handle(d, fd, q, id, now), FirstOf(UserIds(d.users), d.sessions[fd]));
            && i < |d.users| && d.users[i].uuid == d.sessions[fd]
            && (var (u, sessions) := (d.users[i], d.sessions - {fd});
                && o.data == d.(users := d.users[i := User(u.uuid, u.name, Online(sessions, u.uuid))],
                                sessions := sessions, contexts := d.contexts - {fd})
                && o.result.response == Packet(RES_LOGOUT_OK, u.uuid + u.name))
  {
    var i := FirstOf(UserIds(d.users), d.sessions[fd]);
    assert UserIds(d.users)[i] == d.users[i].uuid;
    TwoTexts(d.users[i].uuid, d.users[i].name);
    Routes(d, fd, q, id, now);
  }

  // ---------------------------------------------------------------- users

  /** /users: the code, and every user with its status. */
  lemma {:induction false} UsersAnswered(d: Data, fd: int, q: Packet, id: Uuid, now: Image)
    requires DataOk(d) && fd in d.sessions && q.code == CMD_USERS
    ensures var (o, r) := (Handle(d, fd, q, id, now), Handle(d, fd, q, id, now).result.response);
            && o == Only(d, RES_USERS_LIST, r.payload)
            && (Small(r) ==> Decode(r) == (UserViews(d.sessions, d.users), []))
  {
    ReaderRouted(d, fd, q, id, now);
    if Small(ListUsers(d, fd).result.response) { UsersDecode(d, fd); }
  }

  lemma {:induction false} EncodeStatus(sessions: map<int, Bytes>, u: User)
    requires 0 !in u.uuid
    ensures Encode(StatusRow(sessions, u)) == u.uuid + u.name + [if Online(sessions, u.uuid) then 1 else 0]
  {
    var mark: byte := if Online(sessions, u.uuid) then 1 else 0;
    TrimNulFree(u.uuid);
    EncodeThree(Str(u.uuid), Str(u.name), Mark(mark));
    assert StatusRow(sessions, u) == [Str(u.uuid), Str(u.name), Mark(mark)];
  }

  lemma {:induction false} UserFound(d: Data, fd: int, x: Uuid)
    requires fd in d.sessions && x in UserIds(d.users)
    ensures ShowUser(d, fd, x)
         == Only(d, RES_USER_INFO, Encode(StatusRow(d.sessions, d.users[FirstOf(UserIds(d.users), x)])))
  {
  }

  lemma {:induction false} UserMissing(d: Data, fd: int, x: Uuid)
    requires fd in d.sessions && x !in UserIds(d.users)
    ensures ShowUser(d, fd, x) == Only(d, ERR_UNKNOWN_USER, x)
  {
    EchoIs(x);
  }

  lemma {:induction false} UserReply(d: Data, fd: int, x: Uuid)
    requires DataOk(d) && fd in d.sessions
    ensures ShowUser(d, fd, x)
         == if x !in UserIds(d.users) then Only(d, ERR_UNKNOWN_USER, x)
            else
              var u := d.users[FirstOf(UserIds(d.users), x)];
              Only(d, RES_USER_INFO, u.uuid + u.name + [if Online(d.sessions, u.uuid) then 1 else 0])
  {
    if x in UserIds(d.users) {
      UserFound(d, fd, x);
      EncodeStatus(d.sessions, d.users[FirstOf(UserIds(d.users), x)]);
    } else {
      UserMissing(d, fd, x);
    }
  }

  /** /user: the first 36 bytes must name a user; the answer is its id, stored name and status. */
  lemma {:induction false} UserAnswered(d: Data, fd: int, q: Packet, id: Uuid, now: Image)
    requires DataOk(d) && fd in d.sessions && q.code == CMD_USER
    ensures Handle(d, fd, q, id, now)
         == if |q.payload| < 36 then Only(d, ERR_INVALID_COMMAND, [])
            else if q.payload[..36] !in UserIds(d.users) then Only(d, ERR_UNKNOWN_USER, q.payload[..36])
            else
              var u := d.users[FirstOf(UserIds(d.users), q.payload[..36])];
              Only(d, RES_USER_INFO, u.uuid + u.name + [if Online(d.sessions, u.uuid) then 1 else 0])
  {
    var p := q.payload;
    ReaderRouted(d, fd, q, id, now);
    if |p| >= 36 { UserReply(d, fd, p[..36]); }
  }

  // ---------------------------------------------------------------- private messages

  /** /send: a registered receiver gets the letter, online or not; the body is empty if it came short. */
  lemma {:induction false} SendAnswered(d: Data, fd: int, q: Packet, id: Uuid, now: Image)
    requires DataOk(d) && fd in d.sessions && q.code == CMD_SEND
    ensures |d.sessions[fd]| == 36
    ensures var (o, p) := (Handle(d, fd, q, id, now), q.payload);
            if |p| < 36 then o == Only(d, ERR_INVALID_COMMAND, [])
            else if p[..36] !in UserIds(d.users) then o == Only(d, ERR_UNKNOWN_USER, p[..36])
            else
              var body := Fixed(Trim(if |p| < 548 then [] else p[36..548]), 512);
              && o.data == d.(letters := d.letters + [Letter(d.sessions[fd], p[..36], body, now)])
              && o.result.response == Packet(RES_SEND_OK, [])
  {
    var p := q.payload;
    var to := Extract(p, 0, 36);
    Routes(d, fd, q, id, now);
    SendLogs(d, fd, to, Extract(p, 36, 512), now);
    SendDecides(d, fd, to, Extract(p, 36, 512), now);
    if |p| >= 36 { EchoIs(p[..36]); }
  }

  /** /messages: the letters exchanged with a registered user. */
  lemma {:induction false} HistoryAnswered(d: Data, fd: int, q: Packet, id: Uuid, now: Image)
    requires fd in d.sessions && q.code == CMD_MESSAGES
    ensures var p := q.payload;
            Handle(d, fd, q, id, now)
              == if |p| < 36 then Only(d, ERR_INVALID_COMMAND, [])
                 else if p[..36] !in UserIds(d.users) then Only(d, ERR_UNKNOWN_USER, p[..36])
                 else Only(d, RES_MESSAGES_LIST,
                           EncodeList(LetterRows(Conversation(d.letters, d.sessions[fd], p[..36]))))
  {
    ReaderRouted(d, fd, q, id, now);
    HistoryDecides(d, fd, Extract(q.payload, 0, 36));
  }

  // ---------------------------------------------------------------- subscriptions

  /** /subscribe: the sender is put at the end of the members of the first team of that id, once. */
  lemma {:induction false} SubscribeAnswered(d: Data, fd: int, q: Packet, id: Uuid, now: Image)
    requires fd in d.sessions && q.code == CMD_SUBSCRIBE
    ensures var (o, p, user) := (Handle(d, fd, q, id, now), q.payload, d.sessions[fd]);
            if |p| < 36 then o == Only(d, ERR_INVALID_COMMAND, [])
            else if p[..36] !in TeamIds(d.teams) then o == Only(d, ERR_UNKNOWN_TEAM, p[..36])
            else
              var t := FirstOf(TeamIds(d.teams), p[..36]);
              var team := d.teams[t];
              o == Only(if user in team.members then d
                        else d.(teams := d.teams[t := team.(members := team.members + [user])]),
                        RES_SUBSCRIBE_OK, p[..36])
  {
    Routes(d, fd, q, id, now);
    if |q.payload| >= 36 { EchoTeam(d, q.payload[..36]); }
  }

  lemma {:induction false} EchoTeam(d: Data, x: Uuid)
    ensures Encode([Str(Fixed(x, 36))]) == x
    ensures var t := FirstOf(TeamIds(d.teams), x);
            t < |d.teams| ==> d.teams[t].uuid == x && Encode([Str(d.teams[t].uuid)]) == x
  {
    EchoIs(x);
    EncodeOne(Str(x));
    var t := FirstOf(TeamIds(d.teams), x);
    if t < |d.teams| { assert TeamIds(d.teams)[t] == d.teams[t].uuid; }
  }

  /** /unsubscribe: the sender's first entry among the members of the first team of that id is taken out. */
  lemma {:induction false} UnsubscribeAnswered(d: Data, fd: int, q: Packet, id: Uuid, now: Image)
    requires fd in d.sessions && q.code == CMD_UNSUBSCRIBE
    ensures var (o, p, user) := (Handle(d, fd, q, id, now), q.payload, d.sessions[fd]);
            if |p| < 36 then o == Only(d, ERR_INVALID_COMMAND, [])
            else if p[..36] !in TeamIds(d.teams) then o == Only(d, ERR_UNKNOWN_TEAM, p[..36])
            else
              var t := FirstOf(TeamIds(d.teams), p[..36]);
              var team := d.teams[t];
              if user !in team.members then o == Only(d, ERR_NOT_SUBSCRIBED, [])
              else
                var i := FirstOf(team.members, user);
                o == Only(d.(teams := d.teams[t := team.(members := team.members[..i] + team.members[i + 1..])]),
                          RES_UNSUBSCRIBE_OK, p[..36])
  {
    Routes(d, fd, q, id, now);
    if |q.payload| >= 36 { EchoTeam(d, q.payload[..36]); }
  }

  lemma {:induction false} SubscribedRouted(d: Data, fd: int, q: Packet, id: Uuid, now: Image)
    requires fd in d.sessions && q.code == CMD_SUBSCRIBED
    ensures Handle(d, fd, q, id, now)
         == if q.payload != [] && q.payload[0] == 1 then SubscribedUsers(d, fd, Extract(q.payload, 1, 36))
            else SubscribedTeams(d, fd)
  {
  }

  lemma {:induction false} TeamsReply(d: Data, fd: int) returns (picks: seq<nat>)
    requires fd in d.sessions
    ensures Memberships(picks, d.teams, d.sessions[fd])
    ensures SubscribedTeams(d, fd)
         == Only(d, RES_SUBSCRIBED_TEAMS, EncodeList(TeamRows(Chosen(d.teams, picks))))
  {
    picks := TeamsOfSelects(d.teams, d.sessions[fd]);
  }

  /** /subscribed, asked without a 1 in front: the teams that have the user as a member, each once, in order. */
  lemma {:induction false} TeamsAnswered(d: Data, fd: int, q: Packet, id: Uuid, now: Image) returns (picks: seq<nat>)
    requires fd in d.sessions && q.code == CMD_SUBSCRIBED && (q.payload == [] || q.payload[0] != 1)
    ensures Memberships(picks, d.teams, d.sessions[fd])
    ensures var (o, r) := (Handle(d, fd, q, id, now), Handle(d, fd, q, id, now).result.response);
            && o == Only(d, RES_SUBSCRIBED_TEAMS, r.payload)
            && (Small(r) ==> Decode(r) == (TeamViews(Chosen(d.teams, picks)), []))
  {
    SubscribedRouted(d, fd, q, id, now);
    picks := TeamsReply(d, fd);
    var payload := EncodeList(TeamRows(Chosen(d.teams, picks)));
    if Small(Packet(RES_SUBSCRIBED_TEAMS, payload)) { TeamsBack(RES_SUBSCRIBED_TEAMS, Chosen(d.teams, picks)); }
  }

  lemma {:induction false} MembersRefused(d: Data, fd: int, x: Bytes)
    requires fd in d.sessions
    ensures var (o, t) := (SubscribedUsers(d, fd, x), FirstOf(TeamIds(d.teams), x));
            && (|x| != 36 ==> o == Only(d, ERR_INVALID_COMMAND, []))
            && (|x| == 36 && x !in TeamIds(d.teams) ==> o == Only(d, ERR_UNKNOWN_TEAM, x))
            && (|x| == 36 && x in TeamIds(d.teams) && d.sessions[fd] !in d.teams[t].members ==>
                  o == Only(d, ERR_NOT_SUBSCRIBED, []))
  {
    if |x| == 36 { EchoIs(x); }
  }

  /** /subscribed, asked with a 1 and an id: the members of that team, for members only. */
  lemma {:induction false} MembersAnswered(d: Data, fd: int, q: Packet, id: Uuid, now: Image)
    requires DataOk(d) && fd in d.sessions && q.code == CMD_SUBSCRIBED && q.payload != [] && q.payload[0] == 1
    ensures var (o, p, r) := (Handle(d, fd, q, id, now), q.payload, Handle(d, fd, q, id, now).result.response);
            if |p| < 37 then o == Only(d, ERR_INVALID_COMMAND, [])
            else if p[1..37] !in TeamIds(d.teams) then o == Only(d, ERR_UNKNOWN_TEAM, p[1..37])
            else
              var members := d.teams[FirstOf(TeamIds(d.teams), p[1..37])].members;
              if d.sessions[fd] !in members then o == Only(d, ERR_NOT_SUBSCRIBED, [])
              else
                var found := UsersNamed(d.users, members);
                && UserIds(found) == members && (forall i | 0 <= i < |found| :: found[i] in d.users)
                && o == Only(d, RES_SUBSCRIBED_USERS, r.payload)
                && (Small(r) ==> Decode(r) == (UserViews(d.sessions, found), []))
  {
    var p := q.payload;
    var x := Extract(p, 1, 36);
    SubscribedRouted(d, fd, q, id, now);
    MembersRefused(d, fd, x);
    if x in TeamIds(d.teams) && |x| == 36 && d.sessions[fd] in d.teams[FirstOf(TeamIds(d.teams), x)].members {
      NamedAreUsers(d.users, d.teams[FirstOf(TeamIds(d.teams), x)].members);
      SubscribedUsersReply(d, fd, x);
      if Small(SubscribedUsers(d, fd, x).result.response) { SubscribedUsersDecode(d, fd, x); }
    }
  }

  // ---------------------------------------------------------------- contexts

  /** What a /use that goes through leaves and answers. */
  ghost predicate WentTo(d: Data, fd: int, o: Outcome, c: Context, code: uint16) {
    o == Only(d.(contexts := d.contexts[fd := c]), code, o.result.response.payload)
  }

  lemma {:induction false} UseTeamAnswered(d: Data, fd: int, p: Bytes)
    requires fd in d.sessions && |p| >= 37 && p[0] == USE_TEAM
    ensures var o := Use(d, fd, p);
            if p[1..37] !in TeamIds(d.teams) then o == Only(d, ERR_UNKNOWN_TEAM, p[1..37])
            else if d.sessions[fd] !in d.teams[FirstOf(TeamIds(d.teams), p[1..37])].members then
              o == Only(d, ERR_NOT_SUBSCRIBED, [])
            else WentTo(d, fd, o, Context(USE_TEAM, p[1..37], NO_UUID, NO_UUID), RES_TEAM_INFO)
  {
    LocateLeads(d.teams, Context(USE_TEAM, p[1..37], NO_UUID, NO_UUID));
    EchoIs(p[1..37]);
  }

  lemma {:induction false} UseChannelAnswered(d: Data, fd: int, p: Bytes)
    requires fd in d.sessions && |p| >= 73 && p[0] == USE_CHANNEL
    ensures var o := Use(d, fd, p);
            if p[1..37] !in TeamIds(d.teams) then o == Only(d, ERR_UNKNOWN_TEAM, p[1..37])
            else
              var team := d.teams[FirstOf(TeamIds(d.teams), p[1..37])];
              if d.sessions[fd] !in team.members then o == Only(d, ERR_NOT_SUBSCRIBED, [])
              else if p[37..73] !in ChannelIds(team.channels) then o == Only(d, ERR_UNKNOWN_CHANNEL, p[37..73])
              else WentTo(d, fd, o, Context(USE_CHANNEL, p[1..37], p[37..73], NO_UUID), RES_CHANNEL_INFO)
  {
    LocateLeads(d.teams, Context(USE_CHANNEL, p[1..37], p[37..73], NO_UUID));
    EchoIs(p[1..37]);
    EchoIs(p[37..73]);
  }

  lemma {:induction false} UseThreadAnswered(d: Data, fd: int, p: Bytes)
    requires fd in d.sessions && |p| >= 109 && p[0] == USE_THREAD
    ensures var o := Use(d, fd, p);
            if p[1..37] !in TeamIds(d.teams) then o == Only(d, ERR_UNKNOWN_TEAM, p[1..37])
            else
              var team := d.teams[FirstOf(TeamIds(d.teams), p[1..37])];
              if d.sessions[fd] !in team.members then o == Only(d, ERR_NOT_SUBSCRIBED, [])
              else if p[37..73] !in ChannelIds(team.channels) then o == Only(d, ERR_UNKNOWN_CHANNEL, p[37..73])
              else
                var channel := team.channels[FirstOf(ChannelIds(team.channels), p[37..73])];
                if p[73..109] !in ThreadIds(channel.threads) then o == Only(d, ERR_UNKNOWN_THREAD, p[73..109])
                else WentTo(d, fd, o, Context(USE_THREAD, p[1..37], p[37..73], p[73..109]), RES_THREAD_INFO)
  {
    LocateLeads(d.teams, Context(USE_THREAD, p[1..37], p[37..73], p[73..109]));
    EchoIs(p[1..37]);
    EchoIs(p[37..73]);
    EchoIs(p[73..109]);
  }

  lemma {:induction false} UseRootAnswered(d: Data, fd: int, p: Bytes)
    requires fd in d.sessions
    ensures p == [] || p[0] > 3 || |p| < 1 + 36 * p[0] ==> Use(d, fd, p) == Only(d, ERR_INVALID_COMMAND, [])
    ensures p != [] && p[0] == USE_NONE ==> WentTo(d, fd, Use(d, fd, p), NO_CONTEXT, RES_USER_DETAILS)
  {
  }

  /**
   * /use, field by field: the level says how many ids follow; the team must exist, then the sender be a member of
   * it, then the channel exist in it, then the thread in that. A refusal changes nothing and names the id it is
   * about.
   */
  lemma {:induction false} UseAnswered(d: Data, fd: int, q: Packet, id: Uuid, now: Image)
    requires fd in d.sessions && q.code == CMD_USE
    ensures var (o, p) := (Handle(d, fd, q, id, now), q.payload);
            if p == [] || p[0] > 3 || |p| < 1 + 36 * p[0] then o == Only(d, ERR_INVALID_COMMAND, [])
            else if p[0] == 0 then WentTo(d, fd, o, NO_CONTEXT, RES_USER_DETAILS)
            else if p[1..37] !in TeamIds(d.teams) then o == Only(d, ERR_UNKNOWN_TEAM, p[1..37])
            else
              var team := d.teams[FirstOf(TeamIds(d.teams), p[1..37])];
              if d.sessions[fd] !in team.members then o == Only(d, ERR_NOT_SUBSCRIBED, [])
              else if p[0] == 1 then
                WentTo(d, fd, o, Context(USE_TEAM, p[1..37], NO_UUID, NO_UUID), RES_TEAM_INFO)
              else if p[37..73] !in ChannelIds(team.channels) then o == Only(d, ERR_UNKNOWN_CHANNEL, p[37..73])
              else if p[0] == 2 then
                WentTo(d, fd, o, Context(USE_CHANNEL, p[1..37], p[37..73], NO_UUID), RES_CHANNEL_INFO)
              else
                var channel := team.channels[FirstOf(ChannelIds(team.channels), p[37..73])];
                if p[73..109] !in ThreadIds(channel.threads) then o == Only(d, ERR_UNKNOWN_THREAD, p[73..109])
                else WentTo(d, fd, o, Context(USE_THREAD, p[1..37], p[37..73], p[73..109]), RES_THREAD_INFO)
  {
    var p := q.payload;
    Routes(d, fd, q, id, now);
    UseRootAnswered(d, fd, p);
    if |p| >= 37 && p[0] == USE_TEAM { UseTeamAnswered(d, fd, p); }
    if |p| >= 73 && p[0] == USE_CHANNEL { UseChannelAnswered(d, fd, p); }
    if |p| >= 109 && p[0] == USE_THREAD { UseThreadAnswered(d, fd, p); }
  }

  lemma {:induction false} InfoOnly(d: Data, fd: int)
    ensures var r := Info(d, fd).result.response; Info(d, fd) == Only(d, r.code, r.payload)
  {
  }

  /** /info in a reachable state: what the context stands on, under the code of its level. */
  lemma {:induction false} InfoAnswered(d: Data, fd: int, q: Packet, id: Uuid, now: Image)
    requires DataOk(d) && fd in d.sessions && q.code == CMD_INFO
    ensures fd in d.contexts
    ensures var (o, r) := (Handle(d, fd, q, id, now), Handle(d, fd, q, id, now).result.response);
            o == Only(d, r.code, r.payload) && Describes(d, d.sessions[fd], d.contexts[fd], r)
  {
    ReaderRouted(d, fd, q, id, now);
    InfoOnly(d, fd);
    InfoDecodes(d, fd);
  }

  lemma {:induction false} ListOnly(d: Data, fd: int)
    ensures var r := List(d, fd).result.response; List(d, fd) == Only(d, r.code, r.payload)
  {
  }

  /** /list in a reachable state: the entities one level below the context, under the code of its level. */
  lemma {:induction false} ListAnswered(d: Data, fd: int, q: Packet, id: Uuid, now: Image)
    requires DataOk(d) && fd in d.sessions && q.code == CMD_LIST
    ensures fd in d.contexts
    ensures var (o, r) := (Handle(d, fd, q, id, now), Handle(d, fd, q, id, now).result.response);
            o == Only(d, r.code, r.payload) && (Small(r) ==> Lists(d.teams, d.contexts[fd], r))
  {
    assert fd in d.contexts;
    ReaderRouted(d, fd, q, id, now);
    ListOnly(d, fd);
    if Small(List(d, fd).result.response) { ListDecodes(d, fd); }
  }

  // ---------------------------------------------------------------- creation

  /** A creation that goes through: the new tree, and one payload for the reply and the event. */
  function Made(d: Data, teams: seq<Team>, level: byte, payload: Bytes, fds: seq<int>): Outcome
    requires level <= USE_THREAD
  {
    Outcome(d.(teams := teams),
            Result(Packet(0x1A + level, payload), [Push(Packet(0xF1 + level, payload), fds)]))
  }

  /** /create at the root: a team without channels, with its creator as only member, for all sessions to hear of. */
  lemma {:induction false} TeamCreated(d: Data, fd: int, q: Packet, id: Uuid, now: Image)
    requires fd in d.sessions && fd in d.contexts && q.code == CMD_CREATE && d.contexts[fd].level == USE_NONE
    ensures var p := q.payload;
            Handle(d, fd, q, id, now)
              == if |p| < 287 then Only(d, ERR_INVALID_COMMAND, [])
                 else Made(d, d.teams + [Team(id, p[..32], p[32..287], [], [d.sessions[fd]])], 0, id + p[..287],
                           SessionFds(d.sessions))
  {
    var p := q.payload;
    Routes(d, fd, q, id, now);
    if |p| >= 287 {
      EncodeThree(Str(id), Str(p[..32]), Str(p[32..287]));
      assert p[..32] + p[32..287] == p[..287];
      Associate(id, p[..32], p[32..287]);
    }
  }

  lemma {:induction false} CreateInside(d: Data, fd: int, q: Packet, id: Uuid, now: Image)
    requires DataOk(d) && fd in d.sessions && fd in d.contexts && q.code == CMD_CREATE
    requires d.contexts[fd].level != USE_NONE
    ensures var (c, user) := (d.contexts[fd], d.sessions[fd]);
            var place := Locate(d.teams, c);
            && place.Resolved() && |user| == 36
            && Handle(d, fd, q, id, now)
                 == if |q.payload| < CreateSize(c.level) then Only(d, ERR_INVALID_COMMAND, [])
                    else if user !in d.teams[place.t].members then Only(d, ERR_NOT_SUBSCRIBED, [])
                    else CreateIn(d, c, place, q.payload, user, id, now)
  {
    Routes(d, fd, q, id, now);
    SessionId(d, fd);
    assert Locate(d.teams, d.contexts[fd]).Resolved();
  }

  lemma {:induction false} ChannelMade(d: Data, t: nat, p: Bytes, id: Uuid)
    requires t < |d.teams| && |p| >= 287
    ensures var team := d.teams[t];
            CreateChannel(d, t, p, id)
              == Made(d, d.teams[t := team.(channels := team.channels + [Channel(id, p[..32], p[32..287], [])])],
                      1, id + p[..287], MemberFds(d.sessions, team.members))
  {
    EncodeThree(Str(id), Str(p[..32]), Str(p[32..287]));
    assert p[..32] + p[32..287] == p[..287];
    Associate(id, p[..32], p[32..287]);
  }

  lemma {:induction false} ThreadMade(d: Data, t: nat, i: nat, p: Bytes, user: Uuid, id: Uuid, now: Image)
    requires t < |d.teams| && i < |d.teams[t].channels| && |p| >= 544
    ensures var team := d.teams[t];
            var channel := team.channels[i];
            var x := Thread(id, user, p[..32], p[32..544], now, []);
            CreateThread(d, t, i, p, user, id, now)
              == Made(d, d.teams[t := team.(channels := team.channels[i := channel.(threads := channel.threads
                                                                                             + [x])])],
                      2, id + user + Flip(now) + p[..544], MemberFds(d.sessions, team.members))
  {
    EncodeFive(Str(id), Str(user), At(now), Str(p[..32]), Str(p[32..544]));
    assert p[..32] + p[32..544] == p[..544];
    Associate(id + user + Flip(now), p[..32], p[32..544]);
  }

  /** /create in a team: members add a channel without threads. */
  lemma {:induction false} ChannelCreated(d: Data, fd: int, q: Packet, id: Uuid, now: Image, t: nat)
    requires DataOk(d) && fd in d.sessions && fd in d.contexts && q.code == CMD_CREATE
    requires Locate(d.teams, d.contexts[fd]) == AtTeam(t)
    ensures var (p, team) := (q.payload, d.teams[t]);
            Handle(d, fd, q, id, now)
              == if |p| < 287 then Only(d, ERR_INVALID_COMMAND, [])
                 else if d.sessions[fd] !in team.members then Only(d, ERR_NOT_SUBSCRIBED, [])
                 else Made(d, d.teams[t := team.(channels := team.channels
                                                           + [Channel(id, p[..32], p[32..287], [])])],
                           1, id + p[..287], MemberFds(d.sessions, team.members))
  {
    LevelOf(d.teams, d.contexts[fd]);
    CreateInside(d, fd, q, id, now);
    if |q.payload| >= 287 { ChannelMade(d, t, q.payload, id); }
  }

  /** /create in a channel: members add a thread without replies, under their id and the server's time. */
  lemma {:induction false} ThreadCreated(d: Data, fd: int, q: Packet, id: Uuid, now: Image, t: nat, i: nat)
    requires DataOk(d) && fd in d.sessions && fd in d.contexts && q.code == CMD_CREATE
    requires Locate(d.teams, d.contexts[fd]) == AtChannel(t, i)
    ensures |d.sessions[fd]| == 36
    ensures var (p, user, team) := (q.payload, d.sessions[fd], d.teams[t]);
            var channel := team.channels[i];
            Handle(d, fd, q, id, now)
              == if |p| < 544 then Only(d, ERR_INVALID_COMMAND, [])
                 else if user !in team.members then Only(d, ERR_NOT_SUBSCRIBED, [])
                 else
                   var x := Thread(id, user, p[..32], p[32..544], now, []);
                   Made(d, d.teams[t := team.(channels := team.channels[i := channel.(threads := channel.threads
                                                                                               + [x])])],
                        2, id + user + Flip(now) + p[..544], MemberFds(d.sessions, team.members))
  {
    LevelOf(d.teams, d.contexts[fd]);
    CreateInside(d, fd, q, id, now);
    if |q.payload| >= 544 { ThreadMade(d, t, i, q.payload, d.sessions[fd], id, now); }
  }

  /** /create in a thread: members add a reply, announced under the thread's id. */
  lemma {:induction false} ReplyCreated(d: Data, fd: int, q: Packet, id: Uuid, now: Image, t: nat, i: nat, k: nat)
    requires DataOk(d) && fd in d.sessions && fd in d.contexts && q.code == CMD_CREATE
    requires Locate(d.teams, d.contexts[fd]) == AtThread(t, i, k)
    ensures |d.sessions[fd]| == 36
    ensures var (p, user, team) := (q.payload, d.sessions[fd], d.teams[t]);
            var channel := team.channels[i];
            var thread := channel.threads[k];
            Handle(d, fd, q, id, now)
              == if |p| < 512 then Only(d, ERR_INVALID_COMMAND, [])
                 else if user !in team.members then Only(d, ERR_NOT_SUBSCRIBED, [])
                 else
                   var y := thread.(replies := thread.replies + [Reply(id, user, p[..512], now)]);
                   Made(d, d.teams[t := team.(channels := team.channels[i := channel.(threads := channel.threads
                                                                                                [k := y])])],
                        3, d.contexts[fd].thread + user + Flip(now) + p[..512], MemberFds(d.sessions, team.members))
  {
    var (p, user) := (q.payload, d.sessions[fd]);
    LevelOf(d.teams, d.contexts[fd]);
    CreateInside(d, fd, q, id, now);
    if |p| >= 512 { EncodeFour(Str(d.contexts[fd].thread), Str(user), At(now), Str(p[..512])); }
  }
}
