/** mtp::Business: the fourteen handlers, in place over the shared data. Each does what its specification says. */
module Business {
  import opened Octets
  import opened Words
  import opened Protocol
  import opened Records
  import opened ServerData
  import opened Handlers
  import opened Store

  lemma {:induction false} OneId(x: Uuid)
    ensures Encode([Str(x)]) == x
  {
    assert Encode([Str(x)]) == x + Encode([Str(x)][1..]);
  }

  lemma {:induction false} StatusRowsSnoc(sessions: map<int, Bytes>, s: seq<User>, i: nat)
    requires i < |s|
    ensures StatusRows(sessions, s[..i + 1]) == StatusRows(sessions, s[..i]) + [StatusRow(sessions, s[i])]
  {
  }

  lemma {:induction false} TeamRowsSnoc(s: seq<Team>, i: nat)
    requires i < |s|
    ensures TeamRows(s[..i + 1]) == TeamRows(s[..i]) + [TeamRow(s[i])]
  {
  }

  lemma {:induction false} ChannelRowsSnoc(s: seq<Channel>, i: nat)
    requires i < |s|
    ensures ChannelRows(s[..i + 1]) == ChannelRows(s[..i]) + [ChannelRow(s[i])]
  {
  }

  lemma {:induction false} ThreadRowsSnoc(s: seq<Thread>, i: nat)
    requires i < |s|
    ensures ThreadRows(s[..i + 1]) == ThreadRows(s[..i]) + [ThreadRow(s[i])]
  {
  }

  lemma {:induction false} ReplyRowsSnoc(thread: Uuid, s: seq<Reply>, i: nat)
    requires i < |s|
    ensures ReplyRows(thread, s[..i + 1]) == ReplyRows(thread, s[..i]) + [ReplyRow(thread, s[i])]
  {
  }

  lemma {:induction false} LetterRowsSnoc(s: seq<Letter>, i: nat)
    requires i < |s|
    ensures LetterRows(s[..i + 1]) == LetterRows(s[..i]) + [LetterRow(s[i])]
  {
  }

  /** One record more at the end of a counted payload. */
  lemma {:induction false} RecordMore(count: Bytes, rows: seq<Row>, row: Row)
    ensures count + EncodeRows(rows) + Encode(row) == count + EncodeRows(rows + [row])
  {
    EncodeRowsSnoc(rows, row);
    Associate(count, EncodeRows(rows), Encode(row));
  }

  // ---------------------------------------------------------------- branches of the specification

  lemma {:induction false} UseUnknownTeam(d: Data, fd: int, p: Bytes, c: Context)
    requires fd in d.sessions && Requested(p) == Some(c) && c.level != USE_NONE && c.team !in TeamIds(d.teams)
    ensures Use(d, fd, p) == Unknown(d, ERR_UNKNOWN_TEAM, c.team)
  {
  }

  lemma {:induction false} UseForbidden(d: Data, fd: int, p: Bytes, c: Context, t: nat)
    requires fd in d.sessions && Requested(p) == Some(c) && c.level != USE_NONE
    requires t < |d.teams| && t == FirstOf(TeamIds(d.teams), c.team) && d.sessions[fd] !in d.teams[t].members
    ensures Use(d, fd, p) == Refuse(d, ERR_NOT_SUBSCRIBED)
  {
  }

  lemma {:induction false} UseUnknownChannel(d: Data, fd: int, p: Bytes, c: Context, t: nat)
    requires fd in d.sessions && Requested(p) == Some(c) && c.level >= USE_CHANNEL
    requires t < |d.teams| && t == FirstOf(TeamIds(d.teams), c.team) && d.sessions[fd] in d.teams[t].members
    requires c.channel !in ChannelIds(d.teams[t].channels)
    ensures Use(d, fd, p) == Unknown(d, ERR_UNKNOWN_CHANNEL, c.channel)
  {
  }

  /** A /use that goes through. */
  lemma {:induction false} UseEntered(d: Data, fd: int, p: Bytes, c: Context)
    requires fd in d.sessions && Requested(p) == Some(c)
    requires Locate(d.teams, c).Resolved() && !Locate(d.teams, c).AtRoot?
    requires d.sessions[fd] in d.teams[Locate(d.teams, c).t].members
    ensures var (code, row) := Describe(d.teams, Locate(d.teams, c));
            Use(d, fd, p) == Answer(d.(contexts := d.contexts[fd := c]), code, Encode(row))
  {
  }

  lemma {:induction false} ChannelFound(teams: seq<Team>, c: Context, t: nat, i: nat)
    requires c.level >= USE_CHANNEL && t < |teams| && t == FirstOf(TeamIds(teams), c.team)
    requires i < |teams[t].channels| && i == FirstOf(ChannelIds(teams[t].channels), c.channel)
    ensures c.level == USE_CHANNEL ==> Locate(teams, c) == AtChannel(t, i)
    ensures c.level == USE_THREAD && c.thread !in ThreadIds(teams[t].channels[i].threads)
        ==> Locate(teams, c) == NoThread(t, i)
  {
  }

  lemma {:induction false} ThreadFound(teams: seq<Team>, c: Context, t: nat, i: nat, k: nat)
    requires c.level == USE_THREAD && t < |teams| && t == FirstOf(TeamIds(teams), c.team)
    requires i < |teams[t].channels| && i == FirstOf(ChannelIds(teams[t].channels), c.channel)
    requires k < |teams[t].channels[i].threads| && k == FirstOf(ThreadIds(teams[t].channels[i].threads), c.thread)
    ensures Locate(teams, c) == AtThread(t, i, k)
  {
  }

  lemma {:induction false} UseUnknownThread(d: Data, fd: int, p: Bytes, c: Context, t: nat, i: nat)
    requires fd in d.sessions && Requested(p) == Some(c)
    requires Locate(d.teams, c) == NoThread(t, i) && d.sessions[fd] in d.teams[t].members
    ensures Use(d, fd, p) == Unknown(d, ERR_UNKNOWN_THREAD, c.thread)
  {
  }

  lemma {:induction false} CreateNowhere(d: Data, fd: int, p: Bytes, id: Uuid, now: Image)
    requires fd in d.sessions && fd in d.contexts && CreateSize(d.contexts[fd].level) <= |p|
    requires d.contexts[fd].level != USE_NONE && d.contexts[fd].level <= USE_THREAD
    requires d.contexts[fd].team !in TeamIds(d.teams)
    ensures Create(d, fd, p, id, now) == Refuse(d, ERR_UNKNOWN_TEAM)
  {
  }

  lemma {:induction false} CreateForbidden(d: Data, fd: int, p: Bytes, id: Uuid, now: Image, t: nat)
    requires fd in d.sessions && fd in d.contexts && CreateSize(d.contexts[fd].level) <= |p|
    requires d.contexts[fd].level != USE_NONE && d.contexts[fd].level <= USE_THREAD
    requires t < |d.teams| && t == FirstOf(TeamIds(d.teams), d.contexts[fd].team)
    requires d.sessions[fd] !in d.teams[t].members
    ensures Create(d, fd, p, id, now) == Refuse(d, ERR_NOT_SUBSCRIBED)
  {
  }

  lemma {:induction false} CreateUnknownChannel(d: Data, fd: int, p: Bytes, id: Uuid, now: Image, t: nat)
    requires fd in d.sessions && fd in d.contexts && CreateSize(d.contexts[fd].level) <= |p|
    requires USE_CHANNEL <= d.contexts[fd].level <= USE_THREAD
    requires t < |d.teams| && t == FirstOf(TeamIds(d.teams), d.contexts[fd].team)
    requires d.sessions[fd] in d.teams[t].members && d.contexts[fd].channel !in ChannelIds(d.teams[t].channels)
    ensures Create(d, fd, p, id, now) == Refuse(d, ERR_UNKNOWN_CHANNEL)
  {
  }

  lemma {:induction false} CreateUnknownThread(d: Data, fd: int, p: Bytes, id: Uuid, now: Image, t: nat, i: nat)
    requires fd in d.sessions && fd in d.contexts && CreateSize(d.contexts[fd].level) <= |p|
    requires Locate(d.teams, d.contexts[fd]) == NoThread(t, i) && d.sessions[fd] in d.teams[t].members
    ensures Create(d, fd, p, id, now) == Refuse(d, ERR_UNKNOWN_THREAD)
  {
  }

  /** A creation inside a team that goes through. */
  lemma {:induction false} CreateEntered(d: Data, fd: int, p: Bytes, id: Uuid, now: Image)
    requires fd in d.sessions && |d.sessions[fd]| == 36 && fd in d.contexts && CreateSize(d.contexts[fd].level) <= |p|
    requires Locate(d.teams, d.contexts[fd]).Resolved() && !Locate(d.teams, d.contexts[fd]).AtRoot?
    requires d.sessions[fd] in d.teams[Locate(d.teams, d.contexts[fd]).t].members
    ensures var (c, place) := (d.contexts[fd], Locate(d.teams, d.contexts[fd]));
            Create(d, fd, p, id, now) == CreateIn(d, c, place, p, d.sessions[fd], id, now)
  {
    FixedSame(d.sessions[fd]);
  }

  method Fail(code: uint16) returns (res: Result)
    ensures res == Result(Packet(code, []), [])
  {
    res := Result(Packet(code, []), []);
  }

  /** A refusal with the 36 bytes that named nothing. */
  method FailOn(code: uint16, uuid: Bytes) returns (res: Result)
    requires |uuid| == 36
    ensures res == Result(Packet(code, Encode([Str(Fixed(uuid, 36))])), [])
  {
    FixedSame(uuid);
    OneId(uuid);
    res := Result(Packet(code, uuid), []);
  }

  // ---------------------------------------------------------------- counted payloads

  method PackTeams(teams: seq<Team>) returns (payload: Bytes)
    ensures payload == EncodeList(TeamRows(teams))
  {
    var count := Net32(|teams| % TWO32);
    payload := count;
    for i := 0 to |teams|
      invariant payload == count + EncodeRows(TeamRows(teams[..i]))
    {
      TeamRowsSnoc(teams, i);
      RecordMore(count, TeamRows(teams[..i]), TeamRow(teams[i]));
      payload := AppendPlace(payload, teams[i].uuid, teams[i].name, teams[i].description);
    }
    assert teams[..|teams|] == teams;
  }

  method PackChannels(channels: seq<Channel>) returns (payload: Bytes)
    ensures payload == EncodeList(ChannelRows(channels))
  {
    var count := Net32(|channels| % TWO32);
    payload := count;
    for i := 0 to |channels|
      invariant payload == count + EncodeRows(ChannelRows(channels[..i]))
    {
      ChannelRowsSnoc(channels, i);
      RecordMore(count, ChannelRows(channels[..i]), ChannelRow(channels[i]));
      payload := AppendPlace(payload, channels[i].uuid, channels[i].name, channels[i].description);
    }
    assert channels[..|channels|] == channels;
  }

  method PackThreads(threads: seq<Thread>) returns (payload: Bytes)
    ensures payload == EncodeList(ThreadRows(threads))
  {
    var count := Net32(|threads| % TWO32);
    payload := count;
    for i := 0 to |threads|
      invariant payload == count + EncodeRows(ThreadRows(threads[..i]))
    {
      ThreadRowsSnoc(threads, i);
      RecordMore(count, ThreadRows(threads[..i]), ThreadRow(threads[i]));
      payload := AppendThread(payload, threads[i]);
    }
    assert threads[..|threads|] == threads;
  }

  method PackReplies(thread: Uuid, replies: seq<Reply>) returns (payload: Bytes)
    ensures payload == EncodeList(ReplyRows(thread, replies))
  {
    var count := Net32(|replies| % TWO32);
    payload := count;
    for i := 0 to |replies|
      invariant payload == count + EncodeRows(ReplyRows(thread, replies[..i]))
    {
      ReplyRowsSnoc(thread, replies, i);
      RecordMore(count, ReplyRows(thread, replies[..i]), ReplyRow(thread, replies[i]));
      payload := AppendPost(payload, thread, replies[i].creator, replies[i].timestamp, replies[i].body);
    }
    assert replies[..|replies|] == replies;
  }

  method PackLetters(letters: seq<Letter>) returns (payload: Bytes)
    ensures payload == EncodeList(LetterRows(letters))
  {
    var count := Net32(|letters| % TWO32);
    payload := count;
    for i := 0 to |letters|
      invariant payload == count + EncodeRows(LetterRows(letters[..i]))
    {
      LetterRowsSnoc(letters, i);
      RecordMore(count, LetterRows(letters[..i]), LetterRow(letters[i]));
      var m := letters[i];
      payload := AppendPost(payload, m.sender, m.receiver, m.timestamp, m.body);
    }
    assert letters[..|letters|] == letters;
  }

  // ---------------------------------------------------------------- the handlers

  class Business {
    const data: ServerStore

    constructor (store: ServerStore)
      ensures data == store
    {
      data := store;
    }

    method PackUsers(users: seq<User>) returns (payload: Bytes)
      ensures payload == EncodeList(StatusRows(data.sessions, users))
    {
      var count := Net32(|users| % TWO32);
      payload := count;
      for i := 0 to |users|
        invariant payload == count + EncodeRows(StatusRows(data.sessions, users[..i]))
      {
        StatusRowsSnoc(data.sessions, users, i);
        RecordMore(count, StatusRows(data.sessions, users[..i]), StatusRow(data.sessions, users[i]));
        var online := data.IsSessionOpen(Trim(users[i].uuid));
        payload := AppendStatus(payload, users[i], online);
      }
      assert users[..|users|] == users;
    }

    /** The account of a session: its user's id and name, or the id and a blank name. */
    method PackAccount(uuid: Bytes) returns (payload: Bytes)
      requires |uuid| == 36
      ensures payload == Encode(Account(data.users, uuid))
    {
      var i := data.FindUserByUuid(uuid);
      if i < |data.users| {
        payload := AppendAccount([], data.users[i]);
      } else {
        payload := uuid;
        payload := payload + Zeros(32);
        FixedSame(uuid);
        Append2([], Str(uuid), Str(Zeros(32)));
      }
    }

    // -------------------------------------------------------------- mtp_auth.cpp

    method HandleLogin(fd: int, text: Bytes, id: Uuid) returns (res: Result)
      modifies data
      ensures Outcome(data.Model(), res) == Login(old(data.Model()), fd, text, id)
    {
      var name := Trim(text);
      var i := data.FindUserByName(name);
      if i == |data.users| {
        data.users := data.users + [User(id, Fixed(name, 32), true)];
      }
      var user := data.users[i];
      var wasOnline := data.IsSessionOpen(Trim(user.uuid));
      data.users := data.users[i := user.(isLogged := true)];
      data.sessions := data.sessions[fd := Trim(user.uuid)];
      data.contexts := data.contexts[fd := NO_CONTEXT];
      var payload := AppendAccount([], user);
      assert payload == Encode(AccountRow(user));
      var pushes := [];
      if !wasOnline {
        var fds := data.LoggedFds();
        pushes := [Push(Packet(EVT_USER_LOGGED_IN, payload), fds)];
      }
      res := Result(Packet(RES_LOGIN_OK, payload), pushes);
    }

    method HandleLogout(fd: int) returns (res: Result)
      requires fd in data.sessions ==> |data.sessions[fd]| == 36
      modifies data
      ensures Outcome(data.Model(), res) == Logout(old(data.Model()), fd)
    {
      if fd !in data.sessions {
        res := Fail(ERR_UNAUTHORIZED);
        return;
      }
      var uuid := data.sessions[fd];
      var i := data.FindUserByUuid(uuid);
      var payload := PackAccount(uuid);
      data.sessions := data.sessions - {fd};
      var stillOnline := data.IsSessionOpen(uuid);
      if i < |data.users| {
        data.users := data.users[i := data.users[i].(isLogged := stillOnline)];
      }
      data.contexts := data.contexts - {fd};
      var pushes := [];
      if !stillOnline {
        var fds := data.LoggedFds();
        pushes := [Push(Packet(EVT_USER_LOGGED_OUT, payload), fds + [fd])];
      }
      res := Result(Packet(RES_LOGOUT_OK, payload), pushes);
    }

    // -------------------------------------------------------------- mtp_users.cpp

    method HandleUsers(fd: int) returns (res: Result)
      ensures Outcome(data.Model(), res) == ListUsers(data.Model(), fd)
    {
      if fd !in data.sessions {
        res := Fail(ERR_UNAUTHORIZED);
        return;
      }
      var payload := PackUsers(data.users);
      res := Result(Packet(RES_USERS_LIST, payload), []);
    }

    method HandleUser(fd: int, uuid: Bytes) returns (res: Result)
      ensures Outcome(data.Model(), res) == ShowUser(data.Model(), fd, uuid)
    {
      if fd !in data.sessions {
        res := Fail(ERR_UNAUTHORIZED);
      } else if |uuid| != 36 {
        res := Fail(ERR_INVALID_COMMAND);
      } else {
        var i := data.FindUserByUuid(uuid);
        if i == |data.users| {
          res := FailOn(ERR_UNKNOWN_USER, uuid);
        } else {
          var online := data.IsSessionOpen(Trim(data.users[i].uuid));
          var payload := AppendStatus([], data.users[i], online);
          res := Result(Packet(RES_USER_INFO, payload), []);
        }
      }
    }

    // -------------------------------------------------------------- mtp_messages.cpp

    method HandleSend(fd: int, receiver: Bytes, body: Bytes, now: Image) returns (res: Result)
      requires fd in data.sessions ==> |data.sessions[fd]| == 36
      modifies data`letters
      ensures Outcome(data.Model(), res) == Send(old(data.Model()), fd, receiver, body, now)
    {
      if fd !in data.sessions {
        res := Fail(ERR_UNAUTHORIZED);
        return;
      }
      if |receiver| != 36 {
        res := Fail(ERR_INVALID_COMMAND);
        return;
      }
      var sender := data.sessions[fd];
      var i := data.FindUserByUuid(receiver);
      if i == |data.users| {
        res := FailOn(ERR_UNKNOWN_USER, receiver);
        return;
      }
      FixedSame(sender);
      var msg := Letter(sender, receiver, Fixed(Trim(body), 512), now);
      data.letters := data.letters + [msg];
      var payload := sender;
      payload := payload + msg.body;
      Append2([], Str(sender), Str(msg.body));
      assert payload == Encode([Str(sender), Str(msg.body)]);
      var fds := data.FdsOfUser(receiver);
      var push := Push(Packet(EVT_MESSAGE_RECEIVED, payload), fds);
      res := Result(Packet(RES_SEND_OK, []), if fds == [] then [] else [push]);
    }

    method MessagesBetween(self: Bytes, other: Bytes) returns (msgs: seq<Letter>)
      ensures msgs == Conversation(data.letters, self, other)
    {
      msgs := [];
      for i := 0 to |data.letters|
        invariant msgs == Conversation(data.letters[..i], self, other)
      {
        var m := data.letters[i];
        assert data.letters[..i + 1][..i] == data.letters[..i];
        if (m.sender == self && m.receiver == other) || (m.sender == other && m.receiver == self) {
          msgs := msgs + [m];
        }
      }
      assert data.letters[..|data.letters|] == data.letters;
    }

    method HandleMessages(fd: int, other: Bytes) returns (res: Result)
      ensures Outcome(data.Model(), res) == History(data.Model(), fd, other)
    {
      if fd !in data.sessions {
        res := Fail(ERR_UNAUTHORIZED);
      } else if |other| != 36 {
        res := Fail(ERR_INVALID_COMMAND);
      } else {
        var i := data.FindUserByUuid(other);
        if i == |data.users| {
          res := FailOn(ERR_UNKNOWN_USER, other);
        } else {
          var msgs := MessagesBetween(data.sessions[fd], other);
          var payload := PackLetters(msgs);
          res := Result(Packet(RES_MESSAGES_LIST, payload), []);
        }
      }
    }

    // -------------------------------------------------------------- mtp_subscriptions.cpp

    method HandleSubscribe(fd: int, uuid: Bytes) returns (res: Result)
      modifies data`teams
      ensures Outcome(data.Model(), res) == Subscribe(old(data.Model()), fd, uuid)
    {
      if fd !in data.sessions {
        res := Fail(ERR_UNAUTHORIZED);
        return;
      }
      if |uuid| != 36 {
        res := Fail(ERR_INVALID_COMMAND);
        return;
      }
      var t := data.FindTeamByUuid(uuid);
      if t == |data.teams| {
        res := FailOn(ERR_UNKNOWN_TEAM, uuid);
        return;
      }
      var user, team := data.sessions[fd], data.teams[t];
      var at := ServerStore.FindMember(team.members, user);
      if at == |team.members| {
        data.teams := data.teams[t := team.(members := team.members + [user])];
      }
      OneId(team.uuid);
      res := Result(Packet(RES_SUBSCRIBE_OK, team.uuid), []);
    }

    method HandleUnsubscribe(fd: int, uuid: Bytes) returns (res: Result)
      modifies data`teams
      ensures Outcome(data.Model(), res) == Unsubscribe(old(data.Model()), fd, uuid)
    {
      if fd !in data.sessions {
        res := Fail(ERR_UNAUTHORIZED);
        return;
      }
      if |uuid| != 36 {
        res := Fail(ERR_INVALID_COMMAND);
        return;
      }
      var t := data.FindTeamByUuid(uuid);
      if t == |data.teams| {
        res := FailOn(ERR_UNKNOWN_TEAM, uuid);
        return;
      }
      var team := data.teams[t];
      var at := ServerStore.FindMember(team.members, data.sessions[fd]);
      if at == |team.members| {
        res := Fail(ERR_NOT_SUBSCRIBED);
        return;
      }
      data.teams := data.teams[t := team.(members := team.members[..at] + team.members[at + 1..])];
      OneId(team.uuid);
      res := Result(Packet(RES_UNSUBSCRIBE_OK, team.uuid), []);
    }

    method TeamsWith(user: Bytes) returns (found: seq<Team>)
      ensures found == TeamsOf(data.teams, user)
    {
      found := [];
      for i := 0 to |data.teams|
        invariant found == TeamsOf(data.teams[..i], user)
      {
        assert data.teams[..i + 1][..i] == data.teams[..i];
        var at := ServerStore.FindMember(data.teams[i].members, user);
        if at < |data.teams[i].members| { found := found + [data.teams[i]]; }
      }
      assert data.teams[..|data.teams|] == data.teams;
    }

    method HandleSubscribedTeams(fd: int) returns (res: Result)
      ensures Outcome(data.Model(), res) == SubscribedTeams(data.Model(), fd)
    {
      if fd !in data.sessions {
        res := Fail(ERR_UNAUTHORIZED);
        return;
      }
      var found := TeamsWith(data.sessions[fd]);
      var payload := PackTeams(found);
      res := Result(Packet(RES_SUBSCRIBED_TEAMS, payload), []);
    }

    method UsersIn(members: seq<Bytes>) returns (found: seq<User>)
      ensures found == UsersNamed(data.users, members)
    {
      found := [];
      for k := 0 to |members|
        invariant found == UsersNamed(data.users, members[..k])
      {
        assert members[..k + 1][..k] == members[..k];
        var i := data.FindUserByUuid(members[k]);
        if i < |data.users| { found := found + [data.users[i]]; }
      }
      assert members[..|members|] == members;
    }

    method HandleSubscribedUsers(fd: int, uuid: Bytes) returns (res: Result)
      ensures Outcome(data.Model(), res) == SubscribedUsers(data.Model(), fd, uuid)
    {
      if fd !in data.sessions {
        res := Fail(ERR_UNAUTHORIZED);
        return;
      }
      if |uuid| != 36 {
        res := Fail(ERR_INVALID_COMMAND);
        return;
      }
      var t := data.FindTeamByUuid(uuid);
      if t == |data.teams| {
        res := FailOn(ERR_UNKNOWN_TEAM, uuid);
        return;
      }
      var members := data.teams[t].members;
      var at := ServerStore.FindMember(members, data.sessions[fd]);
      if at == |members| {
        res := Fail(ERR_NOT_SUBSCRIBED);
        return;
      }
      var found := UsersIn(members);
      var payload := PackUsers(found);
      res := Result(Packet(RES_SUBSCRIBED_USERS, payload), []);
    }

    // -------------------------------------------------------------- mtp_context.cpp

    method HandleUse(fd: int, p: Bytes) returns (res: Result)
      requires fd in data.sessions ==> |data.sessions[fd]| == 36
      modifies data`contexts
      ensures Outcome(data.Model(), res) == Use(old(data.Model()), fd, p)
    {
      if fd !in data.sessions {
        res := Fail(ERR_UNAUTHORIZED);
      } else if p == [] {
        res := Fail(ERR_INVALID_COMMAND);
      } else if p[0] == USE_NONE {
        data.contexts := data.contexts[fd := NO_CONTEXT];
        var payload := PackAccount(data.sessions[fd]);
        res := Result(Packet(RES_USER_DETAILS, payload), []);
      } else if p[0] == USE_TEAM {
        res := UseTeam(fd, p);
      } else if p[0] == USE_CHANNEL {
        res := UseChannel(fd, p);
      } else if p[0] == USE_THREAD {
        res := UseThread(fd, p);
      } else {
        res := Fail(ERR_INVALID_COMMAND);
      }
    }

    method UseTeam(fd: int, p: Bytes) returns (res: Result)
      requires fd in data.sessions && p != [] && p[0] == USE_TEAM
      modifies data`contexts
      ensures Outcome(data.Model(), res) == Use(old(data.Model()), fd, p)
    {
      if |p| < 37 {
        res := Fail(ERR_INVALID_COMMAND);
        return;
      }
      var t := data.FindTeamByUuid(p[1..37]);
      if t == |data.teams| {
        res := FailOn(ERR_UNKNOWN_TEAM, p[1..37]);
        return;
      }
      var team := data.teams[t];
      var at := ServerStore.FindMember(team.members, data.sessions[fd]);
      if at == |team.members| {
        res := Fail(ERR_NOT_SUBSCRIBED);
        return;
      }
      data.contexts := data.contexts[fd := Context(USE_TEAM, p[1..37], NO_UUID, NO_UUID)];
      var payload := AppendPlace([], team.uuid, team.name, team.description);
      assert payload == Encode(TeamRow(team));
      res := Result(Packet(RES_TEAM_INFO, payload), []);
    }

    method UseChannel(fd: int, p: Bytes) returns (res: Result)
      requires fd in data.sessions && p != [] && p[0] == USE_CHANNEL
      modifies data`contexts
      ensures Outcome(data.Model(), res) == Use(old(data.Model()), fd, p)
    {
      if |p| < 73 {
        res := Fail(ERR_INVALID_COMMAND);
        return;
      }
      var ctx := Context(USE_CHANNEL, p[1..37], p[37..73], NO_UUID);
      ghost var d := data.Model();
      var t := data.FindTeamByUuid(ctx.team);
      if t == |data.teams| {
        UseUnknownTeam(d, fd, p, ctx);
        res := FailOn(ERR_UNKNOWN_TEAM, ctx.team);
        return;
      }
      var at := ServerStore.FindMember(data.teams[t].members, data.sessions[fd]);
      if at == |data.teams[t].members| {
        UseForbidden(d, fd, p, ctx, t);
        res := Fail(ERR_NOT_SUBSCRIBED);
        return;
      }
      var i := ServerStore.FindChannelByUuid(data.teams[t], ctx.channel);
      if i == |data.teams[t].channels| {
        UseUnknownChannel(d, fd, p, ctx, t);
        res := FailOn(ERR_UNKNOWN_CHANNEL, ctx.channel);
        return;
      }
      ChannelFound(d.teams, ctx, t, i);
      UseEntered(d, fd, p, ctx);
      data.contexts := data.contexts[fd := ctx];
      var channel := data.teams[t].channels[i];
      var payload := AppendPlace([], channel.uuid, channel.name, channel.description);
      assert payload == Encode(ChannelRow(channel));
      res := Result(Packet(RES_CHANNEL_INFO, payload), []);
    }

    method UseThread(fd: int, p: Bytes) returns (res: Result)
      requires fd in data.sessions && p != [] && p[0] == USE_THREAD
      modifies data`contexts
      ensures Outcome(data.Model(), res) == Use(old(data.Model()), fd, p)
    {
      if |p| < 109 {
        res := Fail(ERR_INVALID_COMMAND);
        return;
      }
      var ctx := Context(USE_THREAD, p[1..37], p[37..73], p[73..109]);
      ghost var d := data.Model();
      var t := data.FindTeamByUuid(ctx.team);
      if t == |data.teams| {
        UseUnknownTeam(d, fd, p, ctx);
        res := FailOn(ERR_UNKNOWN_TEAM, ctx.team);
        return;
      }
      var at := ServerStore.FindMember(data.teams[t].members, data.sessions[fd]);
      if at == |data.teams[t].members| {
        UseForbidden(d, fd, p, ctx, t);
        res := Fail(ERR_NOT_SUBSCRIBED);
        return;
      }
      var i := ServerStore.FindChannelByUuid(data.teams[t], ctx.channel);
      if i == |data.teams[t].channels| {
        UseUnknownChannel(d, fd, p, ctx, t);
        res := FailOn(ERR_UNKNOWN_CHANNEL, ctx.channel);
        return;
      }
      var k := ServerStore.FindThreadByUuid(data.teams[t].channels[i], ctx.thread);
      if k == |data.teams[t].channels[i].threads| {
        ChannelFound(d.teams, ctx, t, i);
        UseUnknownThread(d, fd, p, ctx, t, i);
        res := FailOn(ERR_UNKNOWN_THREAD, ctx.thread);
        return;
      }
      ThreadFound(d.teams, ctx, t, i, k);
      UseEntered(d, fd, p, ctx);
      data.contexts := data.contexts[fd := ctx];
      var thread := data.teams[t].channels[i].threads[k];
      var payload := AppendThread([], thread);
      assert payload == Encode(ThreadRow(thread));
      res := Result(Packet(RES_THREAD_INFO, payload), []);
    }

    // -------------------------------------------------------------- mtp_list.cpp

    method HandleList(fd: int) returns (res: Result)
      ensures Outcome(data.Model(), res) == List(data.Model(), fd)
    {
      if fd !in data.sessions {
        res := Fail(ERR_UNAUTHORIZED);
      } else if fd !in data.contexts {
        res := Fail(ERR_INVALID_COMMAND);
      } else if data.contexts[fd].level == USE_NONE {
        var payload := PackTeams(data.teams);
        res := Result(Packet(RES_LIST_TEAMS, payload), []);
      } else if data.contexts[fd].level <= USE_THREAD {
        res := ListBelow(fd);
      } else {
        res := Fail(ERR_INVALID_COMMAND);
      }
    }

    /** The lists inside a team: its channels, a channel's threads, a thread's replies. */
    method ListBelow(fd: int) returns (res: Result)
      requires fd in data.sessions && fd in data.contexts && USE_NONE < data.contexts[fd].level <= USE_THREAD
      ensures Outcome(data.Model(), res) == List(data.Model(), fd)
    {
      var ctx := data.contexts[fd];
      var t := data.FindTeamByUuid(ctx.team);
      if t == |data.teams| {
        res := Fail(ERR_UNKNOWN_TEAM);
        return;
      }
      if ctx.level == USE_TEAM {
        var payload := PackChannels(data.teams[t].channels);
        res := Result(Packet(RES_LIST_CHANNELS, payload), []);
        return;
      }
      var i := ServerStore.FindChannelByUuid(data.teams[t], ctx.channel);
      if i == |data.teams[t].channels| {
        res := Fail(ERR_UNKNOWN_CHANNEL);
        return;
      }
      if ctx.level == USE_CHANNEL {
        var payload := PackThreads(data.teams[t].channels[i].threads);
        res := Result(Packet(RES_LIST_THREADS, payload), []);
        return;
      }
      var k := ServerStore.FindThreadByUuid(data.teams[t].channels[i], ctx.thread);
      if k == |data.teams[t].channels[i].threads| {
        res := Fail(ERR_UNKNOWN_THREAD);
        return;
      }
      var payload := PackReplies(ctx.thread, data.teams[t].channels[i].threads[k].replies);
      res := Result(Packet(RES_LIST_REPLIES, payload), []);
    }

    // -------------------------------------------------------------- mtp_info.cpp

    method HandleInfo(fd: int) returns (res: Result)
      requires fd in data.sessions ==> |data.sessions[fd]| == 36
      ensures Outcome(data.Model(), res) == Info(data.Model(), fd)
    {
      if fd !in data.sessions {
        res := Fail(ERR_UNAUTHORIZED);
      } else if fd !in data.contexts {
        res := Fail(ERR_INVALID_COMMAND);
      } else if data.contexts[fd].level == USE_NONE {
        var payload := PackAccount(data.sessions[fd]);
        res := Result(Packet(RES_USER_DETAILS, payload), []);
      } else if data.contexts[fd].level <= USE_THREAD {
        res := InfoBelow(fd);
      } else {
        res := Fail(ERR_INVALID_COMMAND);
      }
    }

    /** The entity a context stands on, inside a team. */
    method InfoBelow(fd: int) returns (res: Result)
      requires fd in data.sessions && fd in data.contexts && USE_NONE < data.contexts[fd].level <= USE_THREAD
      ensures Outcome(data.Model(), res) == Info(data.Model(), fd)
    {
      var ctx := data.contexts[fd];
      var t := data.FindTeamByUuid(ctx.team);
      if t == |data.teams| {
        res := Fail(ERR_UNKNOWN_TEAM);
        return;
      }
      var team := data.teams[t];
      if ctx.level == USE_TEAM {
        var payload := AppendPlace([], team.uuid, team.name, team.description);
        assert payload == Encode(TeamRow(team));
        res := Result(Packet(RES_TEAM_INFO, payload), []);
        return;
      }
      var i := ServerStore.FindChannelByUuid(team, ctx.channel);
      if i == |team.channels| {
        res := Fail(ERR_UNKNOWN_CHANNEL);
        return;
      }
      var channel := team.channels[i];
      if ctx.level == USE_CHANNEL {
        var payload := AppendPlace([], channel.uuid, channel.name, channel.description);
        assert payload == Encode(ChannelRow(channel));
        res := Result(Packet(RES_CHANNEL_INFO, payload), []);
        return;
      }
      var k := ServerStore.FindThreadByUuid(channel, ctx.thread);
      if k == |channel.threads| {
        res := Fail(ERR_UNKNOWN_THREAD);
        return;
      }
      var payload := AppendThread([], channel.threads[k]);
      assert payload == Encode(ThreadRow(channel.threads[k]));
      res := Result(Packet(RES_THREAD_INFO, payload), []);
    }

    // -------------------------------------------------------------- mtp_create.cpp

    method HandleCreate(fd: int, p: Bytes, id: Uuid, now: Image) returns (res: Result)
      requires fd in data.sessions ==> |data.sessions[fd]| == 36
      modifies data`teams
      ensures Outcome(data.Model(), res) == Create(old(data.Model()), fd, p, id, now)
    {
      if fd !in data.sessions {
        res := Fail(ERR_UNAUTHORIZED);
      } else if fd !in data.contexts {
        res := Fail(ERR_INVALID_COMMAND);
      } else if data.contexts[fd].level == USE_NONE {
        res := CreateTeamHere(fd, p, id);
      } else if data.contexts[fd].level == USE_TEAM {
        res := CreateChannelHere(fd, p, id, now);
      } else if data.contexts[fd].level == USE_CHANNEL {
        res := CreateThreadHere(fd, p, id, now);
      } else if data.contexts[fd].level == USE_THREAD {
        res := CreateReplyHere(fd, p, id, now);
      } else {
        res := Fail(ERR_INVALID_COMMAND);
      }
    }

    method CreateTeamHere(fd: int, p: Bytes, id: Uuid) returns (res: Result)
      requires fd in data.sessions && fd in data.contexts && data.contexts[fd].level == USE_NONE
      modifies data`teams
      ensures forall now :: Outcome(data.Model(), res) == Create(old(data.Model()), fd, p, id, now)
    {
      if |p| < 32 + 255 {
        res := Fail(ERR_INVALID_COMMAND);
        return;
      }
      var team := Team(id, p[..32], p[32..287], [], [data.sessions[fd]]);
      data.teams := data.teams + [team];
      var payload := AppendPlace([], team.uuid, team.name, team.description);
      assert payload == Encode(TeamRow(team));
      var fds := data.LoggedFds();
      res := Result(Packet(RES_TEAM_CREATED, payload), [Push(Packet(EVT_TEAM_CREATED, payload), fds)]);
    }

    method CreateChannelHere(fd: int, p: Bytes, id: Uuid, now: Image) returns (res: Result)
      requires fd in data.sessions && fd in data.contexts && data.contexts[fd].level == USE_TEAM
      modifies data`teams
      ensures Outcome(data.Model(), res) == Create(old(data.Model()), fd, p, id, now)
    {
      if |p| < 32 + 255 {
        res := Fail(ERR_INVALID_COMMAND);
        return;
      }
      var ctx := data.contexts[fd];
      var t := data.FindTeamByUuid(ctx.team);
      if t == |data.teams| {
        res := Fail(ERR_UNKNOWN_TEAM);
        return;
      }
      var team := data.teams[t];
      var at := ServerStore.FindMember(team.members, data.sessions[fd]);
      if at == |team.members| {
        res := Fail(ERR_NOT_SUBSCRIBED);
        return;
      }
      var channel := Channel(id, p[..32], p[32..287], []);
      data.teams := data.teams[t := team.(channels := team.channels + [channel])];
      var payload := AppendPlace([], channel.uuid, channel.name, channel.description);
      assert payload == Encode(ChannelRow(channel));
      var fds := data.TeamMemberFds(team);
      res := Result(Packet(RES_CHANNEL_CREATED, payload), [Push(Packet(EVT_CHANNEL_CREATED, payload), fds)]);
    }

    method CreateThreadHere(fd: int, p: Bytes, id: Uuid, now: Image) returns (res: Result)
      requires fd in data.sessions && fd in data.contexts && data.contexts[fd].level == USE_CHANNEL
      requires |data.sessions[fd]| == 36
      modifies data`teams
      ensures Outcome(data.Model(), res) == Create(old(data.Model()), fd, p, id, now)
    {
      if |p| < 32 + 512 {
        res := Fail(ERR_INVALID_COMMAND);
        return;
      }
      var ctx, user := data.contexts[fd], data.sessions[fd];
      ghost var d := data.Model();
      var t := data.FindTeamByUuid(ctx.team);
      if t == |data.teams| {
        CreateNowhere(d, fd, p, id, now);
        res := Fail(ERR_UNKNOWN_TEAM);
        return;
      }
      var team := data.teams[t];
      var at := ServerStore.FindMember(team.members, user);
      if at == |team.members| {
        CreateForbidden(d, fd, p, id, now, t);
        res := Fail(ERR_NOT_SUBSCRIBED);
        return;
      }
      var i := ServerStore.FindChannelByUuid(team, ctx.channel);
      if i == |team.channels| {
        CreateUnknownChannel(d, fd, p, id, now, t);
        res := Fail(ERR_UNKNOWN_CHANNEL);
        return;
      }
      ChannelFound(d.teams, ctx, t, i);
      CreateEntered(d, fd, p, id, now);
      res := AddThreadTo(t, i, p, user, id, now);
    }

    /** push_back of a thread, its payload and its event. */
    method AddThreadTo(t: nat, i: nat, p: Bytes, user: Uuid, id: Uuid, now: Image) returns (res: Result)
      requires t < |data.teams| && i < |data.teams[t].channels| && CreateSize(USE_CHANNEL) <= |p|
      modifies data`teams
      ensures Outcome(data.Model(), res) == CreateThread(old(data.Model()), t, i, p, user, id, now)
    {
      var team := data.teams[t];
      var channel := team.channels[i];
      var thread := Thread(id, user, p[..32], p[32..544], now, []);
      var grown := channel.(threads := channel.threads + [thread]);
      data.teams := data.teams[t := team.(channels := team.channels[i := grown])];
      var payload := AppendThread([], thread);
      assert payload == Encode(ThreadRow(thread));
      var fds := data.TeamMemberFds(team);
      res := Result(Packet(RES_THREAD_CREATED, payload), [Push(Packet(EVT_THREAD_CREATED, payload), fds)]);
    }

    method CreateReplyHere(fd: int, p: Bytes, id: Uuid, now: Image) returns (res: Result)
      requires fd in data.sessions && fd in data.contexts && data.contexts[fd].level == USE_THREAD
      requires |data.sessions[fd]| == 36
      modifies data`teams
      ensures Outcome(data.Model(), res) == Create(old(data.Model()), fd, p, id, now)
    {
      if |p| < 512 {
        res := Fail(ERR_INVALID_COMMAND);
        return;
      }
      var ctx, user := data.contexts[fd], data.sessions[fd];
      ghost var d := data.Model();
      var t := data.FindTeamByUuid(ctx.team);
      if t == |data.teams| {
        CreateNowhere(d, fd, p, id, now);
        res := Fail(ERR_UNKNOWN_TEAM);
        return;
      }
      var team := data.teams[t];
      var at := ServerStore.FindMember(team.members, user);
      if at == |team.members| {
        CreateForbidden(d, fd, p, id, now, t);
        res := Fail(ERR_NOT_SUBSCRIBED);
        return;
      }
      var i := ServerStore.FindChannelByUuid(team, ctx.channel);
      if i == |team.channels| {
        CreateUnknownChannel(d, fd, p, id, now, t);
        res := Fail(ERR_UNKNOWN_CHANNEL);
        return;
      }
      var k := ServerStore.FindThreadByUuid(team.channels[i], ctx.thread);
      if k == |team.channels[i].threads| {
        ChannelFound(d.teams, ctx, t, i);
        CreateUnknownThread(d, fd, p, id, now, t, i);
        res := Fail(ERR_UNKNOWN_THREAD);
        return;
      }
      ThreadFound(d.teams, ctx, t, i, k);
      CreateEntered(d, fd, p, id, now);
      res := AddReplyTo(ctx.thread, t, i, k, p, user, id, now);
    }

    /** push_back of a reply, its payload and its event. */
    method AddReplyTo(uuid: Uuid, t: nat, i: nat, k: nat, p: Bytes, user: Uuid, id: Uuid, now: Image)
      returns (res: Result)
      requires t < |data.teams| && i < |data.teams[t].channels| && k < |data.teams[t].channels[i].threads|
      requires CreateSize(USE_THREAD) <= |p|
      modifies data`teams
      ensures Outcome(data.Model(), res) == CreateReply(old(data.Model()), uuid, t, i, k, p, user, id, now)
    {
      var team := data.teams[t];
      var channel := team.channels[i];
      var thread := channel.threads[k];
      var reply := Reply(id, user, p[..512], now);
      var grown := channel.(threads := channel.threads[k := thread.(replies := thread.replies + [reply])]);
      data.teams := data.teams[t := team.(channels := team.channels[i := grown])];
      var payload := AppendPost([], uuid, reply.creator, reply.timestamp, reply.body);
      assert payload == Encode(ReplyRow(uuid, reply));
      var fds := data.TeamMemberFds(team);
      res := Result(Packet(RES_REPLY_CREATED, payload), [Push(Packet(EVT_REPLY_CREATED, payload), fds)]);
    }
  }
}
