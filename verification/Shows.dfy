/** What a user sees for every code, call by call, from the bytes of one record or the entities of a list. */
module Shows {
  import opened Octets
  import opened Words
  import opened Protocol
  import opened Records
  import opened ServerData
  import opened Soundness
  import opened RoundTrips
  import opened Delivery
  import opened Readers
  import opened Screens

  // ---------------------------------------------------------------- the layouts, byte by byte

  lemma {:induction false} IdBytes(p: Bytes)
    requires |p| >= 36
    ensures ReadFields(ID, p) == ([Word(Trim(p[..36]))], p[36..])
  {
    Read1(Text(36), p, Word(Trim(p[..36])), p[36..]);
  }

  lemma {:induction false} AccountBytes(p: Bytes)
    requires |p| >= 68
    ensures ReadFields(ACCOUNT, p) == ([Word(Trim(p[..36])), Word(Trim(p[36..68]))], p[68..])
  {
    Window(p, 36, 32);
    Read2(Text(36), Text(32), p, Word(Trim(p[..36])), p[36..], Word(Trim(p[36..68])), p[68..]);
  }

  lemma {:induction false} StatusBytes(p: Bytes)
    requires |p| >= 69
    ensures ReadFields(STATUS, p) == ([Word(Trim(p[..36])), Word(Trim(p[36..68])), Number(p[68])], p[69..])
  {
    Window(p, 36, 32);
    Window(p, 68, 1);
    Read3(Text(36), Text(32), Flag, p, Word(Trim(p[..36])), p[36..], Word(Trim(p[36..68])), p[68..], Number(p[68]),
          p[69..]);
  }

  lemma {:induction false} PlaceBytes(p: Bytes)
    requires |p| >= 323
    ensures ReadFields(PLACE, p)
        == ([Word(Trim(p[..36])), Word(Trim(p[36..68])), Word(Trim(p[68..323]))], p[323..])
  {
    Window(p, 36, 32);
    Window(p, 68, 255);
    Read3(Text(36), Text(32), Text(255), p, Word(Trim(p[..36])), p[36..], Word(Trim(p[36..68])), p[68..],
          Word(Trim(p[68..323])), p[323..]);
  }

  lemma {:induction false} NoteBytes(p: Bytes)
    requires |p| >= 548
    ensures ReadFields(NOTE, p) == ([Word(Trim(p[..36])), Word(Trim(p[36..548]))], p[548..])
  {
    Window(p, 36, 512);
    Read2(Text(36), Text(512), p, Word(Trim(p[..36])), p[36..], Word(Trim(p[36..548])), p[548..]);
  }

  lemma {:induction false} PostBytes(p: Bytes)
    requires |p| >= 592
    ensures ReadFields(POST, p)
        == ([Word(Trim(p[..36])), Word(Trim(p[36..72])), Moment(Flip(p[72..80])), Word(Trim(p[80..592]))], p[592..])
  {
    var tail := [Moment(Flip(p[72..80])), Word(Trim(p[80..592]))];
    Window(p, 36, 36);
    Window(p, 72, 8);
    Window(p, 80, 512);
    Read2(Stamp, Text(512), p[72..], Moment(Flip(p[72..80])), p[80..], Word(Trim(p[80..592])), p[592..]);
    ReadThen(Text(36), [Stamp, Text(512)], p[36..], Word(Trim(p[36..72])), p[72..], tail, p[592..]);
    ReadThen(Text(36), [Text(36)] + [Stamp, Text(512)], p, Word(Trim(p[..36])), p[36..],
             [Word(Trim(p[36..72]))] + tail, p[592..]);
    assert POST == [Text(36)] + ([Text(36)] + [Stamp, Text(512)]);
    assert [Word(Trim(p[..36]))] + ([Word(Trim(p[36..72]))] + tail)
        == [Word(Trim(p[..36])), Word(Trim(p[36..72])), tail[0], tail[1]];
  }

  lemma {:induction false} TopicBytes(p: Bytes)
    requires |p| >= 624
    ensures ReadFields(TOPIC, p)
        == ([Word(Trim(p[..36])), Word(Trim(p[36..72])), Moment(Flip(p[72..80])), Word(Trim(p[80..112])),
             Word(Trim(p[112..624]))], p[624..])
  {
    var tail := [Moment(Flip(p[72..80])), Word(Trim(p[80..112])), Word(Trim(p[112..624]))];
    Window(p, 36, 36);
    Window(p, 72, 8);
    Window(p, 80, 32);
    Window(p, 112, 512);
    Read3(Stamp, Text(32), Text(512), p[72..], Moment(Flip(p[72..80])), p[80..], Word(Trim(p[80..112])), p[112..],
          Word(Trim(p[112..624])), p[624..]);
    ReadThen(Text(36), [Stamp, Text(32), Text(512)], p[36..], Word(Trim(p[36..72])), p[72..], tail, p[624..]);
    ReadThen(Text(36), [Text(36)] + [Stamp, Text(32), Text(512)], p, Word(Trim(p[..36])), p[36..],
             [Word(Trim(p[36..72]))] + tail, p[624..]);
    assert TOPIC == [Text(36)] + ([Text(36)] + [Stamp, Text(32), Text(512)]);
    assert [Word(Trim(p[..36]))] + ([Word(Trim(p[36..72]))] + tail)
        == [Word(Trim(p[..36])), Word(Trim(p[36..72])), tail[0], tail[1], tail[2]];
  }

  // ---------------------------------------------------------------- packets of one record

  /** A screen with some calls more. */
  function Plus(s: Screen, call: Call, args: seq<Arg>): Screen { s.(shown := s.shown + [Shown(call, args)]) }

  /** A code of one record, which shows one call. */
  lemma {:induction false} OnceShows(s: Screen, code: uint16, fields: seq<Field>, p: Bytes, team: Bytes, row: seq<Arg>,
                                     rest: Bytes, call: Call, args: seq<Arg>)
    requires LayoutOf(code) == Once(fields) && ReadFields(fields, p) == (row, rest)
    requires CallOf(code) == Some(call) && Arguments(code, row, s.me, team) == args
    requires code != RES_LOGIN_OK && code != RES_LOGOUT_OK
    ensures React(s, Packet(code, p), team) == Plus(s, call, args)
  {
    ReactOnce(s, Packet(code, p), team, row, rest);
  }

  /**
   * Logins and logouts show id and name. A login's reply makes its 36 bytes, up to the first NUL, the client's own
   * id; a logout's reply stops the client; the events do neither.
   */
  lemma {:induction false} AccountShows(s: Screen, p: Bytes, team: Bytes)
    requires |p| >= 68
    ensures var args := [Word(Trim(p[..36])), Word(Trim(p[36..68]))];
            && React(s, Packet(RES_LOGIN_OK, p), team) == Plus(s, EventLoggedIn, args).(me := Trim(p[..36]))
            && React(s, Packet(RES_LOGOUT_OK, p), team) == Plus(s, EventLoggedOut, args).(running := false)
            && React(s, Packet(EVT_USER_LOGGED_IN, p), team) == Plus(s, EventLoggedIn, args)
            && React(s, Packet(EVT_USER_LOGGED_OUT, p), team) == Plus(s, EventLoggedOut, args)
  {
    var args := [Word(Trim(p[..36])), Word(Trim(p[36..68]))];
    AccountBytes(p);
    ReactOnce(s, Packet(RES_LOGIN_OK, p), team, args, p[68..]);
    ReactOnce(s, Packet(RES_LOGOUT_OK, p), team, args, p[68..]);
    OnceShows(s, EVT_USER_LOGGED_IN, ACCOUNT, p, team, args, p[68..], EventLoggedIn, args);
    OnceShows(s, EVT_USER_LOGGED_OUT, ACCOUNT, p, team, args, p[68..], EventLoggedOut, args);
  }

  /** One user: id, name and status, and -1 for the status of the account at the root. */
  lemma {:induction false} UserShows(s: Screen, p: Bytes, team: Bytes)
    requires |p| >= 68
    ensures React(s, Packet(RES_USER_DETAILS, p), team)
         == Plus(s, PrintUser, [Word(Trim(p[..36])), Word(Trim(p[36..68])), Number(-1)])
    ensures |p| >= 69 ==>
              React(s, Packet(RES_USER_INFO, p), team)
                == Plus(s, PrintUser, [Word(Trim(p[..36])), Word(Trim(p[36..68])), Number(p[68])])
  {
    var row := [Word(Trim(p[..36])), Word(Trim(p[36..68]))];
    AccountBytes(p);
    assert row + [Number(-1)] == [Word(Trim(p[..36])), Word(Trim(p[36..68])), Number(-1)];
    OnceShows(s, RES_USER_DETAILS, ACCOUNT, p, team, row, p[68..], PrintUser, row + [Number(-1)]);
    if |p| >= 69 {
      var user := [Word(Trim(p[..36])), Word(Trim(p[36..68])), Number(p[68])];
      StatusBytes(p);
      OnceShows(s, RES_USER_INFO, STATUS, p, team, user, p[69..], PrintUser, user);
    }
  }

  /** A subscription shows the client's own id and the team's; a refusal shows the id it could not find. */
  lemma {:induction false} IdShows(s: Screen, p: Bytes, team: Bytes)
    requires |p| >= 36
    ensures var id := Word(Trim(p[..36]));
            && React(s, Packet(RES_SUBSCRIBE_OK, p), team) == Plus(s, PrintSubscribed, [Word(s.me), id])
            && React(s, Packet(RES_UNSUBSCRIBE_OK, p), team) == Plus(s, PrintUnsubscribed, [Word(s.me), id])
            && React(s, Packet(ERR_UNKNOWN_TEAM, p), team) == Plus(s, ErrorUnknownTeam, [id])
            && React(s, Packet(ERR_UNKNOWN_CHANNEL, p), team) == Plus(s, ErrorUnknownChannel, [id])
            && React(s, Packet(ERR_UNKNOWN_THREAD, p), team) == Plus(s, ErrorUnknownThread, [id])
            && React(s, Packet(ERR_UNKNOWN_USER, p), team) == Plus(s, ErrorUnknownUser, [id])
  {
    var id := [Word(Trim(p[..36]))];
    IdBytes(p);
    assert [Word(s.me)] + id == [Word(s.me), id[0]];
    OnceShows(s, RES_SUBSCRIBE_OK, ID, p, team, id, p[36..], PrintSubscribed, [Word(s.me), id[0]]);
    OnceShows(s, RES_UNSUBSCRIBE_OK, ID, p, team, id, p[36..], PrintUnsubscribed, [Word(s.me), id[0]]);
    OnceShows(s, ERR_UNKNOWN_TEAM, ID, p, team, id, p[36..], ErrorUnknownTeam, id);
    OnceShows(s, ERR_UNKNOWN_CHANNEL, ID, p, team, id, p[36..], ErrorUnknownChannel, id);
    OnceShows(s, ERR_UNKNOWN_THREAD, ID, p, team, id, p[36..], ErrorUnknownThread, id);
    OnceShows(s, ERR_UNKNOWN_USER, ID, p, team, id, p[36..], ErrorUnknownUser, id);
  }

  /** A team: id, name, description. */
  lemma {:induction false} TeamShows(s: Screen, p: Bytes, team: Bytes)
    requires |p| >= 323
    ensures var args := [Word(Trim(p[..36])), Word(Trim(p[36..68])), Word(Trim(p[68..323]))];
            && React(s, Packet(RES_TEAM_INFO, p), team) == Plus(s, PrintTeam, args)
            && React(s, Packet(RES_TEAM_CREATED, p), team) == Plus(s, PrintTeamCreated, args)
            && React(s, Packet(EVT_TEAM_CREATED, p), team) == Plus(s, EventTeamCreated, args)
  {
    var args := [Word(Trim(p[..36])), Word(Trim(p[36..68])), Word(Trim(p[68..323]))];
    PlaceBytes(p);
    OnceShows(s, RES_TEAM_INFO, PLACE, p, team, args, p[323..], PrintTeam, args);
    OnceShows(s, RES_TEAM_CREATED, PLACE, p, team, args, p[323..], PrintTeamCreated, args);
    OnceShows(s, EVT_TEAM_CREATED, PLACE, p, team, args, p[323..], EventTeamCreated, args);
  }

  /** A channel: id, name, description. */
  lemma {:induction false} ChannelShows(s: Screen, p: Bytes, team: Bytes)
    requires |p| >= 323
    ensures var args := [Word(Trim(p[..36])), Word(Trim(p[36..68])), Word(Trim(p[68..323]))];
            && React(s, Packet(RES_CHANNEL_INFO, p), team) == Plus(s, PrintChannel, args)
            && React(s, Packet(RES_CHANNEL_CREATED, p), team) == Plus(s, PrintChannelCreated, args)
            && React(s, Packet(EVT_CHANNEL_CREATED, p), team) == Plus(s, EventChannelCreated, args)
  {
    var args := [Word(Trim(p[..36])), Word(Trim(p[36..68])), Word(Trim(p[68..323]))];
    PlaceBytes(p);
    OnceShows(s, RES_CHANNEL_INFO, PLACE, p, team, args, p[323..], PrintChannel, args);
    OnceShows(s, RES_CHANNEL_CREATED, PLACE, p, team, args, p[323..], PrintChannelCreated, args);
    OnceShows(s, EVT_CHANNEL_CREATED, PLACE, p, team, args, p[323..], EventChannelCreated, args);
  }

  /** A thread: its id, its creator, time, title and body. */
  lemma {:induction false} TopicShows(s: Screen, p: Bytes, team: Bytes)
    requires |p| >= 624
    ensures var args := [Word(Trim(p[..36])), Word(Trim(p[36..72])), Moment(Flip(p[72..80])), Word(Trim(p[80..112])),
                         Word(Trim(p[112..624]))];
            && React(s, Packet(RES_THREAD_INFO, p), team) == Plus(s, PrintThread, args)
            && React(s, Packet(RES_THREAD_CREATED, p), team) == Plus(s, PrintThreadCreated, args)
            && React(s, Packet(EVT_THREAD_CREATED, p), team) == Plus(s, EventThreadCreated, args)
  {
    var args := [Word(Trim(p[..36])), Word(Trim(p[36..72])), Moment(Flip(p[72..80])), Word(Trim(p[80..112])),
                 Word(Trim(p[112..624]))];
    TopicBytes(p);
    OnceShows(s, RES_THREAD_INFO, TOPIC, p, team, args, p[624..], PrintThread, args);
    OnceShows(s, RES_THREAD_CREATED, TOPIC, p, team, args, p[624..], PrintThreadCreated, args);
    OnceShows(s, EVT_THREAD_CREATED, TOPIC, p, team, args, p[624..], EventThreadCreated, args);
  }

  /** A reply: its thread, its creator, time and body. */
  lemma {:induction false} ReplyShows(s: Screen, p: Bytes, team: Bytes)
    requires |p| >= 592
    ensures React(s, Packet(RES_REPLY_CREATED, p), team)
         == Plus(s, PrintReplyCreated, [Word(Trim(p[..36])), Word(Trim(p[36..72])), Moment(Flip(p[72..80])),
                                        Word(Trim(p[80..592]))])
  {
    var row := [Word(Trim(p[..36])), Word(Trim(p[36..72])), Moment(Flip(p[72..80])), Word(Trim(p[80..592]))];
    PostBytes(p);
    OnceShows(s, RES_REPLY_CREATED, POST, p, team, row, p[592..], PrintReplyCreated, row);
  }

  /** Somebody else's reply: the team the client believes it is in, thread, creator and body, but no time. */
  lemma {:induction false} ReplyEventShows(s: Screen, p: Bytes, team: Bytes)
    requires |p| >= 592
    ensures React(s, Packet(EVT_REPLY_CREATED, p), team)
         == Plus(s, EventThreadReplyReceived, [Word(Trim(team)), Word(Trim(p[..36])), Word(Trim(p[36..72])),
                                               Word(Trim(p[80..592]))])
  {
    var row := [Word(Trim(p[..36])), Word(Trim(p[36..72])), Moment(Flip(p[72..80])), Word(Trim(p[80..592]))];
    PostBytes(p);
    OnceShows(s, EVT_REPLY_CREATED, POST, p, team, row, p[592..], EventThreadReplyReceived,
              [Word(Trim(team)), row[0], row[1], row[3]]);
  }

  /** A message that comes in: sender and body. */
  lemma {:induction false} NoteShows(s: Screen, p: Bytes, team: Bytes)
    requires |p| >= 548
    ensures React(s, Packet(EVT_MESSAGE_RECEIVED, p), team)
         == Plus(s, EventPrivateMessageReceived, [Word(Trim(p[..36])), Word(Trim(p[36..548]))])
  {
    NoteBytes(p);
    var args := [Word(Trim(p[..36])), Word(Trim(p[36..548]))];
    OnceShows(s, EVT_MESSAGE_RECEIVED, NOTE, p, team, args, p[548..], EventPrivateMessageReceived, args);
  }

  /** Replies without a record: a message accepted shows nothing, a refusal one call without arguments. */
  lemma {:induction false} BareShows(s: Screen, p: Bytes, team: Bytes)
    ensures React(s, Packet(RES_SEND_OK, p), team) == s
    ensures React(s, Packet(ERR_UNAUTHORIZED, p), team) == Plus(s, ErrorUnauthorized, [])
    ensures React(s, Packet(ERR_NOT_SUBSCRIBED, p), team) == Plus(s, ErrorUnauthorized, [])
    ensures React(s, Packet(ERR_ALREADY_EXISTS, p), team) == Plus(s, ErrorAlreadyExist, [])
    ensures React(s, Packet(ERR_INVALID_COMMAND, p), team) == Plus(s, InvalidCommand, [])
  {
    ReactOnce(s, Packet(RES_SEND_OK, p), team, [], p);
    OnceShows(s, ERR_UNAUTHORIZED, NOTHING, p, team, [], p, ErrorUnauthorized, []);
    OnceShows(s, ERR_NOT_SUBSCRIBED, NOTHING, p, team, [], p, ErrorUnauthorized, []);
    OnceShows(s, ERR_ALREADY_EXISTS, NOTHING, p, team, [], p, ErrorAlreadyExist, []);
    OnceShows(s, ERR_INVALID_COMMAND, NOTHING, p, team, [], p, InvalidCommand, []);
    assert s.shown + [] == s.shown;
  }

  /** Codes that no server sends do nothing. */
  lemma {:induction false} OtherCodesShowNothing(s: Screen, p: Packet, team: Bytes)
    requires p.code < 0x10 || 0x25 < p.code < 0xE0 || 0xE7 < p.code < 0xF0 || 0xF6 < p.code
    ensures React(s, p, team) == s
  {
    ReactNothing(s, p, team);
  }

  /** Whatever the payload: only a logout's reply stops the client, only a login's reply renames it. */
  lemma {:induction false} StopsOnLogoutAlone(s: Screen, p: Packet, team: Bytes)
    ensures React(s, p, team).running <==> s.running && p.code != 0x11
    ensures p.code != 0x10 ==> React(s, p, team).me == s.me
    ensures s.shown <= React(s, p, team).shown
  {
  }

  // ---------------------------------------------------------------- counted replies

  /** Records that show one call each. */
  lemma {:induction false} EachShown(code: uint16, rows: seq<seq<Arg>>, me: Bytes, team: Bytes, calls: seq<Shown>)
    requires |calls| == |rows| && forall i | 0 <= i < |rows| :: Display(code, rows[i], me, team) == [calls[i]]
    ensures DisplayAll(code, rows, me, team) == calls
  {
    if rows != [] {
      assert forall i | 0 <= i < |rows[1..]| :: Display(code, rows[1..][i], me, team) == [calls[1..][i]];
      EachShown(code, rows[1..], me, team, calls[1..]);
      assert [calls[0]] + calls[1..] == calls;
    }
  }

  lemma {:induction false} PlainShown(code: uint16, call: Call, row: seq<Arg>, me: Bytes, team: Bytes)
    requires LayoutOf(code).Counted? && code != RES_MESSAGES_LIST && CallOf(code) == Some(call)
    ensures Display(code, row, me, team) == [Shown(call, row)]
  {
  }

  /** A counted reply, shown call by call. */
  lemma {:induction false} ListShows(s: Screen, p: Packet, team: Bytes, views: seq<seq<Arg>>, calls: seq<Shown>)
    requires LayoutOf(p.code).Counted? && Decode(p).0 == views && |calls| == |views|
    requires forall i | 0 <= i < |views| :: Display(p.code, views[i], s.me, team) == [calls[i]]
    ensures React(s, p, team) == s.(shown := s.shown + calls)
  {
    EachShown(p.code, views, s.me, team, calls);
  }

  /** A list whose call takes the arguments as they were read. */
  lemma {:induction false} PlainListShows(s: Screen, p: Packet, team: Bytes, views: seq<seq<Arg>>, call: Call,
                                          calls: seq<Shown>)
    requires LayoutOf(p.code).Counted? && p.code != RES_MESSAGES_LIST && CallOf(p.code) == Some(call)
    requires Decode(p).0 == views && |calls| == |views|
    requires forall i | 0 <= i < |views| :: calls[i] == Shown(call, views[i])
    ensures React(s, p, team) == s.(shown := s.shown + calls)
  {
    forall i | 0 <= i < |views| ensures Display(p.code, views[i], s.me, team) == [calls[i]] {
      PlainShown(p.code, call, views[i], s.me, team);
    }
    ListShows(s, p, team, views, calls);
  }

  function UserCall(sessions: map<int, Bytes>, u: User): Shown {
    Shown(PrintUsers, [Word(Trim(u.uuid)), Word(Trim(u.name)), Number(if Online(sessions, Trim(u.uuid)) then 1 else 0)])
  }

  function UserCalls(sessions: map<int, Bytes>, us: seq<User>): seq<Shown> {
    seq(|us|, i requires 0 <= i < |us| => UserCall(sessions, us[i]))
  }

  lemma {:induction false} UserShown(sessions: map<int, Bytes>, u: User)
    ensures ViewRow(StatusRow(sessions, u)) == UserCall(sessions, u).args
  {
    var row := StatusRow(sessions, u);
    View3(row[0], row[1], row[2]);
  }

  lemma {:induction false} UsersBack(code: uint16, sessions: map<int, Bytes>, us: seq<User>)
    returns (views: seq<seq<Arg>>)
    requires LayoutOf(code) == Counted(STATUS) && Small(Packet(code, EncodeList(StatusRows(sessions, us))))
    ensures Decode(Packet(code, EncodeList(StatusRows(sessions, us)))).0 == views && |views| == |us|
    ensures forall i | 0 <= i < |us| :: views[i] == UserCall(sessions, us[i]).args
  {
    var rows := StatusRows(sessions, us);
    RowsFitLayouts();
    ListBack(code, rows);
    views := ViewRows(rows);
    ViewsAt(rows);
    forall i | 0 <= i < |us| ensures views[i] == UserCall(sessions, us[i]).args { UserShown(sessions, us[i]); }
  }

  /** /users and /subscribed with a team: one call a user, in order. */
  lemma {:induction false} UserListShows(s: Screen, code: uint16, sessions: map<int, Bytes>, us: seq<User>, team: Bytes)
    requires code == RES_USERS_LIST || code == RES_SUBSCRIBED_USERS
    requires Small(Packet(code, EncodeList(StatusRows(sessions, us))))
    ensures React(s, Packet(code, EncodeList(StatusRows(sessions, us))), team)
         == s.(shown := s.shown + UserCalls(sessions, us))
  {
    var views := UsersBack(code, sessions, us);
    var calls := UserCalls(sessions, us);
    PlainListShows(s, Packet(code, EncodeList(StatusRows(sessions, us))), team, views, PrintUsers, calls);
  }

  function TeamCall(t: Team): Shown {
    Shown(PrintTeams, [Word(Trim(t.uuid)), Word(Trim(t.name)), Word(Trim(t.description))])
  }

  function TeamCalls(ts: seq<Team>): seq<Shown> {
    seq(|ts|, i requires 0 <= i < |ts| => TeamCall(ts[i]))
  }

  /** /list at the root and /subscribed: one call a team, in order. */
  lemma {:induction false} TeamListShows(s: Screen, code: uint16, ts: seq<Team>, team: Bytes)
    requires code == RES_LIST_TEAMS || code == RES_SUBSCRIBED_TEAMS
    requires Small(Packet(code, EncodeList(TeamRows(ts))))
    ensures React(s, Packet(code, EncodeList(TeamRows(ts))), team) == s.(shown := s.shown + TeamCalls(ts))
  {
    TeamsBack(code, ts);
    PlainListShows(s, Packet(code, EncodeList(TeamRows(ts))), team, TeamViews(ts), PrintTeams, TeamCalls(ts));
  }

  function ChannelCall(c: Channel): Shown {
    Shown(TeamPrintChannels, [Word(Trim(c.uuid)), Word(Trim(c.name)), Word(Trim(c.description))])
  }

  function ChannelCalls(cs: seq<Channel>): seq<Shown> {
    seq(|cs|, i requires 0 <= i < |cs| => ChannelCall(cs[i]))
  }

  /** /list in a team: one call a channel, in order. */
  lemma {:induction false} ChannelListShows(s: Screen, cs: seq<Channel>, team: Bytes)
    requires Small(Packet(RES_LIST_CHANNELS, EncodeList(ChannelRows(cs))))
    ensures React(s, Packet(RES_LIST_CHANNELS, EncodeList(ChannelRows(cs))), team)
         == s.(shown := s.shown + ChannelCalls(cs))
  {
    ChannelsBack(cs);
    PlainListShows(s, Packet(RES_LIST_CHANNELS, EncodeList(ChannelRows(cs))), team, ChannelViews(cs),
                   TeamPrintChannels, ChannelCalls(cs));
  }

  function ThreadCall(k: Thread): Shown {
    Shown(ChannelPrintThreads, [Word(Trim(k.uuid)), Word(Trim(k.creator)), Moment(k.timestamp), Word(Trim(k.title)),
                                Word(Trim(k.body))])
  }

  function ThreadCalls(ks: seq<Thread>): seq<Shown> {
    seq(|ks|, i requires 0 <= i < |ks| => ThreadCall(ks[i]))
  }

  /** /list in a channel: one call a thread, in order. */
  lemma {:induction false} ThreadListShows(s: Screen, ks: seq<Thread>, team: Bytes)
    requires Small(Packet(RES_LIST_THREADS, EncodeList(ThreadRows(ks))))
    ensures React(s, Packet(RES_LIST_THREADS, EncodeList(ThreadRows(ks))), team)
         == s.(shown := s.shown + ThreadCalls(ks))
  {
    ThreadsBack(ks);
    PlainListShows(s, Packet(RES_LIST_THREADS, EncodeList(ThreadRows(ks))), team, ThreadViews(ks),
                   ChannelPrintThreads, ThreadCalls(ks));
  }

  function ReplyCall(thread: Uuid, r: Reply): Shown {
    Shown(ThreadPrintReplies, [Word(Trim(thread)), Word(Trim(r.creator)), Moment(r.timestamp), Word(Trim(r.body))])
  }

  function ReplyCalls(thread: Uuid, rs: seq<Reply>): seq<Shown> {
    seq(|rs|, i requires 0 <= i < |rs| => ReplyCall(thread, rs[i]))
  }

  /** /list in a thread: one call a reply, in order, under the thread's id. */
  lemma {:induction false} ReplyListShows(s: Screen, thread: Uuid, rs: seq<Reply>, team: Bytes)
    requires Small(Packet(RES_LIST_REPLIES, EncodeList(ReplyRows(thread, rs))))
    ensures React(s, Packet(RES_LIST_REPLIES, EncodeList(ReplyRows(thread, rs))), team)
         == s.(shown := s.shown + ReplyCalls(thread, rs))
  {
    RepliesBack(thread, rs);
    PlainListShows(s, Packet(RES_LIST_REPLIES, EncodeList(ReplyRows(thread, rs))), team, ReplyViews(thread, rs),
                   ThreadPrintReplies, ReplyCalls(thread, rs));
  }

  function LetterCall(m: Letter): Shown {
    Shown(PrivateMessagePrintMessages, [Word(Trim(m.sender)), Moment(m.timestamp), Word(Trim(m.body))])
  }

  function LetterCalls(ms: seq<Letter>): seq<Shown> {
    seq(|ms|, i requires 0 <= i < |ms| => LetterCall(ms[i]))
  }

  lemma {:induction false} LetterShown(m: Letter, me: Bytes, team: Bytes)
    ensures Display(RES_MESSAGES_LIST, ViewRow(LetterRow(m)), me, team) == [LetterCall(m)]
  {
    var row := LetterRow(m);
    View4(row[0], row[1], row[2], row[3]);
  }

  /** /messages: one call a letter, in order, with its author, its time and its body. */
  lemma {:induction false} HistoryShows(s: Screen, ms: seq<Letter>, team: Bytes)
    requires Small(Packet(RES_MESSAGES_LIST, EncodeList(LetterRows(ms))))
    ensures React(s, Packet(RES_MESSAGES_LIST, EncodeList(LetterRows(ms))), team)
         == s.(shown := s.shown + LetterCalls(ms))
  {
    var rows := LetterRows(ms);
    RowsFitLayouts();
    ListBack(RES_MESSAGES_LIST, rows);
    ViewsAt(rows);
    forall i | 0 <= i < |ms|
      ensures Display(RES_MESSAGES_LIST, ViewRows(rows)[i], s.me, team) == [LetterCalls(ms)[i]]
    {
      LetterShown(ms[i], s.me, team);
    }
    ListShows(s, Packet(RES_MESSAGES_LIST, EncodeList(rows)), team, ViewRows(rows), LetterCalls(ms));
  }

  // ---------------------------------------------------------------- packets one after the other

  lemma {:induction false} ReactAllMore(s: Screen, a: seq<Packet>, b: seq<Packet>, team: Bytes)
    ensures ReactAll(s, a + b, team) == ReactAll(ReactAll(s, a, team), b, team)
    decreases |a|
  {
    if a == [] {
      assert a + b == b;
    } else {
      assert (a + b)[0] == a[0] && (a + b)[1..] == a[1..] + b;
      ReactAllMore(React(s, a[0], team), a[1..], b, team);
    }
  }

  /** What is shown does not depend on where the stream was cut: more bytes show what the whole stream would have. */
  lemma {:induction false} CutsDoNotShow(s: Screen, heard: Bytes, more: Bytes, team: Bytes)
    ensures var before := ReactAll(s, Frames(heard).packets, team);
            ReactAll(before, Frames(Frames(heard).rest + more).packets, team)
              == ReactAll(s, Frames(heard + more).packets, team)
  {
    FramesMore(heard, more);
    ReactAllMore(s, Frames(heard).packets, Frames(Frames(heard).rest + more).packets, team);
  }
}
