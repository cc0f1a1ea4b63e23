/** What the client shows of every packet: the display library's calls and their arguments. */
module Screens {
  import opened Octets
  import opened Words
  import opened Protocol
  import opened Records
  import opened ServerData
  import opened Readers

  // ---------------------------------------------------------------- what a packet shows

  /** The functions of the display library, and the line printed for an invalid command. */
  datatype Call =
    | EventLoggedIn | EventLoggedOut | EventPrivateMessageReceived
    | EventTeamCreated | EventChannelCreated | EventThreadCreated | EventThreadReplyReceived
    | PrintUsers | PrintUser | PrintTeams | PrintTeam | PrintChannel | PrintThread
    | TeamPrintChannels | ChannelPrintThreads | ThreadPrintReplies | PrivateMessagePrintMessages
    | PrintTeamCreated | PrintChannelCreated | PrintThreadCreated | PrintReplyCreated
    | PrintSubscribed | PrintUnsubscribed
    | ErrorUnauthorized | ErrorAlreadyExist
    | ErrorUnknownTeam | ErrorUnknownChannel | ErrorUnknownThread | ErrorUnknownUser
    | InvalidCommand

  /** One call of the display library, and its arguments. */
  datatype Shown = Shown(call: Call, args: seq<Arg>)

  datatype Screen = Screen(shown: seq<Shown>, me: Bytes, running: bool)

  /** The call that a code leads to; a message accepted shows nothing. */
  function CallOf(code: uint16): Option<Call> {
    if code == RES_LOGIN_OK || code == EVT_USER_LOGGED_IN then Some(EventLoggedIn)
    else if code == RES_LOGOUT_OK || code == EVT_USER_LOGGED_OUT then Some(EventLoggedOut)
    else if code == RES_SUBSCRIBE_OK then Some(PrintSubscribed)
    else if code == RES_UNSUBSCRIBE_OK then Some(PrintUnsubscribed)
    else if code == RES_USER_INFO || code == RES_USER_DETAILS then Some(PrintUser)
    else if code == RES_TEAM_INFO then Some(PrintTeam)
    else if code == RES_TEAM_CREATED then Some(PrintTeamCreated)
    else if code == RES_CHANNEL_INFO then Some(PrintChannel)
    else if code == RES_CHANNEL_CREATED then Some(PrintChannelCreated)
    else if code == RES_THREAD_INFO then Some(PrintThread)
    else if code == RES_THREAD_CREATED then Some(PrintThreadCreated)
    else if code == RES_REPLY_CREATED then Some(PrintReplyCreated)
    else if code == RES_USERS_LIST || code == RES_SUBSCRIBED_USERS then Some(PrintUsers)
    else if code == RES_LIST_TEAMS || code == RES_SUBSCRIBED_TEAMS then Some(PrintTeams)
    else if code == RES_LIST_CHANNELS then Some(TeamPrintChannels)
    else if code == RES_LIST_THREADS then Some(ChannelPrintThreads)
    else if code == RES_LIST_REPLIES then Some(ThreadPrintReplies)
    else if code == RES_MESSAGES_LIST then Some(PrivateMessagePrintMessages)
    else if code == ERR_UNAUTHORIZED || code == ERR_NOT_SUBSCRIBED then Some(ErrorUnauthorized)
    else if code == ERR_ALREADY_EXISTS then Some(ErrorAlreadyExist)
    else if code == ERR_UNKNOWN_TEAM then Some(ErrorUnknownTeam)
    else if code == ERR_UNKNOWN_CHANNEL then Some(ErrorUnknownChannel)
    else if code == ERR_UNKNOWN_THREAD then Some(ErrorUnknownThread)
    else if code == ERR_UNKNOWN_USER then Some(ErrorUnknownUser)
    else if code == ERR_INVALID_COMMAND then Some(InvalidCommand)
    else if code == EVT_MESSAGE_RECEIVED then Some(EventPrivateMessageReceived)
    else if code == EVT_TEAM_CREATED then Some(EventTeamCreated)
    else if code == EVT_CHANNEL_CREATED then Some(EventChannelCreated)
    else if code == EVT_THREAD_CREATED then Some(EventThreadCreated)
    else if code == EVT_REPLY_CREATED then Some(EventThreadReplyReceived)
    else None
  }

  /** The arguments for one decoded record. The team is the one the client believes it is in. */
  function Arguments(code: uint16, row: seq<Arg>, me: Bytes, team: Bytes): seq<Arg> {
    if code == RES_SUBSCRIBE_OK || code == RES_UNSUBSCRIBE_OK then [Word(me)] + row
    else if code == RES_USER_DETAILS then row + [Number(-1)]
    else if code == RES_MESSAGES_LIST && |row| == 4 then [row[0], row[2], row[3]]
    else if code == EVT_REPLY_CREATED && |row| == 4 then [Word(Trim(team)), row[0], row[1], row[3]]
    else row
  }

  function Display(code: uint16, row: seq<Arg>, me: Bytes, team: Bytes): seq<Shown> {
    match CallOf(code)
    case Some(call) => [Shown(call, Arguments(code, row, me, team))]
    case None => []
  }

  function DisplayAll(code: uint16, rows: seq<seq<Arg>>, me: Bytes, team: Bytes): seq<Shown> {
    if rows == [] then [] else Display(code, rows[0], me, team) + DisplayAll(code, rows[1..], me, team)
  }

  /** The id in a login reply. */
  function FirstWord(rows: seq<seq<Arg>>): Bytes {
    if |rows| > 0 && |rows[0]| > 0 && rows[0][0].Word? then rows[0][0].text else []
  }

  /** Everything a packet does to the client: its records decoded and shown, its own id, and when to stop. */
  function React(s: Screen, p: Packet, team: Bytes): Screen {
    var rows := Decode(p).0;
    Screen(s.shown + DisplayAll(p.code, rows, s.me, team),
           if p.code == RES_LOGIN_OK then FirstWord(rows) else s.me,
           s.running && p.code != RES_LOGOUT_OK)
  }

  function ReactAll(s: Screen, ps: seq<Packet>, team: Bytes): Screen
    decreases |ps|
  {
    if ps == [] then s else ReactAll(React(s, ps[0], team), ps[1..], team)
  }

  lemma {:induction false} OneRow(code: uint16, row: seq<Arg>, me: Bytes, team: Bytes)
    ensures DisplayAll(code, [row], me, team) == Display(code, row, me, team)
  {
    assert DisplayAll(code, [row], me, team) == Display(code, row, me, team) + DisplayAll(code, [row][1..], me, team);
  }

  /** A reply of one record, read by the readers of its layout. */
  lemma {:induction false} ReactOnce(s: Screen, p: Packet, team: Bytes, row: seq<Arg>, rest: Bytes)
    requires LayoutOf(p.code).Once? && ReadFields(LayoutOf(p.code).fields, p.payload) == (row, rest)
    ensures React(s, p, team)
         == Screen(s.shown + Display(p.code, row, s.me, team),
                   if p.code == RES_LOGIN_OK then FirstWord([row]) else s.me, s.running && p.code != RES_LOGOUT_OK)
  {
    OneRow(p.code, row, s.me, team);
  }

  lemma {:induction false} ReactNothing(s: Screen, p: Packet, team: Bytes)
    requires LayoutOf(p.code).NoLayout?
    ensures React(s, p, team) == s
  {
    assert s.shown + [] == s.shown;
  }

  /** What the calls for n more records of a counted reply are. */
  function Pending(code: uint16, n: nat, fields: seq<Field>, p: Bytes, me: Bytes, team: Bytes): seq<Shown> {
    DisplayAll(code, ReadRows(n, fields, p).0, me, team)
  }

  /** A counted reply, once its count is read. */
  lemma {:induction false} ListStart(s: Screen, p: Packet, team: Bytes, fields: seq<Field>, n: uint32, rest: Bytes)
    requires LayoutOf(p.code) == Counted(fields) && ReadCount(p.payload) == (n, rest)
    ensures React(s, p, team) == s.(shown := s.shown + Pending(p.code, n, fields, rest, s.me, team))
  {
  }

  /** One record more of a counted reply. */
  lemma {:induction false} RowMore(code: uint16, shown: seq<Shown>, n: nat, fields: seq<Field>, p: Bytes,
                                   row: seq<Arg>, q: Bytes, me: Bytes, team: Bytes)
    requires n > 0 && ReadFields(fields, p) == (row, q)
    ensures shown + Pending(code, n, fields, p, me, team)
         == shown + Display(code, row, me, team) + Pending(code, n - 1, fields, q, me, team)
  {
    var rest := ReadRows(n - 1, fields, q).0;
    assert ReadRows(n, fields, p).0 == [row] + rest;
    assert ([row] + rest)[1..] == rest;
    Associate(shown, Display(code, row, me, team), DisplayAll(code, rest, me, team));
  }
}
