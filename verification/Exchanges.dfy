/** From one user's keyboard to the other user's screen. */
module Exchanges {
  import opened Octets
  import opened Words
  import opened Protocol
  import opened Records
  import opened ServerData
  import opened Handlers
  import opened Invariants
  import opened Soundness
  import opened Commands
  import opened Conversations
  import opened Requests
  import opened Screens
  import opened Shows
  import opened Typed

  lemma {:induction false} OneLetterMore(ms: seq<Letter>, m: Letter)
    ensures LetterCalls(ms + [m]) == LetterCalls(ms) + [LetterCall(m)]
    ensures |EncodeList(LetterRows(ms))| <= |EncodeList(LetterRows(ms + [m]))|
  {
    RowsOf(ms, m);
    EncodeRowsSnoc(LetterRows(ms), LetterRow(m));
  }

  /** What /messages shows to the user of g, who asks for the letters exchanged with another user. */
  lemma {:induction false} HistoryOnScreen(d: Data, g: int, other: Bytes, s: Screen, team: Bytes, id: Uuid, now: Image)
    requires g in d.sessions && |other| == 36 && other in UserIds(d.users)
    requires Small(Packet(RES_MESSAGES_LIST, EncodeList(LetterRows(Conversation(d.letters, d.sessions[g], other)))))
    ensures React(s, Handle(d, g, Packet(CMD_MESSAGES, other), id, now).result.response, team)
         == s.(shown := s.shown + LetterCalls(Conversation(d.letters, d.sessions[g], other)))
  {
    HistoryAnswered(d, g, Packet(CMD_MESSAGES, other), id, now);
    assert other[..36] == other;
    HistoryShows(s, Conversation(d.letters, d.sessions[g], other), team);
  }

  /** The line /send "receiver" "body". */
  function SendLine(to: Bytes, body: Bytes, gaps: seq<nat>): Bytes
    requires |gaps| == 2
  {
    Line(Ascii("send"), [Quoted(to), Quoted(body)], gaps)
  }

  /** The line /messages "user". */
  function MessagesLine(other: Bytes, gaps: seq<nat>): Bytes
    requires |gaps| == 1
  {
    Line(Ascii("messages"), [Quoted(other)], gaps)
  }

  lemma {:induction false} LinesTyped(m: Mirror, to: Bytes, body: Bytes, twoGaps: seq<nat>, oneGap: seq<nat>)
    requires QUOTE !in to && QUOTE !in body && |twoGaps| == 2 && |oneGap| == 1 && |to| == 36
    ensures Enter(m, SendLine(to, body, twoGaps)).packets == [Packet(CMD_SEND, to + Fixed(body, 512))]
    ensures Enter(m, MessagesLine(to, oneGap)).packets == [Packet(CMD_MESSAGES, to)]
  {
    FixedSame(to);
    SendTyped(m, [Quoted(to), Quoted(body)], twoGaps);
    MessagesTyped(m, [Quoted(to)], oneGap);
  }

  /** The log after a letter of full size from fd to another user. */
  lemma {:induction false} SendLeaves(d: Data, fd: int, to: Uuid, body: Bytes, id: Uuid, now: Image, a: Bytes, b: Bytes)
    requires DataOk(d) && fd in d.sessions && to in UserIds(d.users)
    requires (a == d.sessions[fd] && b == to) || (a == to && b == d.sessions[fd])
    ensures |d.sessions[fd]| == 36
    ensures var e := Handle(d, fd, Packet(CMD_SEND, to + Fixed(body, 512)), id, now).data;
            && e.users == d.users && e.sessions == d.sessions
            && Conversation(e.letters, a, b)
                 == Conversation(d.letters, a, b)
                  + [Letter(d.sessions[fd], to, Fixed(Trim(Fixed(body, 512)), 512), now)]
  {
    var q := Packet(CMD_SEND, to + Fixed(body, 512));
    assert q.payload[..36] == to && q.payload[36..548] == Fixed(body, 512);
    SendAnswered(d, fd, q, id, now);
    ConversationSnoc(d.letters, Letter(d.sessions[fd], to, Fixed(Trim(Fixed(body, 512)), 512), now), a, b);
  }

  /**
   * One user types /send with the other's id and a body, the other types /messages with the first one's id: the
   * second one's screen shows what it would have shown before, and one call more, with the author's id, the
   * server's time, and the body up to its first NUL or its first 512 bytes.
   */
  lemma {:induction false} TypedMessageIsSeen(d: Data, fd: int, g: int, body: Bytes, m: Mirror, n: Mirror,
                                              twoGaps: seq<nat>, oneGap: seq<nat>, id: Uuid, now: Image, s: Screen,
                                              team: Bytes)
    requires DataOk(d) && fd in d.sessions && g in d.sessions && |twoGaps| == 2 && |oneGap| == 1
    requires QUOTE !in d.sessions[fd] && QUOTE !in d.sessions[g] && QUOTE !in body
    ensures var (sent, asked) := (Enter(m, SendLine(d.sessions[g], body, twoGaps)).packets,
                                  Enter(n, MessagesLine(d.sessions[fd], oneGap)).packets);
            && |sent| == 1 && |asked| == 1
            && (var after := Handle(Handle(d, fd, sent[0], id, now).data, g, asked[0], id, now).result.response;
                Small(after) ==>
                  React(s, after, team)
                    == Plus(React(s, Handle(d, g, asked[0], id, now).result.response, team),
                            PrivateMessagePrintMessages,
                            [Word(d.sessions[fd]), Moment(now), Word(Cut(body, 512))]))
  {
    var (author, reader) := (d.sessions[fd], d.sessions[g]);
    NamesUser(d, author);
    NamesUser(d, reader);
    LinesTyped(m, reader, body, twoGaps, oneGap);
    LinesTyped(n, author, body, twoGaps, oneGap);
    var q := Packet(CMD_SEND, reader + Fixed(body, 512));
    var e := Handle(d, fd, q, id, now).data;
    var before := Conversation(d.letters, reader, author);
    var letter := Letter(author, reader, Fixed(Trim(Fixed(body, 512)), 512), now);
    SendLeaves(d, fd, reader, body, id, now, reader, author);
    var asked := Packet(CMD_MESSAGES, author);
    assert author[..36] == author;
    HistoryAnswered(e, g, asked, id, now);
    if Small(Handle(e, g, asked, id, now).result.response) {
      OneLetterMore(before, letter);
      HistoryOnScreen(d, g, author, s, team, id, now);
      HistoryOnScreen(e, g, author, s, team, id, now);
      LetterSeen(letter, body);
      Associate(s.shown, LetterCalls(before), [LetterCall(letter)]);
    }
  }

  lemma {:induction false} LetterSeen(letter: Letter, body: Bytes)
    requires 0 !in letter.sender && letter.body == Fixed(Trim(Fixed(body, 512)), 512)
    ensures LetterCall(letter)
         == Shown(PrivateMessagePrintMessages,
                  [Word(letter.sender), Moment(letter.timestamp), Word(Cut(body, 512))])
  {
    TrimNulFree(letter.sender);
    BodySurvives(body);
  }
}
