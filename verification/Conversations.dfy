/** Private messages: one log, read as one history per unordered pair of users. */
module Conversations {
  import opened Octets
  import opened Words
  import opened Protocol
  import opened Records
  import opened ServerData
  import opened Handlers
  import opened System
  import opened Invariants
  import opened Soundness
  import opened Reachable
  import opened Connections
  import opened Commands

  lemma {:induction false} ConversationSnoc(s: seq<Letter>, m: Letter, a: Bytes, b: Bytes)
    ensures Conversation(s + [m], a, b) == Conversation(s, a, b) + if Between(m, a, b) then [m] else []
  {
    assert (s + [m])[..|s|] == s;
  }

  /** Both sides read the same history. */
  lemma {:induction false} Symmetric(s: seq<Letter>, a: Bytes, b: Bytes)
    ensures Conversation(s, a, b) == Conversation(s, b, a)
  {
    if s != [] { Symmetric(s[..|s| - 1], a, b); }
  }

  /** Positions in the log of the letters a history is made of. */
  ghost predicate Selects(picks: seq<nat>, s: seq<Letter>, a: Bytes, b: Bytes) {
    && (forall i | 0 <= i < |picks| :: picks[i] < |s| && Between(s[picks[i]], a, b))
    && (forall i, j | 0 <= i < j < |picks| :: picks[i] < picks[j])
    && (forall k | 0 <= k < |s| && Between(s[k], a, b) :: k in picks)
  }

  /** The letters at the given positions. */
  ghost function Picked(s: seq<Letter>, picks: seq<nat>): seq<Letter>
    requires forall i | 0 <= i < |picks| :: picks[i] < |s|
  {
    seq(|picks|, i requires 0 <= i < |picks| => s[picks[i]])
  }

  lemma {:induction false} SelectsMore(picks: seq<nat>, s: seq<Letter>, m: Letter, a: Bytes, b: Bytes)
    requires Selects(picks, s, a, b) && Between(m, a, b)
    ensures Selects(picks + [|s|], s + [m], a, b)
  {
    var t, all := s + [m], picks + [|s|];
    forall k | 0 <= k < |t| && Between(t[k], a, b) ensures k in all {
      if k < |s| {
        assert Between(s[k], a, b);
        assert k in picks;
      } else {
        assert all[|picks|] == k;
      }
    }
  }

  lemma {:induction false} SelectsSame(picks: seq<nat>, s: seq<Letter>, m: Letter, a: Bytes, b: Bytes)
    requires Selects(picks, s, a, b) && !Between(m, a, b)
    ensures Selects(picks, s + [m], a, b)
  {
    var t := s + [m];
    forall k | 0 <= k < |t| && Between(t[k], a, b) ensures k in picks {
      assert t[k] == s[k];
    }
  }

  lemma {:induction false} PickedSnoc(s: seq<Letter>, m: Letter, picks: seq<nat>)
    requires forall i | 0 <= i < |picks| :: picks[i] < |s|
    ensures Picked(s + [m], picks) == Picked(s, picks)
    ensures Picked(s + [m], picks + [|s|]) == Picked(s, picks) + [m]
  {
  }

  /** A history is exactly the letters between the two users, in the order they were sent. */
  lemma {:induction false} HistoryIsSubsequence(s: seq<Letter>, a: Bytes, b: Bytes) returns (picks: seq<nat>)
    ensures Selects(picks, s, a, b)
    ensures Conversation(s, a, b) == Picked(s, picks)
  {
    if s == [] {
      picks := [];
    } else {
      var init, m := s[..|s| - 1], s[|s| - 1];
      picks := HistoryIsSubsequence(init, a, b);
      assert s == init + [m];
      PickedSnoc(init, m, picks);
      if Between(m, a, b) {
        SelectsMore(picks, init, m, a, b);
        picks := picks + [|init|];
      } else {
        SelectsSame(picks, init, m, a, b);
      }
    }
  }

  /**
   * When a message is accepted: exactly if it names a user by its 36 bytes, online or not. An id that names
   * nobody comes back, anything shorter is invalid.
   */
  lemma {:induction false} SendDecides(d: Data, fd: int, to: Bytes, body: Bytes, now: Image)
    requires fd in d.sessions
    ensures var r := Send(d, fd, to, body, now).result.response;
            && (r.code == RES_SEND_OK <==> |to| == 36 && to in UserIds(d.users))
            && r == if |to| != 36 then Packet(ERR_INVALID_COMMAND, [])
                    else if to !in UserIds(d.users) then Packet(ERR_UNKNOWN_USER, to)
                    else Packet(RES_SEND_OK, [])
  {
    if |to| == 36 { EchoIs(to); }
  }

  /** The same three cases for a history. */
  lemma {:induction false} HistoryDecides(d: Data, fd: int, other: Bytes)
    requires fd in d.sessions
    ensures var r := History(d, fd, other).result.response;
            && (r.code == RES_MESSAGES_LIST <==> |other| == 36 && other in UserIds(d.users))
            && (|other| != 36 ==> r == Packet(ERR_INVALID_COMMAND, []))
            && (|other| == 36 && other !in UserIds(d.users) ==> r == Packet(ERR_UNKNOWN_USER, other))
  {
    if |other| == 36 { EchoIs(other); }
  }

  lemma {:induction false} EchoIs(x: Uuid)
    ensures Encode([Str(Fixed(x, 36))]) == x
  {
    FixedSame(x);
    assert Encode([Str(x)]) == x + Encode([Str(x)][1..]);
  }

  /**
   * A message to a registered user, online or not, is appended to the history of its sender and receiver, and to
   * no other; one to anybody else changes nothing.
   */
  lemma {:induction false} SendExtendsOneHistory(d: Data, fd: int, to: Bytes, body: Bytes, now: Image, a: Bytes,
                                                 b: Bytes)
    requires DataOk(d) && fd in d.sessions
    ensures |d.sessions[fd]| == 36
    ensures var o := Send(d, fd, to, body, now);
            if to in UserIds(d.users) then
              && |to| == 36
              && (var m := Letter(d.sessions[fd], to, Fixed(Trim(body), 512), now);
                  Conversation(o.data.letters, a, b)
                    == Conversation(d.letters, a, b)
                     + if (a == d.sessions[fd] && b == to) || (a == to && b == d.sessions[fd]) then [m] else [])
            else o.data == d
  {
    SendLogs(d, fd, to, body, now);
    if to in UserIds(d.users) {
      ConversationSnoc(d.letters, Letter(d.sessions[fd], to, Fixed(Trim(body), 512), now), a, b);
    }
  }

  /** The letter that an accepted message leaves at the end of the log. */
  lemma {:induction false} SendLogs(d: Data, fd: int, to: Bytes, body: Bytes, now: Image)
    requires DataOk(d) && fd in d.sessions
    ensures |d.sessions[fd]| == 36
    ensures var o := Send(d, fd, to, body, now);
            if to in UserIds(d.users) then
              && |to| == 36
              && o.data == d.(letters := d.letters + [Letter(d.sessions[fd], to, Fixed(Trim(body), 512), now)])
            else o.data == d
  {
    NamesUser(d, d.sessions[fd]);
    FixedSame(d.sessions[fd]);
    if to in UserIds(d.users) { NamesUser(d, to); }
  }

  /** What a client puts on the wire for /send. */
  function SendRequest(to: Bytes, body: Bytes): Packet {
    Packet(CMD_SEND, Fixed(to, 36) + Fixed(body, 512))
  }

  lemma {:induction false} ExtractSend(to: Bytes, body: Bytes)
    ensures Extract(SendRequest(to, body).payload, 0, 36) == Fixed(to, 36)
    ensures Extract(SendRequest(to, body).payload, 36, 512) == Fixed(body, 512)
  {
    var p := SendRequest(to, body).payload;
    assert p[0..36] == Fixed(to, 36);
    assert p[36..36 + 512] == Fixed(body, 512);
  }

  lemma {:induction false} BodySurvives(body: Bytes)
    ensures Trim(Fixed(Trim(Fixed(body, 512)), 512)) == Cut(body, 512)
  {
    TrimFixed(body, 512);
    TrimFixed(Cut(body, 512), 512);
    TrimNulFree(Cut(body, 512));
  }

  lemma {:induction false} ViewLast(rows: seq<Row>, row: Row)
    ensures |ViewRows(rows)| == |rows|
    ensures ViewRows(rows + [row]) == ViewRows(rows) + [ViewRow(row)]
  {
    if rows == [] {
      assert rows + [row] == [row];
      assert [row][1..] == [];
    } else {
      ViewLast(rows[1..], row);
      assert (rows + [row])[1..] == rows[1..] + [row];
    }
  }

  lemma {:induction false} ViewLetter(m: Letter)
    requires 0 !in m.sender && 0 !in m.receiver
    ensures ViewRow(LetterRow(m)) == [Word(m.sender), Word(m.receiver), Moment(m.timestamp), Word(Trim(m.body))]
  {
    TrimNulFree(m.sender);
    TrimNulFree(m.receiver);
    var row := LetterRow(m);
    var row1: Row := [Str(m.receiver), At(m.timestamp), Str(m.body)];
    var row2: Row := [At(m.timestamp), Str(m.body)];
    var row3: Row := [Str(m.body)];
    assert row[1..] == row1 && row1[1..] == row2 && row2[1..] == row3 && row3[1..] == [];
    assert ViewRow(row3) == [Word(Trim(m.body))];
    assert ViewRow(row2) == [Moment(m.timestamp)] + ViewRow(row3);
    assert ViewRow(row1) == [Word(m.receiver)] + ViewRow(row2);
  }

  /** The letter that a client's /send leaves in the log. */
  function SentLetter(d: Data, fd: int, to: Bytes, body: Bytes, now: Image): Letter {
    Letter(Fixed(Sender(d, fd), 36), Fixed(to, 36), Fixed(Trim(Fixed(body, 512)), 512), now)
  }

  function Sender(d: Data, fd: int): Bytes { if fd in d.sessions then d.sessions[fd] else [] }

  lemma {:induction false} RowsGain(d: Data, fd: int, to: Bytes, body: Bytes, id: Uuid, now: Image, a: Bytes, b: Bytes)
    requires DataOk(d) && fd in d.sessions
    requires Fixed(to, 36) in UserIds(d.users)
    requires (a == d.sessions[fd] && b == Fixed(to, 36)) || (a == Fixed(to, 36) && b == d.sessions[fd])
    ensures var e := Handle(d, fd, SendRequest(to, body), id, now).data;
            && e.users == d.users && e.sessions == d.sessions
            && LetterRows(Conversation(e.letters, a, b))
                 == LetterRows(Conversation(d.letters, a, b)) + [LetterRow(SentLetter(d, fd, to, body, now))]
  {
    var x, y := Fixed(to, 36), Fixed(body, 512);
    ExtractSend(to, body);
    Routes(d, fd, SendRequest(to, body), id, now);
    SendExtendsOneHistory(d, fd, x, y, now, a, b);
    FixedSame(d.sessions[fd]);
    RowsOf(Conversation(d.letters, a, b), SentLetter(d, fd, to, body, now));
  }

  lemma {:induction false} RowsOf(before: seq<Letter>, m: Letter)
    ensures LetterRows(before + [m]) == LetterRows(before) + [LetterRow(m)]
  {
  }

  lemma {:induction false} HistoryDecodes(d: Data, g: int, other: Bytes)
    requires g in d.sessions && |other| == 36 && other in UserIds(d.users)
    requires Small(History(d, g, other).result.response)
    ensures Decode(History(d, g, other).result.response)
         == (ViewRows(LetterRows(Conversation(d.letters, d.sessions[g], other))), [])
  {
    RowsFitLayouts();
    ListBack(RES_MESSAGES_LIST, LetterRows(Conversation(d.letters, d.sessions[g], other)));
  }

  /**
   * A message typed at one client to any registered user and listed at the other: the history answered to either
   * party is the one before plus one record, which decodes to sender, receiver, time, and the body up to its first
   * NUL or its first 512 bytes.
   */
  lemma {:induction false} MessageArrives(d: Data, fd: int, to: Bytes, body: Bytes, id: Uuid, now: Image, g: int,
                                          other: Bytes)
    requires DataOk(d) && fd in d.sessions && g in d.sessions
    requires Fixed(to, 36) in UserIds(d.users)
    requires || (d.sessions[g] == d.sessions[fd] && other == Fixed(to, 36))
             || (d.sessions[g] == Fixed(to, 36) && other == d.sessions[fd])
    requires Small(History(Handle(d, fd, SendRequest(to, body), id, now).data, g, other).result.response)
    ensures Decode(History(Handle(d, fd, SendRequest(to, body), id, now).data, g, other).result.response)
         == (ViewRows(LetterRows(Conversation(d.letters, d.sessions[g], other)))
               + [[Word(d.sessions[fd]), Word(Fixed(to, 36)), Moment(now), Word(Cut(body, 512))]], [])
  {
    var e := Handle(d, fd, SendRequest(to, body), id, now).data;
    RowsGain(d, fd, to, body, id, now, d.sessions[g], other);
    NamesUser(d, d.sessions[fd]);
    NamesUser(d, Fixed(to, 36));
    HistoryDecodes(e, g, other);
    ViewSent(LetterRows(Conversation(d.letters, d.sessions[g], other)), d, fd, to, body, now);
  }

  const SEND_NAME := Ascii("send")

  /** The line /send "to" "body" issues exactly that request. */
  lemma {:induction false} TypedSend(m: Mirror, to: Bytes, body: Bytes, gaps: seq<nat>)
    requires QUOTE !in to && QUOTE !in body && |gaps| == 2
    ensures Enter(m, [SLASH] + SEND_NAME + ShowAll([Quoted(to), Quoted(body)], gaps)).packets == [SendRequest(to, body)]
  {
    var ts := [Quoted(to), Quoted(body)];
    assert forall i | 0 <= i < |SEND_NAME| :: SEND_NAME[i] != SPACE;
    ParserUndoesPrinter(SEND_NAME, ts, gaps);
    assert ts[1..] == [Quoted(body)] && ts[1..][1..] == [];
    assert Texts(ts[1..]) == [body] + Texts([]);
    assert Texts(ts) == [to, body];
    SendIsSend(m, Command(SEND_NAME, [to, body], true));
  }

  lemma {:induction false} SendIsSend(m: Mirror, c: Command)
    requires c.name == SEND_NAME
    ensures Perform(m, c) == SendCommand(m, c.args)
  {
    assert |Ascii("send")| == 4 && Ascii("send")[0] == 's' as int;
    assert Ascii("user")[0] == 'u' as int;
  }

  lemma {:induction false} ViewSent(before: seq<Row>, d: Data, fd: int, to: Bytes, body: Bytes, now: Image)
    requires fd in d.sessions && |d.sessions[fd]| == 36 && 0 !in d.sessions[fd] && 0 !in Fixed(to, 36)
    ensures ViewRows(before + [LetterRow(SentLetter(d, fd, to, body, now))])
         == ViewRows(before) + [[Word(d.sessions[fd]), Word(Fixed(to, 36)), Moment(now), Word(Cut(body, 512))]]
  {
    var m := SentLetter(d, fd, to, body, now);
    assert m.sender == d.sessions[fd];
    ViewLast(before, LetterRow(m));
    ViewLetter(m);
    BodySurvives(body);
  }

  lemma {:induction false} NamesUser(d: Data, x: Bytes)
    requires UsersOk(d.users) && x in UserIds(d.users)
    ensures |x| == 36 && 0 !in x && FirstOf(UserIds(d.users), x) < |d.users|
  {
    var i := FirstOf(UserIds(d.users), x);
    assert UserIds(d.users)[i] == d.users[i].uuid;
  }

  /**
   * A private message goes to the receiver's other sessions, once each, and into no other queue; the sender's
   * own descriptor gets the reply alone.
   */
  lemma {:induction false} SendReaches(w: World, s: Sys, fd: int, q: Packet)
    requires WorldOk(w, s.ticks + 1) && SysOk(w, s) && fd in s.data.sessions && q.code == CMD_SEND
    ensures fd in s.clients
    ensures var t := Dispatch(w, s, fd, q);
            forall f | f in s.clients ::
              t.clients[f].past.queued == s.clients[f].past.queued +
                if f == fd then [Handle(s.data, fd, q, w.id(s.ticks), w.clock(s.ticks)).result.response]
                else Expected(s.data, fd, Extract(q.payload, 0, 36), Extract(q.payload, 36, 512), f)
  {
    var d, now := s.data, w.clock(s.ticks);
    var to, body := Extract(q.payload, 0, 36), Extract(q.payload, 36, 512);
    Routes(d, fd, q, w.id(s.ticks), now);
    forall f | f in s.clients && f != fd
      ensures PushesFor(Send(d, fd, to, body, now).result.pushes, f) == Expected(d, fd, to, body, f)
    {
      SendPushes(d, fd, to, body, now, f);
    }
  }

  /** What f hears of a message that fd sends: sender and body, if the message is for f's user. */
  function Expected(d: Data, fd: int, to: Bytes, body: Bytes, f: int): seq<Packet>
    requires fd in d.sessions
  {
    if f in d.sessions && d.sessions[f] == to
    then [Packet(EVT_MESSAGE_RECEIVED, d.sessions[fd] + Fixed(Trim(body), 512))]
    else []
  }

  lemma {:induction false} TwoTexts(a: Bytes, b: Bytes)
    ensures Encode([Str(a), Str(b)]) == a + b
  {
    var tail: Row := [Str(b)];
    assert [Str(a), Str(b)][1..] == tail && tail[1..] == [];
    assert Encode(tail) == b + Encode([]);
  }

  lemma {:induction false} SendPushList(d: Data, fd: int, to: Bytes, body: Bytes, now: Image)
    requires fd in d.sessions && |d.sessions[fd]| == 36
    requires to in UserIds(d.users) ==> |to| == 36
    ensures var fds := UserFds(d.sessions, to);
            var event := Packet(EVT_MESSAGE_RECEIVED, d.sessions[fd] + Fixed(Trim(body), 512));
            Send(d, fd, to, body, now).result.pushes
              == if to in UserIds(d.users) && fds != [] then [Push(event, fds)] else []
  {
    FixedSame(d.sessions[fd]);
    TwoTexts(d.sessions[fd], Fixed(Trim(body), 512));
  }

  lemma {:induction false} SendPushes(d: Data, fd: int, to: Bytes, body: Bytes, now: Image, f: int)
    requires DataOk(d) && fd in d.sessions
    ensures PushesFor(Send(d, fd, to, body, now).result.pushes, f) == Expected(d, fd, to, body, f)
  {
    NamesUser(d, d.sessions[fd]);
    if to in UserIds(d.users) { NamesUser(d, to); }
    SendPushList(d, fd, to, body, now);
    var fds := UserFds(d.sessions, to);
    var event := Packet(EVT_MESSAGE_RECEIVED, d.sessions[fd] + Fixed(Trim(body), 512));
    IncreasingNoDuplicates(fds);
    assert f in fds <==> f in d.sessions && d.sessions[f] == to;
    OnePush(Push(event, fds), f);
    assert fds == [] ==> f !in fds;
  }
}
