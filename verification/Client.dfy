/** The client, in place: what it shows for every packet, what it sends for every line. */
module Client {
  import opened Octets
  import opened Words
  import opened Protocol
  import opened Records
  import opened ServerData
  import opened Delivery
  import opened Commands
  import opened Readers
  import opened Screens
  import opened Tokenizer

  lemma {:induction false} Whole(p: Bytes)
    ensures p[0..] == p
  {
  }

  lemma {:induction false} InputMore(typed: Bytes, more: Bytes, rest: Bytes, standing: Issue)
    requires Session(Lines(typed).lines) == standing && Lines(typed).rest == rest
    ensures Lines(typed + more).rest == Lines(rest + more).rest
    ensures Session(Lines(typed + more).lines) == Later(standing, Lines(rest + more).lines)
  {
    SessionMore(typed, more);
  }

  lemma {:induction false} FramesRest(heard: Bytes, more: Bytes)
    ensures Frames(heard + more).rest == Frames(Frames(heard).rest + more).rest
  {
    FramesMore(heard, more);
  }

  /** One message more at the end of the outgoing stream. */
  lemma {:induction false} StreamMore(written: Bytes, send: Bytes, issued: seq<Packet>, p: Packet)
    requires written + send == Messages(issued)
    ensures written + (send + Message(p)) == Messages(issued + [p])
  {
    MessagesAppend(issued, [p]);
    assert Messages([p]) == Message(p) + Messages([p][1..]);
    Associate(written, send, Message(p));
  }

  lemma {:induction false} MessageParts(send: Bytes, code: uint16, payload: Bytes)
    requires |payload| < TWO32
    ensures send + (Net16(code) + Net32(|payload|)) + payload == send + Message(Packet(code, payload))
  {
    Associate(send, Net16(code) + Net32(|payload|), payload);
  }

  /** _send_packet's header: two memcpy calls into a six-byte array. */
  method PackHeader(code: uint16, size: uint32) returns (header: array<byte>)
    ensures fresh(header) && header[..] == Net16(code) + Net32(size)
  {
    var codeNet, sizeNet := Net16(code), Net32(size);
    header := new byte[6];
    forall i | 0 <= i < 2 { header[i] := codeNet[i]; }
    forall i | 0 <= i < 4 { header[2 + i] := sizeNet[i]; }
    assert header[..2] == codeNet && header[2..] == sizeNet;
  }

  class Client {
    var recvBuf: Bytes
    var sendBuf: Bytes
    var stdinBuf: Bytes
    var running: bool
    var userUuid: Bytes
    var useLevel: byte
    var useTeam: Bytes
    var useChannel: Bytes
    var useThread: Bytes

    /** The display library's calls, and what the k-th write to the socket returns. */
    var shown: seq<Shown>
    const kernel: nat -> int
    var writes: nat

    /** Everything typed, everything received, every request issued, every byte written. */
    ghost var typed: Bytes
    ghost var heard: Bytes
    ghost var issued: seq<Packet>
    ghost var written: Bytes

    ghost function OnScreen(): Screen
      reads this
    {
      Screen(shown, userUuid, running)
    }

    function Use(): Mirror
      reads this
    {
      Mirror(useLevel, useTeam, useChannel, useThread)
    }

    /** The mirror, and all requests so far. */
    ghost function Standing(): Issue
      reads this
    {
      Issue(Use(), issued)
    }

    /** The outgoing stream, sent and unsent. */
    ghost predicate StreamOk()
      reads this
    {
      written + sendBuf == Messages(issued)
    }

    /** The requests issued and the client's standing depend on the bytes typed alone. */
    ghost predicate InputOk()
      reads this
    {
      Session(Lines(typed).lines) == Standing() && stdinBuf == Lines(typed).rest
    }

    ghost predicate Valid()
      reads this
    {
      StreamOk() && InputOk() && recvBuf == Frames(heard).rest
    }

    constructor (writeResults: nat -> int)
      ensures Valid() && typed == [] && heard == [] && OnScreen() == Screen([], [], true)
    {
      recvBuf, sendBuf, stdinBuf, running, userUuid := [], [], [], true, [];
      useLevel, useTeam, useChannel, useThread := USE_NONE, [], [], [];
      shown, kernel, writes := [], writeResults, 0;
      typed, heard, issued, written := [], [], [], [];
    }

    // -------------------------------------------------------------- Server_response.cpp

    /** A reply whose one record goes to the display as it was read. */
    method ShowRow(p: Packet, call: Call, row: seq<Arg>, ghost rest: Bytes)
      requires LayoutOf(p.code).Once? && ReadFields(LayoutOf(p.code).fields, p.payload) == (row, rest)
      requires p.code != RES_LOGIN_OK && p.code != RES_LOGOUT_OK
      requires Display(p.code, row, userUuid, useTeam) == [Shown(call, row)]
      modifies `shown
      ensures OnScreen() == React(old(OnScreen()), p, useTeam)
    {
      shown := shown + [Shown(call, row)];
      ReactOnce(old(OnScreen()), p, useTeam, row, rest);
    }

    method ShowAccount(p: Packet, call: Call)
      requires || p.code == RES_LOGIN_OK || p.code == RES_LOGOUT_OK
               || p.code == EVT_USER_LOGGED_IN || p.code == EVT_USER_LOGGED_OUT
      requires CallOf(p.code) == Some(call)
      modifies `shown, `userUuid, `running
      ensures OnScreen() == React(old(OnScreen()), p, useTeam)
    {
      Whole(p.payload);
      var row, off := ReadAccount(p.payload, 0);
      ReactOnce(OnScreen(), p, useTeam, row, p.payload[off..]);
      if p.code == RES_LOGIN_OK { userUuid := row[0].text; }
      shown := shown + [Shown(call, row)];
      if p.code == RES_LOGOUT_OK { running := false; }
    }

    method ShowUser(p: Packet, call: Call)
      requires p.code == RES_USER_INFO || p.code == RES_USER_DETAILS
      requires CallOf(p.code) == Some(call)
      modifies `shown
      ensures OnScreen() == React(old(OnScreen()), p, useTeam)
    {
      Whole(p.payload);
      if p.code == RES_USER_INFO {
        var row, off := ReadStatus(p.payload, 0);
        ShowRow(p, call, row, p.payload[off..]);
      } else {
        var row, off := ReadAccount(p.payload, 0);
        ReactOnce(OnScreen(), p, useTeam, row, p.payload[off..]);
        shown := shown + [Shown(PrintUser, row + [Number(-1)])];
      }
    }

    method ShowId(p: Packet, call: Call)
      requires || p.code == RES_SUBSCRIBE_OK || p.code == RES_UNSUBSCRIBE_OK
               || ERR_UNKNOWN_TEAM <= p.code <= ERR_UNKNOWN_USER
      requires CallOf(p.code) == Some(call)
      modifies `shown
      ensures OnScreen() == React(old(OnScreen()), p, useTeam)
    {
      Whole(p.payload);
      var row, off := ReadId(p.payload, 0);
      if p.code == RES_SUBSCRIBE_OK || p.code == RES_UNSUBSCRIBE_OK {
        ReactOnce(OnScreen(), p, useTeam, row, p.payload[off..]);
        shown := shown + [Shown(call, [Word(userUuid)] + row)];
      } else {
        ShowRow(p, call, row, p.payload[off..]);
      }
    }

    method ShowPlace(p: Packet, call: Call)
      requires LayoutOf(p.code) == Once(PLACE)
      requires CallOf(p.code) == Some(call)
      modifies `shown
      ensures OnScreen() == React(old(OnScreen()), p, useTeam)
    {
      Whole(p.payload);
      var row, off := ReadPlace(p.payload, 0);
      ShowRow(p, call, row, p.payload[off..]);
    }

    method ShowTopic(p: Packet, call: Call)
      requires LayoutOf(p.code) == Once(TOPIC)
      requires CallOf(p.code) == Some(call)
      modifies `shown
      ensures OnScreen() == React(old(OnScreen()), p, useTeam)
    {
      Whole(p.payload);
      var row, off := ReadTopic(p.payload, 0);
      ShowRow(p, call, row, p.payload[off..]);
    }

    method ShowReply(p: Packet, call: Call)
      requires p.code == RES_REPLY_CREATED || p.code == EVT_REPLY_CREATED
      requires CallOf(p.code) == Some(call)
      modifies `shown
      ensures OnScreen() == React(old(OnScreen()), p, useTeam)
    {
      Whole(p.payload);
      var row, off := ReadPost(p.payload, 0);
      if p.code == RES_REPLY_CREATED {
        ShowRow(p, call, row, p.payload[off..]);
      } else {
        ReactOnce(OnScreen(), p, useTeam, row, p.payload[off..]);
        shown := shown + [Shown(call, [Word(Trim(useTeam)), row[0], row[1], row[3]])];
      }
    }

    method ShowNote(p: Packet)
      requires p.code == EVT_MESSAGE_RECEIVED
      modifies `shown
      ensures OnScreen() == React(old(OnScreen()), p, useTeam)
    {
      Whole(p.payload);
      var row, off := ReadNote(p.payload, 0);
      ShowRow(p, EventPrivateMessageReceived, row, p.payload[off..]);
    }

    /** Replies without a record. */
    method ShowBare(p: Packet, call: Call)
      requires LayoutOf(p.code) == Once(NOTHING) && CallOf(p.code) == Some(call)
      modifies `shown
      ensures OnScreen() == React(old(OnScreen()), p, useTeam)
    {
      ShowRow(p, call, [], p.payload);
    }

    /** A message accepted: nothing to show. */
    method ShowSent(p: Packet)
      requires p.code == RES_SEND_OK
      ensures OnScreen() == React(OnScreen(), p, useTeam)
    {
      ReactOnce(OnScreen(), p, useTeam, [], p.payload);
      assert shown + [] == shown;
    }

    /** list_users: the counted loop over id, name and status. */
    method ListUsers(p: Packet, call: Call)
      requires (p.code == RES_USERS_LIST || p.code == RES_SUBSCRIBED_USERS) && call == PrintUsers
      modifies `shown
      ensures OnScreen() == React(old(OnScreen()), p, useTeam)
    {
      Whole(p.payload);
      var n, off := ReadU32(p.payload, 0);
      ghost var goal := React(OnScreen(), p, useTeam);
      ListStart(OnScreen(), p, useTeam, STATUS, n, p.payload[off..]);
      for i := 0 to n
        invariant 0 <= off <= |p.payload|
        invariant shown + Pending(p.code, n - i, STATUS, p.payload[off..], userUuid, useTeam) == goal.shown
      {
        var row, next := ReadStatus(p.payload, off);
        RowMore(p.code, shown, n - i, STATUS, p.payload[off..], row, p.payload[next..], userUuid, useTeam);
        shown := shown + [Shown(call, row)];
        off := next;
      }
      assert shown + [] == shown;
    }

    /** list_teams: teams, and channels too. */
    method ListPlaces(p: Packet, call: Call)
      requires p.code == RES_LIST_TEAMS || p.code == RES_SUBSCRIBED_TEAMS || p.code == RES_LIST_CHANNELS
      requires CallOf(p.code) == Some(call)
      modifies `shown
      ensures OnScreen() == React(old(OnScreen()), p, useTeam)
    {
      Whole(p.payload);
      var n, off := ReadU32(p.payload, 0);
      ghost var goal := React(OnScreen(), p, useTeam);
      ListStart(OnScreen(), p, useTeam, PLACE, n, p.payload[off..]);
      for i := 0 to n
        invariant 0 <= off <= |p.payload|
        invariant shown + Pending(p.code, n - i, PLACE, p.payload[off..], userUuid, useTeam) == goal.shown
      {
        var row, next := ReadPlace(p.payload, off);
        RowMore(p.code, shown, n - i, PLACE, p.payload[off..], row, p.payload[next..], userUuid, useTeam);
        shown := shown + [Shown(call, row)];
        off := next;
      }
      assert shown + [] == shown;
    }

    method ListThreads(p: Packet, call: Call)
      requires p.code == RES_LIST_THREADS && call == ChannelPrintThreads
      modifies `shown
      ensures OnScreen() == React(old(OnScreen()), p, useTeam)
    {
      Whole(p.payload);
      var n, off := ReadU32(p.payload, 0);
      ghost var goal := React(OnScreen(), p, useTeam);
      ListStart(OnScreen(), p, useTeam, TOPIC, n, p.payload[off..]);
      for i := 0 to n
        invariant 0 <= off <= |p.payload|
        invariant shown + Pending(p.code, n - i, TOPIC, p.payload[off..], userUuid, useTeam) == goal.shown
      {
        var row, next := ReadTopic(p.payload, off);
        RowMore(p.code, shown, n - i, TOPIC, p.payload[off..], row, p.payload[next..], userUuid, useTeam);
        shown := shown + [Shown(call, row)];
        off := next;
      }
      assert shown + [] == shown;
    }

    /** Replies as read. */
    method ListReplies(p: Packet)
      requires p.code == RES_LIST_REPLIES
      modifies `shown
      ensures OnScreen() == React(old(OnScreen()), p, useTeam)
    {
      Whole(p.payload);
      var n, off := ReadU32(p.payload, 0);
      ghost var goal := React(OnScreen(), p, useTeam);
      ListStart(OnScreen(), p, useTeam, POST, n, p.payload[off..]);
      for i := 0 to n
        invariant 0 <= off <= |p.payload|
        invariant shown + Pending(p.code, n - i, POST, p.payload[off..], userUuid, useTeam) == goal.shown
      {
        var row, next := ReadPost(p.payload, off);
        RowMore(p.code, shown, n - i, POST, p.payload[off..], row, p.payload[next..], userUuid, useTeam);
        shown := shown + [Shown(ThreadPrintReplies, row)];
        off := next;
      }
      assert shown + [] == shown;
    }

    /** Private messages without their receiver. */
    method ListMessages(p: Packet)
      requires p.code == RES_MESSAGES_LIST
      modifies `shown
      ensures OnScreen() == React(old(OnScreen()), p, useTeam)
    {
      Whole(p.payload);
      var n, off := ReadU32(p.payload, 0);
      ghost var goal := React(OnScreen(), p, useTeam);
      ListStart(OnScreen(), p, useTeam, POST, n, p.payload[off..]);
      for i := 0 to n
        invariant 0 <= off <= |p.payload|
        invariant shown + Pending(p.code, n - i, POST, p.payload[off..], userUuid, useTeam) == goal.shown
      {
        var row, next := ReadPost(p.payload, off);
        RowMore(p.code, shown, n - i, POST, p.payload[off..], row, p.payload[next..], userUuid, useTeam);
        shown := shown + [Shown(PrivateMessagePrintMessages, [row[0], row[2], row[3]])];
        off := next;
      }
      assert shown + [] == shown;
    }

    /** _handle_response, after the replies that list entities. */
    method HandleStatus(p: Packet)
      requires p.code >= ERR_UNAUTHORIZED || LayoutOf(p.code).NoLayout?
      modifies `shown, `userUuid, `running
      ensures OnScreen() == React(old(OnScreen()), p, useTeam)
    {
      var code := p.code;
      if code == ERR_UNAUTHORIZED || code == ERR_NOT_SUBSCRIBED { ShowBare(p, ErrorUnauthorized); }
      else if code == ERR_ALREADY_EXISTS { ShowBare(p, ErrorAlreadyExist); }
      else if code == ERR_UNKNOWN_TEAM { ShowId(p, ErrorUnknownTeam); }
      else if code == ERR_UNKNOWN_CHANNEL { ShowId(p, ErrorUnknownChannel); }
      else if code == ERR_UNKNOWN_THREAD { ShowId(p, ErrorUnknownThread); }
      else if code == ERR_UNKNOWN_USER { ShowId(p, ErrorUnknownUser); }
      else if code == ERR_INVALID_COMMAND { ShowBare(p, InvalidCommand); }
      else if code == EVT_USER_LOGGED_IN { ShowAccount(p, EventLoggedIn); }
      else if code == EVT_USER_LOGGED_OUT { ShowAccount(p, EventLoggedOut); }
      else if code == EVT_MESSAGE_RECEIVED { ShowNote(p); }
      else if code == EVT_TEAM_CREATED { ShowPlace(p, EventTeamCreated); }
      else if code == EVT_CHANNEL_CREATED { ShowPlace(p, EventChannelCreated); }
      else if code == EVT_THREAD_CREATED { ShowTopic(p, EventThreadCreated); }
      else if code == EVT_REPLY_CREATED { ShowReply(p, EventThreadReplyReceived); }
      else { ReactNothing(OnScreen(), p, useTeam); }
    }

    /** _handle_response */
    method HandleResponse(p: Packet)
      modifies `shown, `userUuid, `running
      ensures OnScreen() == React(old(OnScreen()), p, useTeam)
    {
      var code := p.code;
      if code == RES_LOGIN_OK { ShowAccount(p, EventLoggedIn); }
      else if code == RES_LOGOUT_OK { ShowAccount(p, EventLoggedOut); }
      else if code == RES_SEND_OK { ShowSent(p); }
      else if code == RES_SUBSCRIBE_OK { ShowId(p, PrintSubscribed); }
      else if code == RES_UNSUBSCRIBE_OK { ShowId(p, PrintUnsubscribed); }
      else if code == RES_USER_INFO || code == RES_USER_DETAILS { ShowUser(p, PrintUser); }
      else if code == RES_TEAM_INFO { ShowPlace(p, PrintTeam); }
      else if code == RES_TEAM_CREATED { ShowPlace(p, PrintTeamCreated); }
      else if code == RES_CHANNEL_INFO { ShowPlace(p, PrintChannel); }
      else if code == RES_CHANNEL_CREATED { ShowPlace(p, PrintChannelCreated); }
      else if code == RES_THREAD_INFO { ShowTopic(p, PrintThread); }
      else if code == RES_THREAD_CREATED { ShowTopic(p, PrintThreadCreated); }
      else if code == RES_REPLY_CREATED { ShowReply(p, PrintReplyCreated); }
      else if code == RES_USERS_LIST || code == RES_SUBSCRIBED_USERS { ListUsers(p, PrintUsers); }
      else if code == RES_LIST_TEAMS || code == RES_SUBSCRIBED_TEAMS { ListPlaces(p, PrintTeams); }
      else if code == RES_LIST_CHANNELS { ListPlaces(p, TeamPrintChannels); }
      else if code == RES_LIST_THREADS { ListThreads(p, ChannelPrintThreads); }
      else if code == RES_LIST_REPLIES { ListReplies(p); }
      else if code == RES_MESSAGES_LIST { ListMessages(p); }
      else { HandleStatus(p); }
    }

    // -------------------------------------------------------------- Network.cpp

    /** _process_recv_buffer */
    method ProcessRecvBuffer()
      modifies `recvBuf, `shown, `userUuid, `running
      ensures recvBuf == Frames(old(recvBuf)).rest
      ensures OnScreen() == ReactAll(old(OnScreen()), Frames(old(recvBuf)).packets, useTeam)
    {
      while |recvBuf| >= HEADER_SIZE
        invariant Frames(recvBuf).rest == Frames(old(recvBuf)).rest
        invariant ReactAll(OnScreen(), Frames(recvBuf).packets, useTeam)
               == ReactAll(old(OnScreen()), Frames(old(recvBuf)).packets, useTeam)
        decreases |recvBuf|
      {
        var code, size := HeaderCode(recvBuf), HeaderSize(recvBuf);
        if |recvBuf| < HEADER_SIZE + size { break; }
        var payload := recvBuf[HEADER_SIZE..HEADER_SIZE + size];
        assert Packet(code, payload) == FirstOfStream(recvBuf);
        assert Frames(recvBuf).packets[1..] == Frames(AfterFirst(recvBuf)).packets;
        recvBuf := recvBuf[HEADER_SIZE + size..];
        HandleResponse(Packet(code, payload));
      }
    }

    /** What follows a read that returned bytes. */
    method Hear(bytes: Bytes)
      requires recvBuf == Frames(heard).rest
      modifies `recvBuf, `heard, `shown, `userUuid, `running
      ensures heard == old(heard) + bytes && recvBuf == Frames(heard).rest
      ensures OnScreen() == ReactAll(old(OnScreen()), Frames(old(recvBuf) + bytes).packets, useTeam)
    {
      FramesRest(heard, bytes);
      recvBuf := recvBuf + bytes;
      heard := heard + bytes;
      ProcessRecvBuffer();
    }

    /** _handle_server_read, with what read returned: some bytes, or none. */
    method HandleServerRead(got: Option<Bytes>)
      requires Valid()
      modifies `recvBuf, `heard, `shown, `userUuid, `running
      ensures Valid()
      ensures heard == old(heard) + if got.Some? then got.value else []
      ensures OnScreen()
           == if got.Some? then ReactAll(old(OnScreen()), Frames(old(recvBuf) + got.value).packets, useTeam)
              else old(OnScreen()).(running := false)
    {
      if got.None? {
        running := false;
        assert heard + [] == heard;
        return;
      }
      Hear(got.value);
    }

    /** _handle_server_write */
    method HandleServerWrite()
      modifies `sendBuf, `writes, `written
      ensures written + sendBuf == old(written + sendBuf)
      ensures old(written) <= written
      ensures old(Valid()) ==> Valid()
    {
      if sendBuf == [] { return; }
      var n := kernel(writes);
      writes := writes + 1;
      if n <= 0 { return; }
      var sent := if n < |sendBuf| then n else |sendBuf|;
      Associate(written, sendBuf[..sent], sendBuf[sent..]);
      assert sendBuf[..sent] + sendBuf[sent..] == sendBuf;
      written := written + sendBuf[..sent];
      sendBuf := sendBuf[sent..];
    }

    // -------------------------------------------------------------- Packet.cpp

    /** _send_packet */
    method SendPacket(code: uint16, payload: Bytes)
      requires StreamOk() && |payload| < TWO32
      modifies `sendBuf, `writes, `written, `issued
      ensures StreamOk() && issued == old(issued) + [Packet(code, payload)]
    {
      var header := PackHeader(code, |payload|);
      ghost var p := Packet(code, payload);
      StreamMore(written, sendBuf, issued, p);
      MessageParts(sendBuf, code, payload);
      sendBuf := sendBuf + header[..];
      if |payload| > 0 { sendBuf := sendBuf + payload; } else { assert sendBuf + payload == sendBuf; }
      issued := issued + [p];
      HandleServerWrite();
    }

    // -------------------------------------------------------------- Individual.cpp

    /** What a command method does: exactly what the specification of the command says. */
    twostate predicate Did(now: Issue)
      reads this
    {
      StreamOk() && Standing() == Issue(now.mirror, old(issued) + now.packets)
    }

    /** The commands that take one argument and send it in one field. */
    method CmdOne(code: uint16, args: seq<Bytes>, width: nat)
      requires StreamOk() && width < TWO32
      modifies `sendBuf, `writes, `written, `issued
      ensures Did(AskOne(old(Use()), code, args, width))
    {
      if |args| != 1 {
        assert issued + [] == issued;
        return;
      }
      var payload := PackFixed([], args[0], width);
      assert payload == Fixed(args[0], width);
      SendPacket(code, payload);
    }

    method CmdBare(code: uint16)
      requires StreamOk()
      modifies `sendBuf, `writes, `written, `issued
      ensures Did(Ask(old(Use()), code, []))
    {
      SendPacket(code, []);
    }

    method CmdSend(args: seq<Bytes>)
      requires StreamOk()
      modifies `sendBuf, `writes, `written, `issued
      ensures Did(SendCommand(old(Use()), args))
    {
      if |args| != 2 {
        assert issued + [] == issued;
        return;
      }
      var payload := PackFixed([], args[0], 36);
      payload := PackFixed(payload, args[1], 512);
      assert payload == Fixed(args[0], 36) + Fixed(args[1], 512);
      SendPacket(CMD_SEND, payload);
    }

    method CmdSubscribed(args: seq<Bytes>)
      requires StreamOk()
      modifies `sendBuf, `writes, `written, `issued
      ensures Did(SubscribedCommand(old(Use()), args))
    {
      if args == [] {
        SendPacket(CMD_SUBSCRIBED, [0]);
      } else if |args| == 1 {
        var payload := PackFixed([1], args[0], 36);
        SendPacket(CMD_SUBSCRIBED, payload);
      } else {
        assert issued + [] == issued;
      }
    }

    method CmdUse(args: seq<Bytes>)
      requires StreamOk()
      modifies `sendBuf, `writes, `written, `issued, `useLevel, `useTeam, `useChannel, `useThread
      ensures Did(UseCommand(old(Use()), args))
    {
      var payload: Bytes;
      if args == [] {
        payload := [USE_NONE];
        useLevel, useTeam, useChannel, useThread := USE_NONE, [], [], [];
      } else if |args| == 1 {
        payload := PackFixed([USE_TEAM], args[0], 36);
        useLevel, useTeam, useChannel, useThread := USE_TEAM, args[0], [], [];
      } else if |args| == 2 {
        payload := PackFixed([USE_CHANNEL], args[0], 36);
        payload := PackFixed(payload, args[1], 36);
        useLevel, useTeam, useChannel, useThread := USE_CHANNEL, args[0], args[1], [];
      } else if |args| == 3 {
        payload := PackFixed([USE_THREAD], args[0], 36);
        payload := PackFixed(payload, args[1], 36);
        payload := PackFixed(payload, args[2], 36);
        useLevel, useTeam, useChannel, useThread := USE_THREAD, args[0], args[1], args[2];
      } else {
        assert issued + [] == issued;
        return;
      }
      SendPacket(CMD_USE, payload);
    }

    method CmdCreate(args: seq<Bytes>)
      requires StreamOk()
      modifies `sendBuf, `writes, `written, `issued
      ensures Did(CreateCommand(old(Use()), args))
    {
      assert issued + [] == issued;
      var payload: Bytes := [];
      if useLevel == USE_NONE || useLevel == USE_TEAM {
        if |args| != 2 { return; }
        payload := PackFixed(payload, args[0], 32);
        payload := PackFixed(payload, args[1], 255);
        assert payload == Fixed(args[0], 32) + Fixed(args[1], 255);
      } else if useLevel == USE_CHANNEL {
        if |args| != 2 { return; }
        payload := PackFixed(payload, args[0], 32);
        payload := PackFixed(payload, args[1], 512);
        assert payload == Fixed(args[0], 32) + Fixed(args[1], 512);
      } else if useLevel == USE_THREAD {
        if |args| != 1 { return; }
        payload := PackFixed(payload, args[0], 512);
        assert payload == Fixed(args[0], 512);
      }
      SendPacket(CMD_CREATE, payload);
    }

    /** _dispatch */
    method Dispatch(c: Command)
      requires StreamOk()
      modifies `sendBuf, `writes, `written, `issued, `useLevel, `useTeam, `useChannel, `useThread
      ensures Did(Perform(old(Use()), c))
    {
      if c.name == Ascii("login") { CmdOne(CMD_LOGIN, c.args, 32); }
      else if c.name == Ascii("logout") { CmdBare(CMD_LOGOUT); }
      else if c.name == Ascii("users") { CmdBare(CMD_USERS); }
      else if c.name == Ascii("user") { CmdOne(CMD_USER, c.args, 36); }
      else if c.name == Ascii("send") { CmdSend(c.args); }
      else if c.name == Ascii("messages") { CmdOne(CMD_MESSAGES, c.args, 36); }
      else if c.name == Ascii("subscribe") { CmdOne(CMD_SUBSCRIBE, c.args, 36); }
      else if c.name == Ascii("subscribed") { CmdSubscribed(c.args); }
      else if c.name == Ascii("unsubscribe") { CmdOne(CMD_UNSUBSCRIBE, c.args, 36); }
      else if c.name == Ascii("use") { CmdUse(c.args); }
      else if c.name == Ascii("create") { CmdCreate(c.args); }
      else if c.name == Ascii("list") { CmdBare(CMD_LIST); }
      else if c.name == Ascii("info") { CmdBare(CMD_INFO); }
      else { assert issued + [] == issued; }
    }

    // -------------------------------------------------------------- stdin_handling.cpp

    /** One complete line. */
    method HandleLine(line: Bytes)
      requires StreamOk()
      modifies `sendBuf, `writes, `written, `issued, `useLevel, `useTeam, `useChannel, `useThread
      ensures Did(Enter(old(Use()), line))
    {
      assert issued + [] == issued;
      if line == [] { return; }
      var c := Tokenizer.Parse(line);
      if !c.valid { return; }
      Dispatch(c);
    }

    /** The loop that takes complete lines off the input buffer. */
    method HandleLines()
      requires StreamOk()
      modifies `sendBuf, `writes, `written, `issued, `useLevel, `useTeam, `useChannel, `useThread, `stdinBuf
      ensures stdinBuf == Lines(old(stdinBuf)).rest
      ensures StreamOk() && Standing() == Later(old(Standing()), Lines(old(stdinBuf)).lines)
    {
      ghost var start, before := stdinBuf, Standing();
      ghost var done: seq<Bytes> := [];
      assert [] + Lines(start).lines == Lines(start).lines;
      LaterNothing(before);
      var pos := Until(stdinBuf, NEWLINE);
      while pos < |stdinBuf|
        invariant StreamOk() && pos == Until(stdinBuf, NEWLINE)
        invariant LinesAhead(done, Lines(stdinBuf)) == Lines(start)
        invariant Standing() == Later(before, done)
        decreases |stdinBuf|
      {
        var line := stdinBuf[..pos];
        LinesAheadTwice(done, [line], Lines(stdinBuf[pos + 1..]));
        LaterSnoc(before, done, line);
        stdinBuf := stdinBuf[pos + 1..];
        HandleLine(line);
        done := done + [line];
        pos := Until(stdinBuf, NEWLINE);
      }
      assert done + [] == done;
    }

    /** What follows a read that returned bytes. */
    method Type(bytes: Bytes)
      requires StreamOk() && InputOk()
      modifies `sendBuf, `writes, `written, `issued, `useLevel, `useTeam, `useChannel, `useThread, `stdinBuf, `typed
      ensures StreamOk() && InputOk() && typed == old(typed) + bytes
    {
      InputMore(typed, bytes, stdinBuf, Standing());
      ghost var before := Standing();
      typed := typed + bytes;
      stdinBuf := stdinBuf + bytes;
      assert Standing() == before;
      HandleLines();
    }

    /** _handle_stdin, with what read returned: some bytes, or none. */
    method HandleStdin(got: Option<Bytes>)
      requires Valid()
      modifies `sendBuf, `writes, `written, `issued, `useLevel, `useTeam, `useChannel, `useThread
      modifies `stdinBuf, `typed, `running
      ensures Valid()
      ensures typed == old(typed) + if got.Some? then got.value else []
      ensures running == (old(running) && got.Some?)
    {
      if got.None? {
        running := false;
        assert typed + [] == typed;
        return;
      }
      Type(got.value);
    }
  }
}
