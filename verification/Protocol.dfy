/** MTP/1.0: codes, the six-byte header, and the payload layout of every server-to-client code. */
module Protocol {
  import opened Octets
  import opened Words

  const HEADER_SIZE: nat := 6
  const MAX_PAYLOAD: nat := 65535

  const CMD_LOGIN: uint16 := 0x01
  const CMD_LOGOUT: uint16 := 0x02
  const CMD_USERS: uint16 := 0x03
  const CMD_USER: uint16 := 0x04
  const CMD_SEND: uint16 := 0x05
  const CMD_MESSAGES: uint16 := 0x06
  const CMD_SUBSCRIBE: uint16 := 0x07
  const CMD_SUBSCRIBED: uint16 := 0x08
  const CMD_UNSUBSCRIBE: uint16 := 0x09
  const CMD_USE: uint16 := 0x0A
  const CMD_CREATE: uint16 := 0x0B
  const CMD_LIST: uint16 := 0x0C
  const CMD_INFO: uint16 := 0x0D

  const RES_LOGIN_OK: uint16 := 0x10
  const RES_LOGOUT_OK: uint16 := 0x11
  const RES_USERS_LIST: uint16 := 0x12
  const RES_USER_INFO: uint16 := 0x13
  const RES_SEND_OK: uint16 := 0x14
  const RES_MESSAGES_LIST: uint16 := 0x15
  const RES_SUBSCRIBE_OK: uint16 := 0x16
  const RES_SUBSCRIBED_TEAMS: uint16 := 0x17
  const RES_SUBSCRIBED_USERS: uint16 := 0x18
  const RES_UNSUBSCRIBE_OK: uint16 := 0x19
  const RES_TEAM_CREATED: uint16 := 0x1A
  const RES_CHANNEL_CREATED: uint16 := 0x1B
  const RES_THREAD_CREATED: uint16 := 0x1C
  const RES_REPLY_CREATED: uint16 := 0x1D
  const RES_LIST_TEAMS: uint16 := 0x1E
  const RES_LIST_CHANNELS: uint16 := 0x1F
  const RES_LIST_THREADS: uint16 := 0x20
  const RES_LIST_REPLIES: uint16 := 0x21
  const RES_TEAM_INFO: uint16 := 0x22
  const RES_CHANNEL_INFO: uint16 := 0x23
  const RES_THREAD_INFO: uint16 := 0x24
  const RES_USER_DETAILS: uint16 := 0x25

  const ERR_UNAUTHORIZED: uint16 := 0xE0
  const ERR_UNKNOWN_TEAM: uint16 := 0xE1
  const ERR_UNKNOWN_CHANNEL: uint16 := 0xE2
  const ERR_UNKNOWN_THREAD: uint16 := 0xE3
  const ERR_UNKNOWN_USER: uint16 := 0xE4
  const ERR_ALREADY_EXISTS: uint16 := 0xE5
  const ERR_NOT_SUBSCRIBED: uint16 := 0xE6
  const ERR_INVALID_COMMAND: uint16 := 0xE7

  const EVT_MESSAGE_RECEIVED: uint16 := 0xF0
  const EVT_TEAM_CREATED: uint16 := 0xF1
  const EVT_CHANNEL_CREATED: uint16 := 0xF2
  const EVT_THREAD_CREATED: uint16 := 0xF3
  const EVT_REPLY_CREATED: uint16 := 0xF4
  const EVT_USER_LOGGED_IN: uint16 := 0xF5
  const EVT_USER_LOGGED_OUT: uint16 := 0xF6

  const USE_NONE: byte := 0
  const USE_TEAM: byte := 1
  const USE_CHANNEL: byte := 2
  const USE_THREAD: byte := 3

  /** One message of either direction, without its header. */
  datatype Packet = Packet(code: uint16, payload: Bytes)

  predicate IsEvent(p: Packet) { EVT_MESSAGE_RECEIVED <= p.code <= EVT_USER_LOGGED_OUT }

  /** The header's size field holds the payload size. */
  predicate Small(p: Packet) { |p.payload| < TWO32 }

  /** make_message: code, size cast to 32 bits, payload. */
  function Message(p: Packet): (r: Bytes)
    ensures |r| == HEADER_SIZE + |p.payload|
  {
    Net16(p.code) + Net32(|p.payload| % TWO32) + p.payload
  }

  /** The bytes of a run of messages. */
  function Messages(ps: seq<Packet>): Bytes {
    if ps == [] then [] else Message(ps[0]) + Messages(ps[1..])
  }

  lemma {:induction false} MessagesAppend(ps: seq<Packet>, qs: seq<Packet>)
    ensures Messages(ps + qs) == Messages(ps) + Messages(qs)
  {
    if ps == [] {
      assert ps + qs == qs;
    } else {
      calc {
        Messages(ps + qs);
        { assert (ps + qs)[0] == ps[0] && (ps + qs)[1..] == ps[1..] + qs; }
        Message(ps[0]) + Messages(ps[1..] + qs);
        { MessagesAppend(ps[1..], qs); }
        Message(ps[0]) + (Messages(ps[1..]) + Messages(qs));
        { Associate(Message(ps[0]), Messages(ps[1..]), Messages(qs)); }
        Messages(ps) + Messages(qs);
      }
    }
  }

  function HeaderCode(b: Bytes): uint16
    requires HEADER_SIZE <= |b|
  {
    Host16(b, 0)
  }

  function HeaderSize(b: Bytes): uint32
    requires HEADER_SIZE <= |b|
  {
    Host32(b, 2)
  }

  /** A header read back from the front of a stream. */
  lemma {:induction false} HeaderBack(p: Packet, rest: Bytes)
    requires Small(p)
    ensures HeaderCode(Message(p) + rest) == p.code
    ensures HeaderSize(Message(p) + rest) == |p.payload|
    ensures (Message(p) + rest)[HEADER_SIZE..HEADER_SIZE + |p.payload|] == p.payload
    ensures (Message(p) + rest)[HEADER_SIZE + |p.payload|..] == rest
  {
    var b := Message(p) + rest;
    assert b[0..2] == Net16(p.code);
    assert b[2..6] == Net32(|p.payload|);
    Net16Back(p.code, b, 0);
    Net32Back(|p.payload|, b, 2);
  }

  lemma {:induction false} SixOctets(a: Bytes, b: Bytes)
    requires |a| == 2 && |b| == 4
    ensures a + b == [a[0], a[1], b[0], b[1], b[2], b[3]]
  {
  }

  /** The six octets of a header: code, then size, each most significant first. */
  lemma {:induction false} HeaderBytes(p: Packet)
    requires Small(p)
    ensures var size := |p.payload|;
            Message(p)
              == [p.code / 0x100, p.code % 0x100,
                  size / 0x100_0000, size / 0x1_0000 % 0x100, size / 0x100 % 0x100, size % 0x100]
               + p.payload
  {
    NetDigits(p.code, |p.payload|);
    SixOctets(Net16(p.code), Net32(|p.payload|));
  }

  // ---------------------------------------------------------------- payload layouts

  /** One field of a payload: NUL-padded text, a 64-bit timestamp, a status octet. */
  datatype Field = Text(width: nat) | Stamp | Flag

  datatype Layout = Once(fields: seq<Field>) | Counted(fields: seq<Field>) | NoLayout

  const NOTHING: seq<Field> := []
  const ID: seq<Field> := [Text(36)]
  const ACCOUNT: seq<Field> := [Text(36), Text(32)]
  const STATUS: seq<Field> := [Text(36), Text(32), Flag]
  const PLACE: seq<Field> := [Text(36), Text(32), Text(255)]
  const TOPIC: seq<Field> := [Text(36), Text(36), Stamp, Text(32), Text(512)]
  const POST: seq<Field> := [Text(36), Text(36), Stamp, Text(512)]
  const NOTE: seq<Field> := [Text(36), Text(512)]

  /** Sections 4 and 5 of doc/RFC.md, one line a table row. */
  function LayoutOf(code: uint16): Layout {
    if code == RES_LOGIN_OK || code == RES_LOGOUT_OK || code == RES_USER_DETAILS then Once(ACCOUNT)
    else if code == EVT_USER_LOGGED_IN || code == EVT_USER_LOGGED_OUT then Once(ACCOUNT)
    else if code == RES_USER_INFO then Once(STATUS)
    else if code == RES_USERS_LIST || code == RES_SUBSCRIBED_USERS then Counted(STATUS)
    else if code == RES_TEAM_CREATED || code == RES_CHANNEL_CREATED then Once(PLACE)
    else if code == RES_TEAM_INFO || code == RES_CHANNEL_INFO then Once(PLACE)
    else if code == EVT_TEAM_CREATED || code == EVT_CHANNEL_CREATED then Once(PLACE)
    else if code == RES_LIST_TEAMS || code == RES_LIST_CHANNELS || code == RES_SUBSCRIBED_TEAMS then Counted(PLACE)
    else if code == RES_THREAD_CREATED || code == RES_THREAD_INFO || code == EVT_THREAD_CREATED then Once(TOPIC)
    else if code == RES_LIST_THREADS then Counted(TOPIC)
    else if code == RES_REPLY_CREATED || code == EVT_REPLY_CREATED then Once(POST)
    else if code == RES_LIST_REPLIES || code == RES_MESSAGES_LIST then Counted(POST)
    else if code == EVT_MESSAGE_RECEIVED then Once(NOTE)
    else if code == RES_SUBSCRIBE_OK || code == RES_UNSUBSCRIBE_OK then Once(ID)
    else if ERR_UNKNOWN_TEAM <= code <= ERR_UNKNOWN_USER then Once(ID)
    else if code == RES_SEND_OK || code == ERR_UNAUTHORIZED then Once(NOTHING)
    else if ERR_ALREADY_EXISTS <= code <= ERR_INVALID_COMMAND then Once(NOTHING)
    else NoLayout
  }

  function FieldWidth(f: Field): nat {
    match f
    case Text(w) => w
    case Stamp => 8
    case Flag => 1
  }

  function Width(fields: seq<Field>): nat {
    if fields == [] then 0 else FieldWidth(fields[0]) + Width(fields[1..])
  }

  /** The payload has exactly the size its code calls for. */
  predicate WellFormed(p: Packet) {
    match LayoutOf(p.code)
    case Once(fields) => |p.payload| == Width(fields)
    case Counted(fields) => 4 <= |p.payload| && |p.payload| == 4 + Host32(p.payload, 0) * Width(fields)
    case NoLayout => false
  }

  lemma Widths()
    ensures Width(NOTHING) == 0 && Width(ID) == 36 && Width(ACCOUNT) == 68 && Width(STATUS) == 69
    ensures Width(PLACE) == 323 && Width(TOPIC) == 624 && Width(POST) == 592 && Width(NOTE) == 548
  {
    assert ACCOUNT[1..] == [Text(32)];
    assert STATUS[1..] == [Text(32), Flag] && STATUS[2..] == [Flag];
    assert STATUS[1..][1..] == [Flag];
    assert PLACE[1..] == [Text(32), Text(255)] && PLACE[1..][1..] == [Text(255)];
    assert NOTE[1..] == [Text(512)];
    var post1: seq<Field> := [Text(36), Stamp, Text(512)];
    assert POST[1..] == post1 && post1[1..] == [Stamp, Text(512)] && post1[1..][1..] == [Text(512)];
    var topic1: seq<Field> := [Text(36), Stamp, Text(32), Text(512)];
    var topic2: seq<Field> := [Stamp, Text(32), Text(512)];
    assert TOPIC[1..] == topic1 && topic1[1..] == topic2;
    assert topic2[1..] == [Text(32), Text(512)] && topic2[1..][1..] == [Text(512)];
  }
}
