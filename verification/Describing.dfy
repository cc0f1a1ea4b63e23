/** Replies that describe one entity, or echo the id that names none. */
module Describing {
  import opened Octets
  import opened Words
  import opened Protocol
  import opened Records
  import opened ServerData
  import opened Handlers
  import opened Invariants
  import opened Soundness
  import opened Conversations
  import opened RoundTrips
  import opened Identity

  // ---------------------------------------------------------------- users

  /** /user: the user of that id with the status its sessions give it, or the id back if there is none. */
  lemma {:induction false} UserDecodes(d: Data, fd: int, uuid: Uuid)
    requires DataOk(d) && fd in d.sessions
    ensures var r := ShowUser(d, fd, uuid).result.response;
            if uuid in UserIds(d.users) then
              && r.code == RES_USER_INFO
              && Decode(r) == ([UserView(d.sessions, d.users[FirstOf(UserIds(d.users), uuid)])], [])
            else r == Packet(ERR_UNKNOWN_USER, uuid)
  {
    var i := FirstOf(UserIds(d.users), uuid);
    if i < |d.users| {
      RowsFitLayouts();
      OnceBack(RES_USER_INFO, StatusRow(d.sessions, d.users[i]));
      ViewStatus(d.sessions, d.users[i]);
    } else {
      EchoIs(uuid);
    }
  }

  lemma {:induction false} ViewAccount(u: User)
    requires 0 !in u.uuid
    ensures ViewRow(AccountRow(u)) == [Word(u.uuid), Word(Trim(u.name))]
  {
    TrimNulFree(u.uuid);
    var tail: Row := [Str(u.name)];
    assert AccountRow(u)[1..] == tail && tail[1..] == [];
    assert ViewRow(tail) == [Word(Trim(u.name))] + ViewRow([]);
  }

  /** A login is answered with an id and the name given, as far as a 32-byte field holds it. */
  lemma {:induction false} LoginDecodes(d: Data, fd: int, text: Bytes, id: Uuid)
    requires DataOk(d) && id !in UserIds(d.users) && 0 !in id
    ensures var o := Login(d, fd, text, id);
            && fd in o.data.sessions
            && Decode(o.result.response) == ([[Word(o.data.sessions[fd]), Word(Cut(Trim(text), 32))]], [])
  {
    var (users, i) := Enrol(d.users, Trim(text), id);
    EnrolKeeps(d.users, Trim(text), id);
    RowsFitLayouts();
    OnceBack(RES_LOGIN_OK, AccountRow(users[i]));
    ViewAccount(users[i]);
    TrimNulFree(users[i].uuid);
    EnrolledName(d.users, Trim(text), id);
  }

  lemma {:induction false} ShortName(name: Bytes)
    requires 0 !in name && |name| <= 32
    ensures Cut(name, 32) == name
  {
    TrimNulFree(name);
    if |name| == 32 { assert name[..32] == name; }
  }

  lemma {:induction false} EnrolledName(users: seq<User>, name: Bytes, id: Uuid)
    requires 0 !in name
    ensures var (after, i) := Enrol(users, name, id); i < |after| && Trim(after[i].name) == Cut(name, 32)
  {
    var i := FirstOf(UserNames(users), name);
    if i < |users| {
      assert UserNames(users)[i] == Trim(users[i].name) == name;
      ShortName(name);
    } else {
      TrimFixed(name, 32);
    }
  }

  // ---------------------------------------------------------------- entities

  /** The context one level up. */
  function Parent(c: Context): Context {
    if c.level == USE_THREAD then c.(level := USE_CHANNEL)
    else if c.level == USE_CHANNEL then c.(level := USE_TEAM)
    else c.(level := USE_NONE)
  }

  /** Where the entity of a resolved context stands in its parent's list. */
  function Index(p: Place): nat
    requires p.AtTeam? || p.AtChannel? || p.AtThread?
  {
    match p
    case AtTeam(t) => t
    case AtChannel(t, i) => i
    case AtThread(t, i, k) => k
  }

  lemma {:induction false} TeamIsListed(teams: seq<Team>, c: Context)
    requires Locate(teams, c).AtTeam?
    ensures Locate(teams, Parent(c)) == AtRoot
    ensures var t := Locate(teams, c).t; Listing(teams, Parent(c)).1[t] == TeamRow(teams[t])
  {
  }

  lemma {:induction false} ChannelIsListed(teams: seq<Team>, c: Context)
    requires Locate(teams, c).AtChannel?
    ensures Locate(teams, Parent(c)) == AtTeam(Locate(teams, c).t)
    ensures var p := Locate(teams, c); Listing(teams, Parent(c)).1[p.c] == ChannelRow(teams[p.t].channels[p.c])
  {
  }

  lemma {:induction false} ThreadIsListed(teams: seq<Team>, c: Context)
    requires Locate(teams, c).AtThread?
    ensures Locate(teams, Parent(c)) == AtChannel(Locate(teams, c).t, Locate(teams, c).c)
    ensures var p := Locate(teams, c);
            Listing(teams, Parent(c)).1[p.k] == ThreadRow(teams[p.t].channels[p.c].threads[p.k])
  {
  }

  lemma {:induction false} DescribedIsListed(teams: seq<Team>, c: Context)
    requires Locate(teams, c).Resolved() && c.level != USE_NONE
    ensures Locate(teams, Parent(c)).Resolved()
    ensures var (place, rows) := (Locate(teams, c), Listing(teams, Parent(c)).1);
            Index(place) < |rows| && rows[Index(place)] == Describe(teams, place).1
  {
    match Locate(teams, c)
    case AtTeam(t) => TeamIsListed(teams, c);
    case AtChannel(t, i) => ChannelIsListed(teams, c);
    case AtThread(t, i, k) => ThreadIsListed(teams, c);
    case _ =>
  }

  lemma {:induction false} DescribeFits(teams: seq<Team>, c: Context)
    requires Locate(teams, c).Resolved() && c.level != USE_NONE
    ensures var (code, row) := Describe(teams, Locate(teams, c));
            LayoutOf(code).Once? && RowFits(row, LayoutOf(code).fields)
  {
    RowsFitLayouts();
  }

  lemma {:induction false} InfoIs(d: Data, fd: int)
    requires fd in d.sessions && fd in d.contexts && d.contexts[fd].level != USE_NONE
    requires Locate(d.teams, d.contexts[fd]).Resolved()
    ensures var (code, row) := Describe(d.teams, Locate(d.teams, d.contexts[fd]));
            Info(d, fd).result.response == Packet(code, Encode(row))
  {
  }

  lemma {:induction false} DescriptionDecodes(teams: seq<Team>, c: Context)
    requires Locate(teams, c).Resolved() && c.level != USE_NONE
    ensures var (code, row) := Describe(teams, Locate(teams, c));
            Decode(Packet(code, Encode(row))) == ([ViewRow(row)], [])
  {
    DescribeFits(teams, c);
    var (code, row) := Describe(teams, Locate(teams, c));
    OnceBack(code, row);
  }

  /** The code that describes a context of a level: the account, a team, a channel, a thread. */
  lemma {:induction false} DescribeCode(teams: seq<Team>, c: Context)
    requires Locate(teams, c).Resolved() && c.level != USE_NONE
    ensures Describe(teams, Locate(teams, c)).0
         == if c.level == USE_TEAM then RES_TEAM_INFO
            else if c.level == USE_CHANNEL then RES_CHANNEL_INFO else RES_THREAD_INFO
  {
  }

  /** In a reachable state /info is answered with the code of its context's level. */
  lemma {:induction false} InfoCode(d: Data, fd: int)
    requires DataOk(d) && fd in d.sessions
    ensures fd in d.contexts
    ensures var (level, code) := (d.contexts[fd].level, Info(d, fd).result.response.code);
            && level <= USE_THREAD
            && (level == USE_NONE <==> code == RES_USER_DETAILS)
            && (level == USE_TEAM <==> code == RES_TEAM_INFO)
            && (level == USE_CHANNEL <==> code == RES_CHANNEL_INFO)
            && (level == USE_THREAD <==> code == RES_THREAD_INFO)
  {
    assert fd in d.contexts;
    assert Locate(d.teams, d.contexts[fd]).Resolved();
    if d.contexts[fd].level == USE_NONE {
      InfoRootIs(d, fd);
    } else {
      InfoIs(d, fd);
      DescribeCode(d.teams, d.contexts[fd]);
    }
  }

  /** A /use that goes through is answered with the code of the level it asks for. */
  lemma {:induction false} UseCode(d: Data, fd: int, p: Bytes)
    requires fd in d.sessions && Entered(Use(d, fd, p).result.response.code)
    ensures p != [] && p[0] <= USE_THREAD
    ensures Use(d, fd, p).result.response.code
         == if p[0] == USE_NONE then RES_USER_DETAILS
            else if p[0] == USE_TEAM then RES_TEAM_INFO
            else if p[0] == USE_CHANNEL then RES_CHANNEL_INFO else RES_THREAD_INFO
  {
    EnteredAt(d, fd, p);
    RequestedLevel(p);
    var c := Requested(p).value;
    if c.level != USE_NONE { DescribeCode(d.teams, c); }
  }

  /**
   * /info inside a team decodes to one record, and it is the record that /list shows for that entity one level
   * up.
   */
  lemma {:induction false} InfoIsListed(d: Data, fd: int)
    requires DataOk(d) && fd in d.sessions && fd in d.contexts && d.contexts[fd].level != USE_NONE
    ensures Locate(d.teams, d.contexts[fd]).Resolved() && Locate(d.teams, Parent(d.contexts[fd])).Resolved()
    ensures var (place, rows) := (Locate(d.teams, d.contexts[fd]), Listing(d.teams, Parent(d.contexts[fd])).1);
            Index(place) < |rows| && Decode(Info(d, fd).result.response) == ([ViewRow(rows[Index(place)])], [])
  {
    assert Locate(d.teams, d.contexts[fd]).Resolved();
    DescribedIsListed(d.teams, d.contexts[fd]);
    DescriptionDecodes(d.teams, d.contexts[fd]);
    InfoIs(d, fd);
  }

  /** /info at the root decodes to the account of the session. */
  lemma {:induction false} InfoAtRoot(d: Data, fd: int)
    requires DataOk(d) && fd in d.sessions && fd in d.contexts && d.contexts[fd].level == USE_NONE
    ensures var i := FirstOf(UserIds(d.users), d.sessions[fd]);
            && i < |d.users| && d.users[i].uuid == d.sessions[fd]
            && Decode(Info(d, fd).result.response) == ([[Word(d.sessions[fd]), Word(Trim(d.users[i].name))]], [])
  {
    NamesUser(d, d.sessions[fd]);
    var i := FirstOf(UserIds(d.users), d.sessions[fd]);
    assert UserIds(d.users)[i] == d.users[i].uuid;
    RowsFitLayouts();
    OnceBack(RES_USER_DETAILS, AccountRow(d.users[i]));
    ViewAccount(d.users[i]);
  }

  /** r shows the entity that c stands on, under the code of its level; at the root, the account of the user. */
  ghost predicate Describes(d: Data, user: Bytes, c: Context, r: Packet) {
    match Locate(d.teams, c)
    case AtRoot =>
      var i := FirstOf(UserIds(d.users), user);
      && i < |d.users| && r.code == RES_USER_DETAILS
      && Decode(r) == ([[Word(user), Word(Trim(d.users[i].name))]], [])
    case AtTeam(t) => r.code == RES_TEAM_INFO && Decode(r) == ([TeamView(d.teams[t])], [])
    case AtChannel(t, i) => r.code == RES_CHANNEL_INFO && Decode(r) == ([ChannelView(d.teams[t].channels[i])], [])
    case AtThread(t, i, k) =>
      r.code == RES_THREAD_INFO && Decode(r) == ([ThreadView(d.teams[t].channels[i].threads[k])], [])
    case _ => false
  }

  lemma {:induction false} DescribedThere(d: Data, user: Bytes, c: Context)
    requires Locate(d.teams, c).Resolved() && c.level != USE_NONE
    ensures var (code, row) := Describe(d.teams, Locate(d.teams, c)); Describes(d, user, c, Packet(code, Encode(row)))
  {
    DescriptionDecodes(d.teams, c);
    match Locate(d.teams, c)
    case AtTeam(t) => ViewTeam(d.teams[t]);
    case AtChannel(t, i) => ViewChannel(d.teams[t].channels[i]);
    case AtThread(t, i, k) => ViewThread(d.teams[t].channels[i].threads[k]);
    case _ =>
  }

  /** /info in a reachable state: what the client sees is what the context stands on. */
  lemma {:induction false} InfoDecodes(d: Data, fd: int)
    requires DataOk(d) && fd in d.sessions
    ensures fd in d.contexts && Describes(d, d.sessions[fd], d.contexts[fd], Info(d, fd).result.response)
  {
    assert fd in d.contexts;
    assert Locate(d.teams, d.contexts[fd]).Resolved();
    if d.contexts[fd].level == USE_NONE {
      InfoCode(d, fd);
      InfoAtRoot(d, fd);
    } else {
      InfoIs(d, fd);
      DescribedThere(d, d.sessions[fd], d.contexts[fd]);
    }
  }

  lemma {:induction false} EnteredAt(d: Data, fd: int, p: Bytes)
    requires fd in d.sessions && Entered(Use(d, fd, p).result.response.code)
    ensures Requested(p).Some? && Locate(d.teams, Requested(p).value).Resolved()
    ensures Use(d, fd, p).data == d.(contexts := d.contexts[fd := Requested(p).value])
    ensures var place := Locate(d.teams, Requested(p).value);
            Use(d, fd, p).result.response
              == if place.AtRoot? then Packet(RES_USER_DETAILS, Encode(Account(d.users, d.sessions[fd])))
                 else Packet(Describe(d.teams, place).0, Encode(Describe(d.teams, place).1))
  {
  }

  lemma {:induction false} InfoRootIs(d: Data, fd: int)
    requires fd in d.sessions && fd in d.contexts && d.contexts[fd].level == USE_NONE
    ensures Info(d, fd).result.response == Packet(RES_USER_DETAILS, Encode(Account(d.users, d.sessions[fd])))
  {
  }

  /** A /use that goes through answers what /info answers right after it. */
  lemma {:induction false} UseAnswersInfo(d: Data, fd: int, p: Bytes)
    requires DataOk(d) && fd in d.sessions && Entered(Use(d, fd, p).result.response.code)
    ensures Info(Use(d, fd, p).data, fd).result.response == Use(d, fd, p).result.response
  {
    EnteredAt(d, fd, p);
    var c := Requested(p).value;
    var e := d.(contexts := d.contexts[fd := c]);
    if Locate(d.teams, c).AtRoot? { InfoRootIs(e, fd); } else { InfoIs(e, fd); }
  }

  // ---------------------------------------------------------------- echoes

  /** Where in a request the id stands that an ERR_UNKNOWN_* is about. */
  function IdOffset(request: uint16, reply: uint16): nat {
    if request == CMD_USE then
      if reply == ERR_UNKNOWN_TEAM then 1 else if reply == ERR_UNKNOWN_CHANNEL then 37 else 73
    else if request == CMD_SUBSCRIBED then 1
    else 0
  }

  /** The reply r to the request q names 36 bytes of q, if it is an ERR_UNKNOWN_*. */
  predicate Echoes(q: Packet, r: Packet) {
    ERR_UNKNOWN_TEAM <= r.code <= ERR_UNKNOWN_USER ==>
      var off := IdOffset(q.code, r.code); off + 36 <= |q.payload| && r.payload == q.payload[off..off + 36]
  }

  lemma {:induction false} UnknownEcho(d: Data, q: Packet, code: uint16, off: nat)
    requires ERR_UNKNOWN_TEAM <= code <= ERR_UNKNOWN_USER && off == IdOffset(q.code, code)
    requires |Extract(q.payload, off, 36)| == 36
    ensures Echoes(q, Unknown(d, code, Extract(q.payload, off, 36)).result.response)
  {
    EchoIs(Extract(q.payload, off, 36));
  }

  /** What a /use that is asked well but does not go through answers. */
  lemma {:induction false} UseRefuses(d: Data, fd: int, p: Bytes, c: Context)
    requires fd in d.sessions && Requested(p) == Some(c) && !Locate(d.teams, c).Resolved()
    ensures var r := Use(d, fd, p).result.response;
            || r.code == ERR_NOT_SUBSCRIBED
            || r == Packet(ERR_UNKNOWN_TEAM, c.team)
            || (r == Packet(ERR_UNKNOWN_CHANNEL, c.channel) && c.level >= USE_CHANNEL)
            || (r == Packet(ERR_UNKNOWN_THREAD, c.thread) && c.level >= USE_THREAD)
    ensures c.level != USE_NONE
  {
    EchoIs(c.team);
    EchoIs(c.channel);
    EchoIs(c.thread);
  }

  lemma {:induction false} RequestedIds(p: Bytes)
    requires Requested(p).Some? && Requested(p).value.level != USE_NONE
    ensures var c := Requested(p).value;
            && |p| >= 37 && c.team == p[1..37]
            && (c.level >= USE_CHANNEL ==> |p| >= 73 && c.channel == p[37..73])
            && (c.level >= USE_THREAD ==> |p| >= 109 && c.thread == p[73..109])
  {
  }

  lemma {:induction false} UseEchoes(d: Data, fd: int, q: Packet)
    requires fd in d.sessions && q.code == CMD_USE
    ensures Echoes(q, Use(d, fd, q.payload).result.response)
  {
    UseOk(d, fd, q.payload);
    if Requested(q.payload).Some? {
      var c := Requested(q.payload).value;
      if Locate(d.teams, c).Resolved() {
        if !Locate(d.teams, c).AtRoot? { DescribeCodes(d.teams, c); }
      } else {
        UseRefuses(d, fd, q.payload, c);
        RequestedIds(q.payload);
      }
    }
  }

  /** Every ERR_UNKNOWN_* of a reachable state carries the 36 bytes of the request that named nothing. */
  lemma {:induction false} HandleEchoes(d: Data, fd: int, q: Packet, id: Uuid, now: Image)
    requires DataOk(d)
    ensures Echoes(q, Handle(d, fd, q, id, now).result.response)
  {
    HandleOk(d, fd, q, id, now);
    var r := Handle(d, fd, q, id, now).result.response;
    if fd in d.sessions && ERR_UNKNOWN_TEAM <= r.code <= ERR_UNKNOWN_USER {
      if q.code == CMD_USE {
        Routes(d, fd, q, id, now);
        UseEchoes(d, fd, q);
      } else {
        EchoesElsewhere(d, fd, q, id, now);
      }
    }
  }

  lemma {:induction false} EchoesElsewhere(d: Data, fd: int, q: Packet, id: Uuid, now: Image)
    requires fd in d.sessions && q.code != CMD_USE && Answers(q.code, Handle(d, fd, q, id, now).result.response.code)
    requires ERR_UNKNOWN_TEAM <= Handle(d, fd, q, id, now).result.response.code <= ERR_UNKNOWN_USER
    ensures Echoes(q, Handle(d, fd, q, id, now).result.response)
  {
    var p := q.payload;
    var off := IdOffset(q.code, ERR_UNKNOWN_USER);
    var x := Extract(p, off, 36);
    if q.code == CMD_USER { assert Handle(d, fd, q, id, now) == ShowUser(d, fd, x); }
    else if q.code == CMD_SEND { assert Handle(d, fd, q, id, now) == Send(d, fd, x, Extract(p, 36, 512), now); }
    else if q.code == CMD_MESSAGES { assert Handle(d, fd, q, id, now) == History(d, fd, x); }
    else if q.code == CMD_SUBSCRIBE { assert Handle(d, fd, q, id, now) == Subscribe(d, fd, x); }
    else if q.code == CMD_UNSUBSCRIBE { assert Handle(d, fd, q, id, now) == Unsubscribe(d, fd, x); }
    else { assert Handle(d, fd, q, id, now) == SubscribedUsers(d, fd, x); }
    UnknownEcho(d, q, Handle(d, fd, q, id, now).result.response.code, off);
  }
}
