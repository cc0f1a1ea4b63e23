/** What a /create shows in its reply: the words typed, as far as their fields hold them. */
module CreatedContent {
  import opened Octets
  import opened Words
  import opened Protocol
  import opened Records
  import opened ServerData
  import opened Handlers
  import opened Invariants
  import opened Soundness
  import opened Conversations
  import opened Creation
  import opened Commands

  /** The reply to a /create typed with these arguments in this context. */
  function CreatedView(c: Context, user: Bytes, args: seq<Bytes>, id: Uuid, now: Image): seq<Arg>
    requires |args| == if c.level >= USE_THREAD then 1 else 2
  {
    if c.level <= USE_TEAM then [Word(id), Word(Cut(args[0], 32)), Word(Cut(args[1], 255))]
    else if c.level == USE_CHANNEL then
      [Word(id), Word(user), Moment(now), Word(Cut(args[0], 32)), Word(Cut(args[1], 512))]
    else [Word(Trim(c.thread)), Word(user), Moment(now), Word(Cut(args[0], 512))]
  }

  lemma {:induction false} TwoFields(x: Bytes, y: Bytes, n: nat)
    requires |x| == 32 && n == 32 + |y|
    ensures |x + y| == n && (x + y)[..32] == x && (x + y)[32..n] == y
  {
  }

  lemma {:induction false} PlaceView(id: Uuid, name: Bytes, text: Bytes)
    requires 0 !in id
    ensures ViewRow([Str(id), Str(Fixed(name, 32)), Str(Fixed(text, 255))])
        == [Word(id), Word(Cut(name, 32)), Word(Cut(text, 255))]
  {
    View3(Str(id), Str(Fixed(name, 32)), Str(Fixed(text, 255)));
    TrimNulFree(id);
    TrimFixed(name, 32);
    TrimFixed(text, 255);
  }

  lemma {:induction false} TopicView(id: Uuid, user: Uuid, now: Image, title: Bytes, text: Bytes)
    requires 0 !in id && 0 !in user
    ensures ViewRow([Str(id), Str(user), At(now), Str(Fixed(title, 32)), Str(Fixed(text, 512))])
         == [Word(id), Word(user), Moment(now), Word(Cut(title, 32)), Word(Cut(text, 512))]
  {
    View5(Str(id), Str(user), At(now), Str(Fixed(title, 32)), Str(Fixed(text, 512)));
    TrimNulFree(id);
    TrimNulFree(user);
    TrimFixed(title, 32);
    TrimFixed(text, 512);
  }

  lemma {:induction false} PostView(thread: Uuid, user: Uuid, now: Image, text: Bytes)
    requires 0 !in user
    ensures ViewRow([Str(thread), Str(user), At(now), Str(Fixed(text, 512))])
         == [Word(Trim(thread)), Word(user), Moment(now), Word(Cut(text, 512))]
  {
    View4(Str(thread), Str(user), At(now), Str(Fixed(text, 512)));
    TrimNulFree(user);
    TrimFixed(text, 512);
  }

  lemma {:induction false} CreateTeamDecodes(d: Data, name: Bytes, text: Bytes, id: Uuid, user: Bytes)
    requires 0 !in id
    ensures |Fixed(name, 32) + Fixed(text, 255)| == CreateSize(USE_NONE)
    ensures Decode(CreateTeam(d, Fixed(name, 32) + Fixed(text, 255), id, user).result.response)
         == ([[Word(id), Word(Cut(name, 32)), Word(Cut(text, 255))]], [])
  {
    TwoFields(Fixed(name, 32), Fixed(text, 255), 287);
    var team := Team(id, Fixed(name, 32), Fixed(text, 255), [], [user]);
    RowsFitLayouts();
    OnceBack(RES_TEAM_CREATED, TeamRow(team));
    PlaceView(id, name, text);
  }

  lemma {:induction false} CreateChannelDecodes(d: Data, t: nat, name: Bytes, text: Bytes, id: Uuid)
    requires 0 !in id && t < |d.teams|
    ensures |Fixed(name, 32) + Fixed(text, 255)| == CreateSize(USE_TEAM)
    ensures Decode(CreateChannel(d, t, Fixed(name, 32) + Fixed(text, 255), id).result.response)
         == ([[Word(id), Word(Cut(name, 32)), Word(Cut(text, 255))]], [])
  {
    TwoFields(Fixed(name, 32), Fixed(text, 255), 287);
    var channel := Channel(id, Fixed(name, 32), Fixed(text, 255), []);
    RowsFitLayouts();
    OnceBack(RES_CHANNEL_CREATED, ChannelRow(channel));
    PlaceView(id, name, text);
  }

  lemma {:induction false} CreateThreadDecodes(d: Data, t: nat, i: nat, title: Bytes, text: Bytes, user: Uuid,
                                               id: Uuid, now: Image)
    requires 0 !in id && 0 !in user && t < |d.teams| && i < |d.teams[t].channels|
    ensures |Fixed(title, 32) + Fixed(text, 512)| == CreateSize(USE_CHANNEL)
    ensures Decode(CreateThread(d, t, i, Fixed(title, 32) + Fixed(text, 512), user, id, now).result.response)
         == ([[Word(id), Word(user), Moment(now), Word(Cut(title, 32)), Word(Cut(text, 512))]], [])
  {
    TwoFields(Fixed(title, 32), Fixed(text, 512), 544);
    var thread := Thread(id, user, Fixed(title, 32), Fixed(text, 512), now, []);
    RowsFitLayouts();
    OnceBack(RES_THREAD_CREATED, ThreadRow(thread));
    TopicView(id, user, now, title, text);
  }

  lemma {:induction false} CreateReplyDecodes(d: Data, thread: Uuid, t: nat, i: nat, k: nat, text: Bytes, user: Uuid,
                                              id: Uuid, now: Image)
    requires 0 !in user && t < |d.teams| && i < |d.teams[t].channels| && k < |d.teams[t].channels[i].threads|
    ensures Decode(CreateReply(d, thread, t, i, k, Fixed(text, 512), user, id, now).result.response)
         == ([[Word(Trim(thread)), Word(user), Moment(now), Word(Cut(text, 512))]], [])
  {
    assert Fixed(text, 512)[..512] == Fixed(text, 512);
    var reply := Reply(id, user, Fixed(text, 512), now);
    RowsFitLayouts();
    OnceBack(RES_REPLY_CREATED, ReplyRow(thread, reply));
    PostView(thread, user, now, text);
  }

  /** The creation inside a team that CreateIn makes. */
  lemma {:induction false} CreateInDecodes(d: Data, c: Context, p: Bytes, m: Mirror, args: seq<Bytes>, user: Uuid,
                                           id: Uuid, now: Image)
    requires 0 !in id && 0 !in user && m.level == c.level
    requires Locate(d.teams, c).AtTeam? || Locate(d.teams, c).AtChannel? || Locate(d.teams, c).AtThread?
    requires CreateCommand(m, args).packets == [Packet(CMD_CREATE, p)]
    ensures |args| == (if c.level >= USE_THREAD then 1 else 2) && CreateSize(c.level) <= |p|
    ensures Decode(CreateIn(d, c, Locate(d.teams, c), p, user, id, now).result.response)
         == ([CreatedView(c, user, args, id, now)], [])
  {
    LevelOf(d.teams, c);
    match Locate(d.teams, c)
    case AtTeam(t) => CreateChannelDecodes(d, t, args[0], args[1], id);
    case AtChannel(t, i) => CreateThreadDecodes(d, t, i, args[0], args[1], user, id, now);
    case AtThread(t, i, k) => CreateReplyDecodes(d, c.thread, t, i, k, args[0], user, id, now);
    case _ =>
  }

  lemma {:induction false} CreateTeamView(d: Data, c: Context, p: Bytes, m: Mirror, args: seq<Bytes>, user: Bytes,
                                          id: Uuid, now: Image)
    requires 0 !in id && m.level == c.level == USE_NONE && CreateCommand(m, args).packets == [Packet(CMD_CREATE, p)]
    ensures |args| == 2 && CreateSize(USE_NONE) <= |p|
    ensures Decode(CreateTeam(d, p, id, user).result.response) == ([CreatedView(c, user, args, id, now)], [])
  {
    CreateTeamDecodes(d, args[0], args[1], id, user);
  }

  lemma {:induction false} AtRootLevel(teams: seq<Team>, c: Context)
    requires Locate(teams, c).Resolved()
    ensures c.level <= USE_THREAD && (Locate(teams, c).AtRoot? <==> c.level == USE_NONE)
  {
  }

  lemma {:induction false} SessionId(d: Data, fd: int)
    requires DataOk(d) && fd in d.sessions
    ensures |d.sessions[fd]| == 36 && 0 !in d.sessions[fd] && Fixed(d.sessions[fd], 36) == d.sessions[fd]
  {
    NamesUser(d, d.sessions[fd]);
    FixedSame(d.sessions[fd]);
  }

  lemma {:induction false} CreateRoutes(d: Data, fd: int, p: Bytes, id: Uuid, now: Image)
    requires fd in d.sessions && fd in d.contexts && MayCreate(d, fd, p)
    ensures var (c, place) := (d.contexts[fd], Locate(d.teams, d.contexts[fd]));
            Create(d, fd, p, id, now)
              == if place.AtRoot? then CreateTeam(d, p, id, d.sessions[fd])
                 else CreateIn(d, c, place, p, Fixed(d.sessions[fd], 36), id, now)
  {
  }

  /**
   * A /create that goes through, built by a client at the level of the server's context, is answered with one
   * record: the new id (or the thread's), the creator and time where there are any, and the words typed, each cut
   * at its first NUL or its field.
   */
  lemma {:induction false} CreateShowsWhatWasTyped(d: Data, fd: int, p: Bytes, m: Mirror, args: seq<Bytes>, id: Uuid,
                                                   now: Image)
    requires DataOk(d) && fd in d.sessions && fd in d.contexts && MayCreate(d, fd, p) && 0 !in id
    requires m.level == d.contexts[fd].level && CreateCommand(m, args).packets == [Packet(CMD_CREATE, p)]
    ensures |args| == if m.level >= USE_THREAD then 1 else 2
    ensures Decode(Create(d, fd, p, id, now).result.response)
         == ([CreatedView(d.contexts[fd], d.sessions[fd], args, id, now)], [])
  {
    var c, user := d.contexts[fd], d.sessions[fd];
    SessionId(d, fd);
    AtRootLevel(d.teams, c);
    CreateRoutes(d, fd, p, id, now);
    if Locate(d.teams, c).AtRoot? {
      CreateTeamView(d, c, p, m, args, user, id, now);
    } else {
      CreateInDecodes(d, c, p, m, args, user, id, now);
    }
  }
}
