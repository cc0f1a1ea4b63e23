/** What a creation changes in the tree, and who hears of it. */
module Creation {
  import opened Octets
  import opened Words
  import opened Protocol
  import opened Records
  import opened ServerData
  import opened Handlers
  import opened System
  import opened Invariants
  import opened Soundness
  import opened Reachable
  import opened Connections

  /** Two contexts that name the same container. */
  predicate SameContainer(a: Context, b: Context) {
    && a.level == b.level
    && (a.level >= USE_TEAM ==> a.team == b.team)
    && (a.level >= USE_CHANNEL ==> a.channel == b.channel)
    && (a.level >= USE_THREAD ==> a.thread == b.thread)
  }

  /** The records below a resolved context. */
  function Below(teams: seq<Team>, c: Context): seq<Row>
    requires Locate(teams, c).Resolved()
  {
    Listing(teams, c).1
  }

  ghost predicate MembersKept(a: seq<Team>, b: seq<Team>) {
    |a| <= |b| && forall i | 0 <= i < |a| :: b[i].members == a[i].members
  }

  /** b is a with one record more below c, and nothing else changed below any context. */
  ghost predicate Appended(a: seq<Team>, b: seq<Team>, c: Context, row: Row) {
    && Grow(a, b) && MembersKept(a, b) && Locate(a, c).Resolved()
    && (LocateGrows(a, b, c); Below(b, c) == Below(a, c) + [row])
    && forall x | Locate(a, x).Resolved() && !SameContainer(c, x) ::
         Locate(b, x).Resolved() && Listing(b, x) == Listing(a, x)
  }

  lemma {:induction false} SamePlaceSameContainer(teams: seq<Team>, a: Context, b: Context)
    requires Locate(teams, a).Resolved() && Locate(teams, a) == Locate(teams, b)
    ensures SameContainer(a, b)
  {
  }

  lemma {:induction false} TeamAppended(a: seq<Team>, x: Team, c: Context)
    requires c.level == USE_NONE
    ensures Appended(a, a + [x], c, TeamRow(x))
  {
    var b := a + [x];
    GrowTeam(a, x);
    assert TeamRows(b) == TeamRows(a) + [TeamRow(x)];
    forall y | Locate(a, y).Resolved() && !SameContainer(c, y)
      ensures Locate(b, y).Resolved() && Listing(b, y) == Listing(a, y)
    {
      LocateGrows(a, b, y);
    }
  }

  lemma {:induction false} ChannelElsewhere(a: seq<Team>, t: nat, x: Channel, y: Context)
    requires t < |a|
    requires Locate(a, y).Resolved() && Locate(a, y) != AtTeam(t)
    ensures Locate(AddChannel(a, t, x), y).Resolved()
    ensures Listing(AddChannel(a, t, x), y) == Listing(a, y)
  {
    GrowChannel(a, t, x);
    LocateGrows(a, AddChannel(a, t, x), y);
    assert TeamRows(AddChannel(a, t, x)) == TeamRows(a);
  }

  lemma {:induction false} ChannelHere(a: seq<Team>, t: nat, x: Channel, c: Context)
    requires Locate(a, c) == AtTeam(t)
    ensures Locate(AddChannel(a, t, x), c) == AtTeam(t)
    ensures Below(AddChannel(a, t, x), c) == Below(a, c) + [ChannelRow(x)]
  {
    GrowChannel(a, t, x);
    LocateGrows(a, AddChannel(a, t, x), c);
    assert ChannelRows(a[t].channels + [x]) == ChannelRows(a[t].channels) + [ChannelRow(x)];
  }

  lemma {:induction false} ChannelAppended(a: seq<Team>, t: nat, x: Channel, c: Context)
    requires Locate(a, c) == AtTeam(t)
    ensures Appended(a, AddChannel(a, t, x), c, ChannelRow(x))
  {
    var b := AddChannel(a, t, x);
    GrowChannel(a, t, x);
    ChannelHere(a, t, x, c);
    assert MembersKept(a, b);
    forall y | Locate(a, y).Resolved() && !SameContainer(c, y)
      ensures Locate(b, y).Resolved() && Listing(b, y) == Listing(a, y)
    {
      if Locate(a, y) == AtTeam(t) { SamePlaceSameContainer(a, c, y); }
      ChannelElsewhere(a, t, x, y);
    }
  }

  /** Replacing one channel by one of the same description changes only what lies below it. */
  lemma {:induction false} OutsideChannel(a: seq<Team>, t: nat, i: nat, x: Channel, y: Context)
    requires t < |a| && i < |a[t].channels|
    requires ChannelRow(x) == ChannelRow(a[t].channels[i])
    requires Grow(a, WithChannel(a, t, i, x)) && Locate(a, y).Resolved()
    requires Locate(a, y).AtChannel? || Locate(a, y).AtThread? ==> Locate(a, y).t != t || Locate(a, y).c != i
    ensures Locate(WithChannel(a, t, i, x), y).Resolved()
    ensures Listing(WithChannel(a, t, i, x), y) == Listing(a, y)
  {
    var b := WithChannel(a, t, i, x);
    LocateGrows(a, b, y);
    assert TeamRows(b) == TeamRows(a);
    assert ChannelRows(b[t].channels) == ChannelRows(a[t].channels);
  }

  lemma {:induction false} ThreadHere(a: seq<Team>, t: nat, i: nat, x: Thread, c: Context)
    requires Locate(a, c) == AtChannel(t, i)
    ensures Locate(AddThread(a, t, i, x), c) == AtChannel(t, i)
    ensures Below(AddThread(a, t, i, x), c) == Below(a, c) + [ThreadRow(x)]
  {
    GrowThread(a, t, i, x);
    LocateGrows(a, AddThread(a, t, i, x), c);
    var threads := a[t].channels[i].threads;
    assert ThreadRows(threads + [x]) == ThreadRows(threads) + [ThreadRow(x)];
  }

  lemma {:induction false} ThreadElsewhere(a: seq<Team>, t: nat, i: nat, x: Thread, y: Context)
    requires t < |a| && i < |a[t].channels|
    requires Locate(a, y).Resolved() && Locate(a, y) != AtChannel(t, i)
    ensures Locate(AddThread(a, t, i, x), y).Resolved()
    ensures Listing(AddThread(a, t, i, x), y) == Listing(a, y)
  {
    var channel := a[t].channels[i];
    var p := Locate(a, y);
    GrowThread(a, t, i, x);
    if p.AtThread? && p.t == t && p.c == i {
      LocateGrows(a, AddThread(a, t, i, x), y);
      assert AddThread(a, t, i, x)[t].channels[i].threads[p.k] == channel.threads[p.k];
    } else {
      OutsideChannel(a, t, i, channel.(threads := channel.threads + [x]), y);
    }
  }

  lemma {:induction false} ThreadAppended(a: seq<Team>, t: nat, i: nat, x: Thread, c: Context)
    requires Locate(a, c) == AtChannel(t, i)
    ensures Appended(a, AddThread(a, t, i, x), c, ThreadRow(x))
  {
    var b := AddThread(a, t, i, x);
    GrowThread(a, t, i, x);
    ThreadHere(a, t, i, x, c);
    assert MembersKept(a, b);
    forall y | Locate(a, y).Resolved() && !SameContainer(c, y)
      ensures Locate(b, y).Resolved() && Listing(b, y) == Listing(a, y)
    {
      if Locate(a, y) == AtChannel(t, i) { SamePlaceSameContainer(a, c, y); }
      ThreadElsewhere(a, t, i, x, y);
    }
  }

  lemma {:induction false} ReplyHere(a: seq<Team>, t: nat, i: nat, k: nat, x: Reply, c: Context)
    requires Locate(a, c) == AtThread(t, i, k)
    ensures Locate(AddReply(a, t, i, k, x), c) == AtThread(t, i, k)
    ensures Below(AddReply(a, t, i, k, x), c) == Below(a, c) + [ReplyRow(c.thread, x)]
  {
    GrowReply(a, t, i, k, x);
    LocateGrows(a, AddReply(a, t, i, k, x), c);
    assert AddReply(a, t, i, k, x)[t].channels[i].threads[k].replies == a[t].channels[i].threads[k].replies + [x];
    var replies := a[t].channels[i].threads[k].replies;
    assert ReplyRows(c.thread, replies + [x]) == ReplyRows(c.thread, replies) + [ReplyRow(c.thread, x)];
  }

  lemma {:induction false} ReplyElsewhere(a: seq<Team>, t: nat, i: nat, k: nat, x: Reply, y: Context)
    requires t < |a| && i < |a[t].channels| && k < |a[t].channels[i].threads|
    requires Locate(a, y).Resolved() && Locate(a, y) != AtThread(t, i, k)
    ensures Locate(AddReply(a, t, i, k, x), y).Resolved()
    ensures Listing(AddReply(a, t, i, k, x), y) == Listing(a, y)
  {
    var b, channel := AddReply(a, t, i, k, x), a[t].channels[i];
    var thread := channel.threads[k];
    var p := Locate(a, y);
    GrowReply(a, t, i, k, x);
    if (p.AtThread? || p.AtChannel?) && p.t == t && p.c == i {
      LocateGrows(a, b, y);
      assert ThreadRows(b[t].channels[i].threads) == ThreadRows(channel.threads);
    } else {
      OutsideChannel(a, t, i, channel.(threads := channel.threads[k := thread.(replies := thread.replies + [x])]), y);
    }
  }

  lemma {:induction false} ReplyAppended(a: seq<Team>, t: nat, i: nat, k: nat, x: Reply, c: Context)
    requires Locate(a, c) == AtThread(t, i, k)
    ensures Appended(a, AddReply(a, t, i, k, x), c, ReplyRow(c.thread, x))
  {
    var b := AddReply(a, t, i, k, x);
    GrowReply(a, t, i, k, x);
    ReplyHere(a, t, i, k, x, c);
    assert MembersKept(a, b);
    forall y | Locate(a, y).Resolved() && !SameContainer(c, y)
      ensures Locate(b, y).Resolved() && Listing(b, y) == Listing(a, y)
    {
      if Locate(a, y) == AtThread(t, i, k) { SamePlaceSameContainer(a, c, y); }
      ReplyElsewhere(a, t, i, k, x, y);
    }
  }

  /** The reply codes of a successful creation, by context level. */
  function CreatedCode(level: byte): uint16
    requires level <= USE_THREAD
  {
    RES_TEAM_CREATED + level
  }

  function CreatedEvent(level: byte): uint16
    requires level <= USE_THREAD
  {
    EVT_TEAM_CREATED + level
  }

  /** Whether a creation in context c goes through. */
  predicate MayCreate(d: Data, fd: int, p: Bytes)
    requires fd in d.sessions && fd in d.contexts
  {
    var c := d.contexts[fd];
    var place := Locate(d.teams, c);
    && place.Resolved() && CreateSize(c.level) <= |p|
    && (place.AtRoot? || d.sessions[fd] in d.teams[place.t].members)
  }

  /** Who is told: everyone logged in about a team, the members about what happens inside one. */
  predicate Hears(d: Data, c: Context, f: int)
    requires Locate(d.teams, c).Resolved()
  {
    f in d.sessions && (Locate(d.teams, c).AtRoot? || d.sessions[f] in d.teams[Locate(d.teams, c).t].members)
  }

  /** The shape every successful creation has. */
  ghost predicate Creates(d: Data, o: Outcome, c: Context, row: Row, fds: seq<int>)
    requires c.level <= USE_THREAD
  {
    && o.data == d.(teams := o.data.teams) && Appended(d.teams, o.data.teams, c, row)
    && o.result.response == Packet(CreatedCode(c.level), Encode(row))
    && o.result.pushes == [Push(Packet(CreatedEvent(c.level), Encode(row)), fds)]
  }

  lemma {:induction false} CreatesFrom(d: Data, c: Context, teams: seq<Team>, row: Row, fds: seq<int>)
    requires c.level <= USE_THREAD && Appended(d.teams, teams, c, row)
    ensures Creates(d, Created(d.(teams := teams), CreatedCode(c.level), CreatedEvent(c.level), row, fds), c, row, fds)
  {
  }

  lemma {:induction false} LevelOf(teams: seq<Team>, c: Context)
    ensures Locate(teams, c).AtTeam? ==> c.level == USE_TEAM
    ensures Locate(teams, c).AtChannel? ==> c.level == USE_CHANNEL
    ensures Locate(teams, c).AtThread? ==> c.level == USE_THREAD
  {
  }

  lemma {:induction false} ChannelIs(d: Data, c: Context, t: nat, p: Bytes, id: Uuid)
    requires c.level == USE_TEAM && t < |d.teams| && CreateSize(USE_TEAM) <= |p|
    ensures var x := Channel(id, p[..32], p[32..287], []);
            CreateChannel(d, t, p, id)
              == Created(d.(teams := AddChannel(d.teams, t, x)), CreatedCode(c.level), CreatedEvent(c.level),
                         ChannelRow(x), MemberFds(d.sessions, d.teams[t].members))
  {
  }

  lemma {:induction false} ThreadIs(d: Data, c: Context, t: nat, i: nat, p: Bytes, creator: Uuid, id: Uuid, now: Image)
    requires c.level == USE_CHANNEL && t < |d.teams| && i < |d.teams[t].channels| && CreateSize(USE_CHANNEL) <= |p|
    ensures var x := Thread(id, creator, p[..32], p[32..544], now, []);
            CreateThread(d, t, i, p, creator, id, now)
              == Created(d.(teams := AddThread(d.teams, t, i, x)), CreatedCode(c.level), CreatedEvent(c.level),
                         ThreadRow(x), MemberFds(d.sessions, d.teams[t].members))
  {
  }

  lemma {:induction false} ReplyIs(d: Data, c: Context, t: nat, i: nat, k: nat, p: Bytes, creator: Uuid, id: Uuid,
                                   now: Image)
    requires c.level == USE_THREAD && t < |d.teams| && i < |d.teams[t].channels| && k < |d.teams[t].channels[i].threads|
    requires CreateSize(USE_THREAD) <= |p|
    ensures var x := Reply(id, creator, p[..512], now);
            CreateReply(d, c.thread, t, i, k, p, creator, id, now)
              == Created(d.(teams := AddReply(d.teams, t, i, k, x)), CreatedCode(c.level), CreatedEvent(c.level),
                         ReplyRow(c.thread, x), MemberFds(d.sessions, d.teams[t].members))
  {
  }

  lemma {:induction false} CreateChannelAppends(d: Data, c: Context, t: nat, p: Bytes, id: Uuid) returns (row: Row)
    requires Locate(d.teams, c) == AtTeam(t) && CreateSize(USE_TEAM) <= |p|
    ensures Creates(d, CreateChannel(d, t, p, id), c, row, MemberFds(d.sessions, d.teams[t].members))
  {
    LevelOf(d.teams, c);
    ChannelIs(d, c, t, p, id);
    var x := Channel(id, p[..32], p[32..287], []);
    row := ChannelRow(x);
    ChannelAppended(d.teams, t, x, c);
    CreatesFrom(d, c, AddChannel(d.teams, t, x), row, MemberFds(d.sessions, d.teams[t].members));
  }

  lemma {:induction false} CreateThreadAppends(d: Data, c: Context, t: nat, i: nat, p: Bytes, creator: Uuid, id: Uuid,
                                               now: Image)
    returns (row: Row)
    requires Locate(d.teams, c) == AtChannel(t, i) && CreateSize(USE_CHANNEL) <= |p|
    ensures Creates(d, CreateThread(d, t, i, p, creator, id, now), c, row, MemberFds(d.sessions, d.teams[t].members))
  {
    LevelOf(d.teams, c);
    ThreadIs(d, c, t, i, p, creator, id, now);
    var x := Thread(id, creator, p[..32], p[32..544], now, []);
    row := ThreadRow(x);
    ThreadAppended(d.teams, t, i, x, c);
    CreatesFrom(d, c, AddThread(d.teams, t, i, x), row, MemberFds(d.sessions, d.teams[t].members));
  }

  lemma {:induction false} CreateReplyAppends(d: Data, c: Context, t: nat, i: nat, k: nat, p: Bytes, creator: Uuid,
                                              id: Uuid, now: Image)
    returns (row: Row)
    requires Locate(d.teams, c) == AtThread(t, i, k) && CreateSize(USE_THREAD) <= |p|
    ensures Creates(d, CreateReply(d, c.thread, t, i, k, p, creator, id, now), c, row,
                    MemberFds(d.sessions, d.teams[t].members))
  {
    LevelOf(d.teams, c);
    ReplyIs(d, c, t, i, k, p, creator, id, now);
    var x := Reply(id, creator, p[..512], now);
    row := ReplyRow(c.thread, x);
    ReplyAppended(d.teams, t, i, k, x, c);
    CreatesFrom(d, c, AddReply(d.teams, t, i, k, x), row, MemberFds(d.sessions, d.teams[t].members));
  }

  lemma {:induction false} CreateInAppends(d: Data, c: Context, place: Place, p: Bytes, creator: Uuid, id: Uuid,
                                           now: Image)
    returns (row: Row)
    requires place == Locate(d.teams, c) && (place.AtTeam? || place.AtChannel? || place.AtThread?)
    requires CreateSize(c.level) <= |p|
    ensures Creates(d, CreateIn(d, c, place, p, creator, id, now), c, row,
                    MemberFds(d.sessions, d.teams[place.t].members))
  {
    match place {
      case AtTeam(t) => row := CreateChannelAppends(d, c, t, p, id);
      case AtChannel(t, i) => row := CreateThreadAppends(d, c, t, i, p, creator, id, now);
      case AtThread(t, i, k) => row := CreateReplyAppends(d, c, t, i, k, p, creator, id, now);
    }
  }

  lemma {:induction false} CreateTeamAppends(d: Data, c: Context, p: Bytes, id: Uuid, user: Bytes) returns (row: Row)
    requires c.level == USE_NONE && CreateSize(USE_NONE) <= |p|
    ensures Creates(d, CreateTeam(d, p, id, user), c, row, SessionFds(d.sessions))
  {
    var team := Team(id, p[..32], p[32..287], [], [user]);
    TeamAppended(d.teams, team, c);
    row := TeamRow(team);
  }

  lemma {:induction false} CreateAppends(d: Data, fd: int, p: Bytes, id: Uuid, now: Image)
    returns (row: Row, fds: seq<int>)
    requires fd in d.sessions && fd in d.contexts && MayCreate(d, fd, p)
    ensures Creates(d, Create(d, fd, p, id, now), d.contexts[fd], row, fds)
    ensures NoDuplicates(fds) && forall f :: f in fds <==> Hears(d, d.contexts[fd], f)
  {
    var c, user := d.contexts[fd], d.sessions[fd];
    var place := Locate(d.teams, c);
    if place.AtRoot? {
      fds := SessionFds(d.sessions);
      row := CreateTeamAppends(d, c, p, id, user);
    } else {
      fds := MemberFds(d.sessions, d.teams[place.t].members);
      row := CreateInAppends(d, c, place, p, Fixed(user, 36), id, now);
    }
    IncreasingNoDuplicates(fds);
  }

  /**
   * A creation that goes through appends exactly one record below the sender's context, the one its reply
   * shows: the next list there is the old list plus that record, the list of every other resolvable context
   * is the same, and members, users, sessions, contexts and messages do not change. A creation that does
   * not go through changes nothing and tells nobody.
   */
  lemma {:induction false} CreateIsLocal(d: Data, fd: int, p: Bytes, id: Uuid, now: Image) returns (row: Row)
    requires DataOk(d) && fd in d.sessions
    ensures fd in d.contexts && Locate(d.teams, d.contexts[fd]).Resolved()
    ensures var (o, c) := (Create(d, fd, p, id, now), d.contexts[fd]);
            if MayCreate(d, fd, p) then
              && o.data == d.(teams := o.data.teams) && Appended(d.teams, o.data.teams, c, row)
              && o.result.response == Packet(CreatedCode(c.level), Encode(row))
            else
              && o.data == d && o.result.pushes == []
              && (o.result.response.code == ERR_INVALID_COMMAND || o.result.response.code == ERR_NOT_SUBSCRIBED)
  {
    assert fd in d.contexts;
    assert Locate(d.teams, d.contexts[fd]).Resolved();
    row := [];
    if MayCreate(d, fd, p) {
      var fds;
      row, fds := CreateAppends(d, fd, p, id, now);
    }
  }

  lemma {:induction false} CreatePushes(d: Data, fd: int, p: Bytes, id: Uuid, now: Image, f: int)
    requires DataOk(d) && fd in d.sessions && fd in d.contexts && MayCreate(d, fd, p)
    ensures var o := Create(d, fd, p, id, now);
            PushesFor(o.result.pushes, f)
              == if Hears(d, d.contexts[fd], f)
                 then [Packet(CreatedEvent(d.contexts[fd].level), o.result.response.payload)] else []
  {
    var row, fds := CreateAppends(d, fd, p, id, now);
    var push := Push(Packet(CreatedEvent(d.contexts[fd].level), Encode(row)), fds);
    OnePush(push, f);
  }

  /**
   * A creation queues its event exactly once to each other session that may hear of it, with the payload of
   * the reply, and puts nothing into any other queue; a refused one puts nothing into any queue but the
   * sender's. For a channel, thread or reply, those who hear are the sessions of the team's members.
   */
  lemma {:induction false} CreateReaches(w: World, s: Sys, fd: int, q: Packet)
    requires WorldOk(w, s.ticks + 1) && SysOk(w, s) && fd in s.data.sessions && q.code == CMD_CREATE
    ensures fd in s.clients && fd in s.data.contexts && Locate(s.data.teams, s.data.contexts[fd]).Resolved()
    ensures var t := Dispatch(w, s, fd, q);
            var reply := Handle(s.data, fd, q, w.id(s.ticks), w.clock(s.ticks)).result.response;
            forall f | f in s.clients ::
              t.clients[f].past.queued == s.clients[f].past.queued +
                if f == fd then [reply]
                else if MayCreate(s.data, fd, q.payload) && Hears(s.data, s.data.contexts[fd], f)
                then [Packet(CreatedEvent(s.data.contexts[fd].level), reply.payload)]
                else []
  {
    var d, id, now := s.data, w.id(s.ticks), w.clock(s.ticks);
    var row := CreateIsLocal(d, fd, q.payload, id, now);
    Routes(d, fd, q, id, now);
    var o := Create(d, fd, q.payload, id, now);
    forall f | f in s.clients && f != fd
      ensures PushesFor(o.result.pushes, f)
           == if MayCreate(d, fd, q.payload) && Hears(d, d.contexts[fd], f)
              then [Packet(CreatedEvent(d.contexts[fd].level), o.result.response.payload)] else []
    {
      if MayCreate(d, fd, q.payload) { CreatePushes(d, fd, q.payload, id, now, f); }
    }
  }
}
