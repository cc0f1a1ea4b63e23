/** The five counted replies, from the server's data to what the client takes out of them. */
module RoundTrips {
  import opened Octets
  import opened Words
  import opened Protocol
  import opened Records
  import opened ServerData
  import opened Handlers
  import opened Invariants
  import opened Soundness
  import opened Membership

  // ---------------------------------------------------------------- what the client sees of an entity

  function TeamView(t: Team): seq<Arg> { [Word(Trim(t.uuid)), Word(Trim(t.name)), Word(Trim(t.description))] }

  function ChannelView(c: Channel): seq<Arg> { [Word(Trim(c.uuid)), Word(Trim(c.name)), Word(Trim(c.description))] }

  function ThreadView(k: Thread): seq<Arg> {
    [Word(Trim(k.uuid)), Word(Trim(k.creator)), Moment(k.timestamp), Word(Trim(k.title)), Word(Trim(k.body))]
  }

  /** A reply is listed under the id of its thread. */
  function ReplyView(thread: Uuid, r: Reply): seq<Arg> {
    [Word(Trim(thread)), Word(Trim(r.creator)), Moment(r.timestamp), Word(Trim(r.body))]
  }

  function TeamViews(s: seq<Team>): seq<seq<Arg>> { seq(|s|, i requires 0 <= i < |s| => TeamView(s[i])) }

  function ChannelViews(s: seq<Channel>): seq<seq<Arg>> { seq(|s|, i requires 0 <= i < |s| => ChannelView(s[i])) }

  function ThreadViews(s: seq<Thread>): seq<seq<Arg>> { seq(|s|, i requires 0 <= i < |s| => ThreadView(s[i])) }

  function ReplyViews(thread: Uuid, s: seq<Reply>): seq<seq<Arg>> {
    seq(|s|, i requires 0 <= i < |s| => ReplyView(thread, s[i]))
  }

  lemma {:induction false} ViewTeam(t: Team)
    ensures ViewRow(TeamRow(t)) == TeamView(t)
  {
    View3(Str(t.uuid), Str(t.name), Str(t.description));
  }

  lemma {:induction false} ViewChannel(c: Channel)
    ensures ViewRow(ChannelRow(c)) == ChannelView(c)
  {
    View3(Str(c.uuid), Str(c.name), Str(c.description));
  }

  lemma {:induction false} ViewThread(k: Thread)
    ensures ViewRow(ThreadRow(k)) == ThreadView(k)
  {
    View5(Str(k.uuid), Str(k.creator), At(k.timestamp), Str(k.title), Str(k.body));
  }

  lemma {:induction false} ViewReply(thread: Uuid, r: Reply)
    ensures ViewRow(ReplyRow(thread, r)) == ReplyView(thread, r)
  {
    View4(Str(thread), Str(r.creator), At(r.timestamp), Str(r.body));
  }

  lemma {:induction false} TeamsBack(code: uint16, s: seq<Team>)
    requires LayoutOf(code) == Counted(PLACE) && Small(Packet(code, EncodeList(TeamRows(s))))
    ensures Decode(Packet(code, EncodeList(TeamRows(s)))) == (TeamViews(s), [])
  {
    RowsFitLayouts();
    ListBack(code, TeamRows(s));
    forall i | 0 <= i < |s| ensures ViewRow(TeamRows(s)[i]) == TeamView(s[i]) { ViewTeam(s[i]); }
    ViewsAre(TeamRows(s), TeamViews(s));
  }

  lemma {:induction false} ChannelsBack(s: seq<Channel>)
    requires Small(Packet(RES_LIST_CHANNELS, EncodeList(ChannelRows(s))))
    ensures Decode(Packet(RES_LIST_CHANNELS, EncodeList(ChannelRows(s)))) == (ChannelViews(s), [])
  {
    RowsFitLayouts();
    ListBack(RES_LIST_CHANNELS, ChannelRows(s));
    forall i | 0 <= i < |s| ensures ViewRow(ChannelRows(s)[i]) == ChannelView(s[i]) { ViewChannel(s[i]); }
    ViewsAre(ChannelRows(s), ChannelViews(s));
  }

  lemma {:induction false} ThreadsBack(s: seq<Thread>)
    requires Small(Packet(RES_LIST_THREADS, EncodeList(ThreadRows(s))))
    ensures Decode(Packet(RES_LIST_THREADS, EncodeList(ThreadRows(s)))) == (ThreadViews(s), [])
  {
    RowsFitLayouts();
    ListBack(RES_LIST_THREADS, ThreadRows(s));
    forall i | 0 <= i < |s| ensures ViewRow(ThreadRows(s)[i]) == ThreadView(s[i]) { ViewThread(s[i]); }
    ViewsAre(ThreadRows(s), ThreadViews(s));
  }

  lemma {:induction false} RepliesBack(thread: Uuid, s: seq<Reply>)
    requires Small(Packet(RES_LIST_REPLIES, EncodeList(ReplyRows(thread, s))))
    ensures Decode(Packet(RES_LIST_REPLIES, EncodeList(ReplyRows(thread, s)))) == (ReplyViews(thread, s), [])
  {
    RowsFitLayouts();
    ListBack(RES_LIST_REPLIES, ReplyRows(thread, s));
    forall i | 0 <= i < |s| ensures ViewRow(ReplyRows(thread, s)[i]) == ReplyView(thread, s[i]) {
      ViewReply(thread, s[i]);
    }
    ViewsAre(ReplyRows(thread, s), ReplyViews(thread, s));
  }

  // ---------------------------------------------------------------- lists

  lemma {:induction false} ListIs(d: Data, fd: int)
    requires fd in d.sessions && fd in d.contexts && Locate(d.teams, d.contexts[fd]).Resolved()
    ensures var c := d.contexts[fd];
            List(d, fd) == match Locate(d.teams, c)
              case AtRoot => Answer(d, RES_LIST_TEAMS, EncodeList(TeamRows(d.teams)))
              case AtTeam(t) => Answer(d, RES_LIST_CHANNELS, EncodeList(ChannelRows(d.teams[t].channels)))
              case AtChannel(t, i) =>
                Answer(d, RES_LIST_THREADS, EncodeList(ThreadRows(d.teams[t].channels[i].threads)))
              case AtThread(t, i, k) =>
                Answer(d, RES_LIST_REPLIES,
                       EncodeList(ReplyRows(c.thread, d.teams[t].channels[i].threads[k].replies)))
              case _ => Refuse(d, ERR_INVALID_COMMAND)
  {
  }

  /** r shows exactly the entities below c, one record each, in order, under the code of its level. */
  ghost predicate Lists(teams: seq<Team>, c: Context, r: Packet) {
    match Locate(teams, c)
    case AtRoot => r.code == RES_LIST_TEAMS && Decode(r) == (TeamViews(teams), [])
    case AtTeam(t) => r.code == RES_LIST_CHANNELS && Decode(r) == (ChannelViews(teams[t].channels), [])
    case AtChannel(t, i) => r.code == RES_LIST_THREADS && Decode(r) == (ThreadViews(teams[t].channels[i].threads), [])
    case AtThread(t, i, k) =>
      r.code == RES_LIST_REPLIES && Decode(r) == (ReplyViews(c.thread, teams[t].channels[i].threads[k].replies), [])
    case _ => false
  }

  /**
   * A /list in any reachable state: at the root all teams, in a team its channels, in a channel its threads, in a
   * thread its replies and nothing else.
   */
  lemma {:induction false} ListDecodes(d: Data, fd: int)
    requires DataOk(d) && fd in d.sessions && Small(List(d, fd).result.response)
    ensures fd in d.contexts && Lists(d.teams, d.contexts[fd], List(d, fd).result.response)
  {
    assert fd in d.contexts;
    assert Locate(d.teams, d.contexts[fd]).Resolved();
    ListIs(d, fd);
    match Locate(d.teams, d.contexts[fd])
    case AtRoot => TeamsBack(RES_LIST_TEAMS, d.teams);
    case AtTeam(t) => ChannelsBack(d.teams[t].channels);
    case AtChannel(t, i) => ThreadsBack(d.teams[t].channels[i].threads);
    case AtThread(t, i, k) => RepliesBack(d.contexts[fd].thread, d.teams[t].channels[i].threads[k].replies);
    case _ =>
  }

  /**
   * Where a context leads, level by level: first matches all the way down, and a context that resolves has all its
   * ids among those of the vectors it walks through.
   */
  lemma {:induction false} LocateLeads(teams: seq<Team>, c: Context)
    ensures var place := Locate(teams, c);
            if c.level == USE_NONE then place == AtRoot
            else if c.level > USE_THREAD then place == NoLevel
            else if c.team !in TeamIds(teams) then place == NoTeam
            else
              var t := FirstOf(TeamIds(teams), c.team);
              var channels := teams[t].channels;
              if c.level == USE_TEAM then place == AtTeam(t)
              else if c.channel !in ChannelIds(channels) then place == NoChannel(t)
              else
                var i := FirstOf(ChannelIds(channels), c.channel);
                if c.level == USE_CHANNEL then place == AtChannel(t, i)
                else if c.thread !in ThreadIds(channels[i].threads) then place == NoThread(t, i)
                else place == AtThread(t, i, FirstOf(ThreadIds(channels[i].threads), c.thread))
  {
  }

  /** What the client sees of a user: the id, the name up to its first NUL or 32 bytes, and 1 or 0. */
  function UserView(sessions: map<int, Bytes>, u: User): seq<Arg> {
    [Word(u.uuid), Word(Trim(u.name)), Number(if Online(sessions, u.uuid) then 1 else 0)]
  }

  function UserViews(sessions: map<int, Bytes>, s: seq<User>): seq<seq<Arg>> {
    if s == [] then [] else [UserView(sessions, s[0])] + UserViews(sessions, s[1..])
  }

  lemma {:induction false} ViewStatus(sessions: map<int, Bytes>, u: User)
    requires 0 !in u.uuid
    ensures ViewRow(StatusRow(sessions, u)) == UserView(sessions, u)
  {
    TrimNulFree(u.uuid);
    var row := StatusRow(sessions, u);
    var mark := Mark(if Online(sessions, u.uuid) then 1 else 0);
    assert row[1..] == [Str(u.name), mark] && row[1..][1..] == [mark] && row[1..][1..][1..] == [];
    assert ViewRow([mark]) == [View(mark)] + ViewRow([mark][1..]);
    assert ViewRow(row[1..]) == [View(Str(u.name))] + ViewRow(row[1..][1..]);
  }

  lemma {:induction false} ViewStatuses(sessions: map<int, Bytes>, s: seq<User>)
    requires forall i | 0 <= i < |s| :: 0 !in s[i].uuid
    ensures ViewRows(StatusRows(sessions, s)) == UserViews(sessions, s)
  {
    if s != [] {
      ViewStatus(sessions, s[0]);
      ViewStatuses(sessions, s[1..]);
      assert StatusRows(sessions, s)[1..] == StatusRows(sessions, s[1..]);
    }
  }

  lemma {:induction false} StatusesDecode(code: uint16, sessions: map<int, Bytes>, s: seq<User>)
    requires LayoutOf(code) == Counted(STATUS) && Small(Packet(code, EncodeList(StatusRows(sessions, s))))
    requires forall i | 0 <= i < |s| :: 0 !in s[i].uuid
    ensures Decode(Packet(code, EncodeList(StatusRows(sessions, s)))) == (UserViews(sessions, s), [])
  {
    RowsFitLayouts();
    ListBack(code, StatusRows(sessions, s));
    ViewStatuses(sessions, s);
  }

  /** /users: every user once, in order of creation, with the status its sessions give it. */
  lemma {:induction false} UsersDecode(d: Data, fd: int)
    requires DataOk(d) && fd in d.sessions && Small(ListUsers(d, fd).result.response)
    ensures ListUsers(d, fd).result.response.code == RES_USERS_LIST
    ensures Decode(ListUsers(d, fd).result.response) == (UserViews(d.sessions, d.users), [])
  {
    StatusesDecode(RES_USERS_LIST, d.sessions, d.users);
  }

  lemma {:induction false} NamedAreUsers(users: seq<User>, ids: seq<Bytes>)
    requires UsersOk(users) && forall m | m in ids :: m in UserIds(users)
    ensures UserIds(UsersNamed(users, ids)) == ids
    ensures forall i | 0 <= i < |ids| :: UsersNamed(users, ids)[i] in users
    ensures forall i | 0 <= i < |ids| :: 0 !in UsersNamed(users, ids)[i].uuid
  {
    EveryMemberFound(users, ids);
    if ids != [] {
      var n := |ids| - 1;
      assert forall m | m in ids[..n] :: m in ids;
      assert ids[n] in ids;
      NamedAreUsers(users, ids[..n]);
    }
  }

  lemma {:induction false} SubscribedUsersReply(d: Data, fd: int, uuid: Bytes)
    requires fd in d.sessions && |uuid| == 36 && uuid in TeamIds(d.teams)
    requires d.sessions[fd] in d.teams[FirstOf(TeamIds(d.teams), uuid)].members
    ensures var members := d.teams[FirstOf(TeamIds(d.teams), uuid)].members;
            SubscribedUsers(d, fd, uuid).result.response
              == Packet(RES_SUBSCRIBED_USERS, EncodeList(StatusRows(d.sessions, UsersNamed(d.users, members))))
  {
  }

  lemma {:induction false} MembersDecode(d: Data, members: seq<Bytes>)
    requires UsersOk(d.users) && forall m | m in members :: m in UserIds(d.users)
    requires Small(Packet(RES_SUBSCRIBED_USERS, EncodeList(StatusRows(d.sessions, UsersNamed(d.users, members)))))
    ensures UserIds(UsersNamed(d.users, members)) == members
    ensures forall i | 0 <= i < |members| :: UsersNamed(d.users, members)[i] in d.users
    ensures Decode(Packet(RES_SUBSCRIBED_USERS, EncodeList(StatusRows(d.sessions, UsersNamed(d.users, members)))))
         == (UserViews(d.sessions, UsersNamed(d.users, members)), [])
  {
    NamedAreUsers(d.users, members);
    StatusesDecode(RES_SUBSCRIBED_USERS, d.sessions, UsersNamed(d.users, members));
  }

  /** /subscribed with a team: its members and nobody else, each once, in the order they joined. */
  lemma {:induction false} SubscribedUsersDecode(d: Data, fd: int, uuid: Bytes)
    requires DataOk(d) && fd in d.sessions && |uuid| == 36 && uuid in TeamIds(d.teams)
    requires d.sessions[fd] in d.teams[FirstOf(TeamIds(d.teams), uuid)].members
    requires Small(SubscribedUsers(d, fd, uuid).result.response)
    ensures var members := d.teams[FirstOf(TeamIds(d.teams), uuid)].members;
            var found := UsersNamed(d.users, members);
            && UserIds(found) == members && (forall i | 0 <= i < |found| :: found[i] in d.users)
            && SubscribedUsers(d, fd, uuid).result.response.code == RES_SUBSCRIBED_USERS
            && Decode(SubscribedUsers(d, fd, uuid).result.response) == (UserViews(d.sessions, found), [])
  {
    SubscribedUsersReply(d, fd, uuid);
    MembersDecode(d, d.teams[FirstOf(TeamIds(d.teams), uuid)].members);
  }

  /** Positions of the teams a user is a member of. */
  ghost predicate Memberships(picks: seq<nat>, s: seq<Team>, uuid: Bytes) {
    && (forall i | 0 <= i < |picks| :: picks[i] < |s| && uuid in s[picks[i]].members)
    && (forall i, j | 0 <= i < j < |picks| :: picks[i] < picks[j])
    && (forall k | 0 <= k < |s| && uuid in s[k].members :: k in picks)
  }

  /** The teams at the given positions. */
  ghost function Chosen(s: seq<Team>, picks: seq<nat>): seq<Team>
    requires forall i | 0 <= i < |picks| :: picks[i] < |s|
  {
    seq(|picks|, i requires 0 <= i < |picks| => s[picks[i]])
  }

  lemma {:induction false} MembershipsMore(picks: seq<nat>, s: seq<Team>, t: Team, uuid: Bytes)
    requires Memberships(picks, s, uuid)
    ensures uuid in t.members ==> Memberships(picks + [|s|], s + [t], uuid)
    ensures uuid !in t.members ==> Memberships(picks, s + [t], uuid)
  {
    var (u, all) := (s + [t], picks + [|s|]);
    forall k | 0 <= k < |u| && uuid in u[k].members ensures k in all && (k < |s| ==> k in picks) {
      if k < |s| {
        assert uuid in s[k].members;
        assert k in picks;
      } else {
        assert all[|picks|] == k;
      }
    }
  }

  /** The subscribed teams are the teams that have the user as a member, each once, in the order of the teams. */
  lemma {:induction false} TeamsOfSelects(s: seq<Team>, uuid: Bytes) returns (picks: seq<nat>)
    ensures Memberships(picks, s, uuid)
    ensures TeamsOf(s, uuid) == Chosen(s, picks)
  {
    if s == [] {
      picks := [];
    } else {
      var (init, t) := (s[..|s| - 1], s[|s| - 1]);
      picks := TeamsOfSelects(init, uuid);
      assert s == init + [t];
      MembershipsMore(picks, init, t, uuid);
      if uuid in t.members { picks := picks + [|init|]; }
    }
  }

  /** /subscribed without a team: exactly the teams whose members include the user, each once, in order. */
  lemma {:induction false} SubscribedTeamsDecode(d: Data, fd: int) returns (picks: seq<nat>)
    requires DataOk(d) && fd in d.sessions && Small(SubscribedTeams(d, fd).result.response)
    ensures Memberships(picks, d.teams, d.sessions[fd])
    ensures SubscribedTeams(d, fd).result.response.code == RES_SUBSCRIBED_TEAMS
    ensures Decode(SubscribedTeams(d, fd).result.response) == (TeamViews(Chosen(d.teams, picks)), [])
  {
    picks := TeamsOfSelects(d.teams, d.sessions[fd]);
    TeamsBack(RES_SUBSCRIBED_TEAMS, TeamsOf(d.teams, d.sessions[fd]));
  }
}
