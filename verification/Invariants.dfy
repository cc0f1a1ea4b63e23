/** What every reachable state of the server's data keeps. */
module Invariants {
  import opened Octets
  import opened Words
  import opened Protocol
  import opened ServerData
  import opened Handlers

  /** User ids are NUL-free and pairwise distinct. */
  ghost predicate UsersOk(users: seq<User>) {
    && (forall i | 0 <= i < |users| :: 0 !in users[i].uuid)
    && NoDuplicates(UserIds(users))
  }

  /** Descriptors with a session are those with a context, and sessions name existing users. */
  ghost predicate SessionsOk(d: Data) {
    && d.sessions.Keys == d.contexts.Keys
    && forall fd | fd in d.sessions :: d.sessions[fd] in UserIds(d.users)
  }

  ghost predicate ContextsOk(d: Data) {
    forall fd | fd in d.contexts :: Locate(d.teams, d.contexts[fd]).Resolved()
  }

  /** Member lists are sets of existing users. */
  ghost predicate MembersOk(users: seq<User>, teams: seq<Team>) {
    forall t | 0 <= t < |teams| ::
      NoDuplicates(teams[t].members) && forall m | m in teams[t].members :: m in UserIds(users)
  }

  /** Having a session implies is_logged. */
  ghost predicate LoggedOk(d: Data) {
    forall i | 0 <= i < |d.users| :: Online(d.sessions, d.users[i].uuid) ==> d.users[i].isLogged
  }

  ghost predicate DataOk(d: Data) {
    UsersOk(d.users) && SessionsOk(d) && ContextsOk(d) && MembersOk(d.users, d.teams) && LoggedOk(d)
  }

  // ---------------------------------------------------------------- growth of the team tree

  ghost predicate ChannelsGrow(a: seq<Channel>, b: seq<Channel>) {
    && ChannelIds(a) <= ChannelIds(b)
    && forall i | 0 <= i < |a| && i < |b| :: ThreadIds(a[i].threads) <= ThreadIds(b[i].threads)
  }

  /** Every vector of the tree keeps its entities at their places and only gains some at its end. */
  ghost predicate Grow(a: seq<Team>, b: seq<Team>) {
    && TeamIds(a) <= TeamIds(b)
    && forall i | 0 <= i < |a| && i < |b| :: ChannelsGrow(a[i].channels, b[i].channels)
  }

  lemma {:induction false} GrowSame(a: seq<Team>)
    ensures Grow(a, a)
  {
  }

  lemma {:induction false} LocateInGrows(a: seq<Channel>, b: seq<Channel>, c: Context, t: nat)
    requires ChannelsGrow(a, b) && LocateIn(a, c, t).Resolved()
    ensures LocateIn(b, c, t) == LocateIn(a, c, t)
  {
    if c.level != USE_TEAM {
      var i := FirstOf(ChannelIds(a), c.channel);
      FirstOfGrows(ChannelIds(a), ChannelIds(b), c.channel);
      if c.level != USE_CHANNEL {
        FirstOfGrows(ThreadIds(a[i].threads), ThreadIds(b[i].threads), c.thread);
      }
    }
  }

  /** A context that resolved goes on resolving, to the same place. */
  lemma {:induction false} LocateGrows(a: seq<Team>, b: seq<Team>, c: Context)
    requires Grow(a, b) && Locate(a, c).Resolved()
    ensures Locate(b, c) == Locate(a, c)
  {
    if c.level != USE_NONE {
      var t := FirstOf(TeamIds(a), c.team);
      FirstOfGrows(TeamIds(a), TeamIds(b), c.team);
      LocateInGrows(a[t].channels, b[t].channels, c, t);
    }
  }

  lemma {:induction false} GrowTeam(a: seq<Team>, x: Team)
    ensures Grow(a, a + [x])
  {
  }

  lemma {:induction false} GrowMembers(a: seq<Team>, t: nat, members: seq<Bytes>)
    requires t < |a|
    ensures Grow(a, WithMembers(a, t, members))
  {
  }

  lemma {:induction false} GrowChannel(a: seq<Team>, t: nat, x: Channel)
    requires t < |a|
    ensures Grow(a, AddChannel(a, t, x))
  {
  }

  lemma {:induction false} GrowThread(a: seq<Team>, t: nat, c: nat, x: Thread)
    requires t < |a| && c < |a[t].channels|
    ensures Grow(a, AddThread(a, t, c, x))
  {
  }

  lemma {:induction false} GrowReply(a: seq<Team>, t: nat, c: nat, k: nat, x: Reply)
    requires t < |a| && c < |a[t].channels| && k < |a[t].channels[c].threads|
    ensures Grow(a, AddReply(a, t, c, k, x))
  {
  }

  /** The effect of a handler that leaves users and sessions alone and lets the tree grow. */
  lemma {:induction false} GrowthKeeps(d: Data, e: Data)
    requires DataOk(d) && e.users == d.users && e.sessions == d.sessions && e.contexts == d.contexts
    requires Grow(d.teams, e.teams) && MembersOk(e.users, e.teams)
    ensures DataOk(e)
  {
    forall fd | fd in e.contexts ensures Locate(e.teams, e.contexts[fd]).Resolved() {
      LocateGrows(d.teams, e.teams, d.contexts[fd]);
    }
  }

  // ---------------------------------------------------------------- login and logout

  lemma {:induction false} EnrolKeeps(users: seq<User>, name: Bytes, id: Uuid)
    requires UsersOk(users) && id !in UserIds(users) && 0 !in id
    ensures UsersOk(Enrol(users, name, id).0)
    ensures Enrol(users, name, id).1 < |Enrol(users, name, id).0|
    ensures UserIds(users) <= UserIds(Enrol(users, name, id).0)
  {
    var (after, i) := Enrol(users, name, id);
    assert UserIds(users) <= UserIds(after);
    if after != users {
      assert UserIds(after) == UserIds(users) + [id];
    }
  }

  lemma {:induction false} UserIdsUpdate(users: seq<User>, i: nat, logged: bool)
    requires i < |users|
    ensures UserIds(users[i := users[i].(isLogged := logged)]) == UserIds(users)
  {
  }

  lemma {:induction false} UsersUpdate(users: seq<User>, i: nat, logged: bool)
    requires UsersOk(users) && i < |users|
    ensures UsersOk(users[i := users[i].(isLogged := logged)])
  {
    UserIdsUpdate(users, i, logged);
  }

  lemma {:induction false} IdAt(users: seq<User>, i: nat, j: nat)
    requires UsersOk(users) && i < |users| && j < |users| && users[i].uuid == users[j].uuid
    ensures i == j
  {
    assert UserIds(users)[i] == UserIds(users)[j];
  }

  lemma {:induction false} LoginKeeps(d: Data, fd: int, text: Bytes, id: Uuid)
    requires DataOk(d) && id !in UserIds(d.users) && 0 !in id
    ensures DataOk(Login(d, fd, text, id).data)
  {
    LoginKeepsIds(d, fd, text, id);
    LoginKeepsTree(d, fd, text, id);
    LoginLogs(d, fd, text, id);
  }

  lemma {:induction false} LoginKeepsIds(d: Data, fd: int, text: Bytes, id: Uuid)
    requires DataOk(d) && id !in UserIds(d.users) && 0 !in id
    ensures var e := Login(d, fd, text, id).data;
            && UsersOk(e.users) && SessionsOk(e) && (forall x | x in UserIds(d.users) :: x in UserIds(e.users))
  {
    var (users, i) := Enrol(d.users, Trim(text), id);
    EnrolKeeps(d.users, Trim(text), id);
    UsersUpdate(users, i, true);
    UserIdsUpdate(users, i, true);
    TrimNulFree(users[i].uuid);
    assert UserIds(users)[i] == users[i].uuid;
    assert forall x | x in UserIds(d.users) :: x in UserIds(users);
  }

  lemma {:induction false} LoginKeepsTree(d: Data, fd: int, text: Bytes, id: Uuid)
    requires ContextsOk(d) && MembersOk(d.users, d.teams)
    requires forall x | x in UserIds(d.users) :: x in UserIds(Login(d, fd, text, id).data.users)
    ensures var e := Login(d, fd, text, id).data; ContextsOk(e) && MembersOk(e.users, e.teams)
  {
    assert Locate(d.teams, NO_CONTEXT).Resolved();
  }

  lemma {:induction false} LoginLogs(d: Data, fd: int, text: Bytes, id: Uuid)
    requires DataOk(d) && id !in UserIds(d.users) && 0 !in id
    ensures LoggedOk(Login(d, fd, text, id).data)
  {
    var e := Login(d, fd, text, id).data;
    var (users, i) := Enrol(d.users, Trim(text), id);
    EnrolKeeps(d.users, Trim(text), id);
    TrimNulFree(users[i].uuid);
    forall j | 0 <= j < |e.users| && Online(e.sessions, e.users[j].uuid) ensures e.users[j].isLogged {
      var f :| f in e.sessions && e.sessions[f] == e.users[j].uuid;
      if f == fd {
        IdAt(users, i, j);
      } else {
        assert d.sessions[f] in UserIds(d.users);
        if j < |d.users| {
          assert Online(d.sessions, d.users[j].uuid);
        }
      }
    }
  }

  lemma {:induction false} LogoutKeeps(d: Data, fd: int)
    requires DataOk(d)
    ensures DataOk(Logout(d, fd).data)
  {
    if fd in d.sessions {
      var e := Logout(d, fd).data;
      var i := FirstOf(UserIds(d.users), d.sessions[fd]);
      assert i < |d.users|;
      UsersUpdate(d.users, i, Online(e.sessions, d.sessions[fd]));
      UserIdsUpdate(d.users, i, Online(e.sessions, d.sessions[fd]));
      forall j | 0 <= j < |e.users| && Online(e.sessions, e.users[j].uuid) ensures e.users[j].isLogged {
        var f :| f in e.sessions && e.sessions[f] == e.users[j].uuid;
        assert Online(d.sessions, d.users[j].uuid);
      }
    }
  }

  // ---------------------------------------------------------------- the other handlers that change data

  lemma {:induction false} SubscribeKeeps(d: Data, fd: int, uuid: Bytes)
    requires DataOk(d)
    ensures DataOk(Subscribe(d, fd, uuid).data)
  {
    var e := Subscribe(d, fd, uuid).data;
    if e != d {
      var t := FirstOf(TeamIds(d.teams), uuid);
      var members := d.teams[t].members + [d.sessions[fd]];
      GrowMembers(d.teams, t, members);
      assert NoDuplicates(d.teams[t].members);
      GrowthKeeps(d, e);
    }
  }

  lemma {:induction false} Removed(s: seq<Bytes>, i: nat)
    requires i < |s| && NoDuplicates(s)
    ensures NoDuplicates(s[..i] + s[i + 1..])
    ensures forall x :: x in s[..i] + s[i + 1..] <==> x in s && x != s[i]
  {
    var r := s[..i] + s[i + 1..];
    assert forall j | 0 <= j < |r| :: r[j] == s[if j < i then j else j + 1];
    forall x | x in s && x != s[i] ensures x in r {
      var j :| 0 <= j < |s| && s[j] == x;
      assert r[if j < i then j else j - 1] == x;
    }
  }

  lemma {:induction false} UnsubscribeKeeps(d: Data, fd: int, uuid: Bytes)
    requires DataOk(d)
    ensures DataOk(Unsubscribe(d, fd, uuid).data)
  {
    var e := Unsubscribe(d, fd, uuid).data;
    if e != d {
      var t := FirstOf(TeamIds(d.teams), uuid);
      var members := d.teams[t].members;
      var i := FirstOf(members, d.sessions[fd]);
      assert NoDuplicates(members);
      Removed(members, i);
      GrowMembers(d.teams, t, members[..i] + members[i + 1..]);
      GrowthKeeps(d, e);
    }
  }

  lemma {:induction false} CreateChannelKeeps(d: Data, t: nat, p: Bytes, id: Uuid)
    requires DataOk(d) && t < |d.teams| && CreateSize(USE_TEAM) <= |p|
    ensures var e := CreateChannel(d, t, p, id).data; DataOk(e) && Grow(d.teams, e.teams)
  {
    GrowChannel(d.teams, t, Channel(id, p[..32], p[32..287], []));
    GrowthKeeps(d, CreateChannel(d, t, p, id).data);
  }

  lemma {:induction false} CreateThreadKeeps(d: Data, t: nat, i: nat, p: Bytes, creator: Uuid, id: Uuid, now: Image)
    requires DataOk(d) && t < |d.teams| && i < |d.teams[t].channels| && CreateSize(USE_CHANNEL) <= |p|
    ensures var e := CreateThread(d, t, i, p, creator, id, now).data; DataOk(e) && Grow(d.teams, e.teams)
  {
    GrowThread(d.teams, t, i, Thread(id, creator, p[..32], p[32..544], now, []));
    GrowthKeeps(d, CreateThread(d, t, i, p, creator, id, now).data);
  }

  lemma {:induction false} CreateReplyKeeps(d: Data, thread: Uuid, t: nat, i: nat, k: nat, p: Bytes, creator: Uuid,
                                            id: Uuid, now: Image)
    requires DataOk(d) && t < |d.teams| && i < |d.teams[t].channels| && k < |d.teams[t].channels[i].threads|
    requires CreateSize(USE_THREAD) <= |p|
    ensures var e := CreateReply(d, thread, t, i, k, p, creator, id, now).data; DataOk(e) && Grow(d.teams, e.teams)
  {
    GrowReply(d.teams, t, i, k, Reply(id, creator, p[..512], now));
    GrowthKeeps(d, CreateReply(d, thread, t, i, k, p, creator, id, now).data);
  }

  lemma {:induction false} CreateInKeeps(d: Data, c: Context, place: Place, p: Bytes, creator: Uuid, id: Uuid,
                                         now: Image)
    requires DataOk(d) && place == Locate(d.teams, c) && (place.AtTeam? || place.AtChannel? || place.AtThread?)
    requires CreateSize(c.level) <= |p|
    ensures DataOk(CreateIn(d, c, place, p, creator, id, now).data)
    ensures Grow(d.teams, CreateIn(d, c, place, p, creator, id, now).data.teams)
  {
    match place
    case AtTeam(t) => CreateChannelKeeps(d, t, p, id);
    case AtChannel(t, i) => CreateThreadKeeps(d, t, i, p, creator, id, now);
    case AtThread(t, i, k) => CreateReplyKeeps(d, c.thread, t, i, k, p, creator, id, now);
  }

  lemma {:induction false} CreateTeamKeeps(d: Data, team: Team)
    requires DataOk(d) && |team.members| == 1 && team.members[0] in UserIds(d.users)
    ensures DataOk(d.(teams := d.teams + [team]))
    ensures Grow(d.teams, d.teams + [team])
  {
    GrowTeam(d.teams, team);
    GrowthKeeps(d, d.(teams := d.teams + [team]));
  }
}
