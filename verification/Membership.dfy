/** Team membership: a set with two views of it. */
module Membership {
  import opened Octets
  import opened Words
  import opened Protocol
  import opened Records
  import opened ServerData
  import opened Handlers
  import opened Invariants

  /** handle_subscribed_users drops nobody: the users found are the members, in their order. */
  lemma {:induction false} EveryMemberFound(users: seq<User>, ids: seq<Bytes>)
    requires forall m | m in ids :: m in UserIds(users)
    ensures UserIds(UsersNamed(users, ids)) == ids
  {
    if ids != [] {
      var n := |ids| - 1;
      assert ids[n] in ids;
      assert forall m | m in ids[..n] :: m in ids;
      EveryMemberFound(users, ids[..n]);
      var i := FirstOf(UserIds(users), ids[n]);
      assert UserIds(users)[i] == users[i].uuid;
      var rest := UsersNamed(users, ids[..n]);
      assert UserIds(rest + [users[i]]) == UserIds(rest) + [users[i].uuid];
      assert ids == ids[..n] + [ids[n]];
    }
  }

  lemma {:induction false} TeamsOfAre(s: seq<Team>, uuid: Bytes, t: Team)
    ensures t in TeamsOf(s, uuid) <==> t in s && uuid in t.members
  {
    if s != [] {
      var n := |s| - 1;
      TeamsOfAre(s[..n], uuid, t);
      assert s == s[..n] + [s[n]];
    }
  }

  /**
   * The two views agree: a team is among a user's subscribed teams exactly when the user is among that team's
   * subscribed users, who are listed once each.
   */
  lemma {:induction false} ViewsAgree(d: Data, t: nat, u: Bytes)
    requires DataOk(d) && t < |d.teams|
    ensures d.teams[t] in TeamsOf(d.teams, u) <==> u in UserIds(UsersNamed(d.users, d.teams[t].members))
    ensures NoDuplicates(UserIds(UsersNamed(d.users, d.teams[t].members)))
  {
    assert NoDuplicates(d.teams[t].members);
    EveryMemberFound(d.users, d.teams[t].members);
    TeamsOfAre(d.teams, u, d.teams[t]);
    assert d.teams[t] in d.teams;
  }

  /** Who is a member of team number t. */
  predicate IsMember(teams: seq<Team>, t: nat, u: Bytes) { t < |teams| && u in teams[t].members }

  /** A subscription that succeeds adds exactly the sender to exactly one team. */
  lemma {:induction false} SubscribeJoins(d: Data, fd: int, uuid: Bytes, t: nat, u: Bytes)
    requires DataOk(d) && fd in d.sessions
    ensures var o := Subscribe(d, fd, uuid);
            && |o.data.teams| == |d.teams|
            && (o.result.response.code == RES_SUBSCRIBE_OK <==> uuid in TeamIds(d.teams))
            && (IsMember(o.data.teams, t, u) <==>
                  IsMember(d.teams, t, u)
                  || (u == d.sessions[fd] && uuid in TeamIds(d.teams) && t == FirstOf(TeamIds(d.teams), uuid)))
  {
    if uuid in TeamIds(d.teams) {
      var i := FirstOf(TeamIds(d.teams), uuid);
      assert TeamIds(d.teams)[i] == d.teams[i].uuid;
    }
  }

  /** An unsubscription that succeeds ends exactly the sender's membership of exactly one team. */
  lemma {:induction false} UnsubscribeLeaves(d: Data, fd: int, uuid: Bytes, t: nat, u: Bytes)
    requires DataOk(d) && fd in d.sessions
    ensures var o := Unsubscribe(d, fd, uuid);
            var i := FirstOf(TeamIds(d.teams), uuid);
            && |o.data.teams| == |d.teams|
            && (o.result.response.code == RES_UNSUBSCRIBE_OK <==> IsMember(d.teams, i, d.sessions[fd]))
            && (IsMember(o.data.teams, t, u) <==>
                  IsMember(d.teams, t, u) && !(u == d.sessions[fd] && t == i))
  {
    var i := FirstOf(TeamIds(d.teams), uuid);
    if i < |d.teams| {
      assert TeamIds(d.teams)[i] == d.teams[i].uuid;
      var members := d.teams[i].members;
      assert NoDuplicates(members);
      if d.sessions[fd] in members { Removed(members, FirstOf(members, d.sessions[fd])); }
    }
  }
}
