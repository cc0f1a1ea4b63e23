/** server_data_t in memory: its fields, its lookups and the payload appends, as the server's loops do them. */
module Store {
  import opened Octets
  import opened Words
  import opened Protocol
  import opened Records
  import opened ServerData
  import opened Handlers

  /** Two increasing lists of the same elements are one list. */
  lemma {:induction false} IncreasingUnique(a: seq<int>, b: seq<int>)
    requires Increasing(a) && Increasing(b) && forall x :: x in a <==> x in b
    ensures a == b
  {
    assert a != [] ==> a[0] in a;
    assert b != [] ==> b[0] in b;
    if a != [] {
      assert a[0] in b && b[0] in a;
      var i :| 0 <= i < |b| && b[i] == a[0];
      var j :| 0 <= j < |a| && a[j] == b[0];
      assert a[0] == b[0];
      RestSame(a, b);
      IncreasingUnique(a[1..], b[1..]);
    }
  }

  lemma {:induction false} RestSame(a: seq<int>, b: seq<int>)
    requires Increasing(a) && Increasing(b) && forall x :: x in a <==> x in b
    requires a != [] && b != [] && a[0] == b[0]
    ensures forall x :: x in a[1..] <==> x in b[1..]
  {
    RestHolds(a);
    RestHolds(b);
  }

  lemma {:induction false} RestHolds(a: seq<int>)
    requires Increasing(a) && a != []
    ensures forall x :: x in a[1..] <==> x in a && x != a[0]
  {
    forall x | x in a && x != a[0] ensures x in a[1..] {
      var i :| 0 <= i < |a| && a[i] == x;
      assert a[1..][i - 1] == x;
    }
  }

  lemma {:induction false} IncreasingLast(s: seq<int>, x: int)
    ensures Increasing(s + [x]) <==> Increasing(s) && forall y | y in s :: y < x
  {
    var t := s + [x];
    if Increasing(t) {
      assert forall i, j | 0 <= i < j < |s| :: s[i] == t[i] && s[j] == t[j];
      forall y | y in s ensures y < x {
        var i :| 0 <= i < |s| && s[i] == y;
        assert t[i] < t[|s|];
      }
    }
    if Increasing(s) && forall y | y in s :: y < x {
      forall i, j | 0 <= i < j < |t| ensures t[i] < t[j] { assert s[i] in s; }
    }
  }

  /** The targets kept so far while walking the sessions in key order. */
  function Kept(sessions: map<int, Bytes>, fds: seq<int>, members: seq<Bytes>): seq<int> {
    if fds == [] then [] else
      var x := fds[|fds| - 1];
      Kept(sessions, fds[..|fds| - 1], members) + if x in sessions && sessions[x] in members then [x] else []
  }

  lemma {:induction false} KeptStep(sessions: map<int, Bytes>, keys: seq<int>, i: nat, members: seq<Bytes>)
    requires i < |keys| && keys[i] in sessions
    ensures Kept(sessions, keys[..i + 1], members)
         == Kept(sessions, keys[..i], members) + if sessions[keys[i]] in members then [keys[i]] else []
  {
    assert keys[..i + 1][..i] == keys[..i];
  }

  lemma {:induction false} KeptHas(sessions: map<int, Bytes>, fds: seq<int>, members: seq<Bytes>, x: int)
    ensures x in Kept(sessions, fds, members) <==> x in fds && x in sessions && sessions[x] in members
  {
    if fds != [] {
      KeptHas(sessions, fds[..|fds| - 1], members, x);
      assert fds == fds[..|fds| - 1] + [fds[|fds| - 1]];
    }
  }

  lemma {:induction false} KeptIncreasing(sessions: map<int, Bytes>, fds: seq<int>, members: seq<Bytes>)
    requires Increasing(fds)
    ensures Increasing(Kept(sessions, fds, members))
  {
    if fds != [] {
      var n := |fds| - 1;
      var rest := Kept(sessions, fds[..n], members);
      assert fds == fds[..n] + [fds[n]];
      IncreasingLast(fds[..n], fds[n]);
      KeptIncreasing(sessions, fds[..n], members);
      forall y | y in rest ensures y < fds[n] { KeptHas(sessions, fds[..n], members, y); }
      IncreasingLast(rest, fds[n]);
    }
  }

  /** The walk over all sessions ends with exactly the wanted ones, in ascending order. */
  lemma {:induction false} KeptAll(sessions: map<int, Bytes>, members: seq<Bytes>, wanted: set<int>)
    requires forall fd :: fd in wanted <==> fd in sessions && sessions[fd] in members
    ensures Kept(sessions, Ascending(sessions.Keys), members) == Ascending(wanted)
  {
    var keys := Ascending(sessions.Keys);
    KeptIncreasing(sessions, keys, members);
    forall x ensures x in Kept(sessions, keys, members) <==> x in Ascending(wanted) {
      KeptHas(sessions, keys, members, x);
    }
    IncreasingUnique(Kept(sessions, keys, members), Ascending(wanted));
  }

  lemma {:induction false} KeptMembers(sessions: map<int, Bytes>, members: seq<Bytes>)
    ensures Kept(sessions, Ascending(sessions.Keys), members) == MemberFds(sessions, members)
  {
    KeptAll(sessions, members, set fd | fd in sessions && sessions[fd] in members);
  }

  lemma {:induction false} KeptUser(sessions: map<int, Bytes>, uuid: Bytes)
    ensures Kept(sessions, Ascending(sessions.Keys), [uuid]) == UserFds(sessions, uuid)
  {
    KeptAll(sessions, [uuid], set fd | fd in sessions && sessions[fd] == uuid);
  }

  // ---------------------------------------------------------------- appends

  lemma {:induction false} Extend(out: Bytes, row: Row, v: Value)
    ensures out + Encode(row) + EncodeValue(v) == out + Encode(row + [v])
  {
    EncodeAppend(row, [v]);
    assert Encode([v]) == EncodeValue(v) + Encode([]);
    Associate(out, Encode(row), EncodeValue(v));
  }

  lemma {:induction false} Append2(out: Bytes, a: Value, b: Value)
    ensures out + EncodeValue(a) + EncodeValue(b) == out + Encode([a, b])
  {
    Extend(out, [], a);
    assert out + Encode([]) == out;
    assert [] + [a] == [a];
    Extend(out, [a], b);
    assert [a] + [b] == [a, b];
  }

  lemma {:induction false} Append3(out: Bytes, a: Value, b: Value, c: Value)
    ensures out + EncodeValue(a) + EncodeValue(b) + EncodeValue(c) == out + Encode([a, b, c])
  {
    Append2(out, a, b);
    Extend(out, [a, b], c);
    assert [a, b] + [c] == [a, b, c];
  }

  lemma {:induction false} Append4(out: Bytes, a: Value, b: Value, c: Value, d: Value)
    ensures out + EncodeValue(a) + EncodeValue(b) + EncodeValue(c) + EncodeValue(d) == out + Encode([a, b, c, d])
  {
    Append3(out, a, b, c);
    Extend(out, [a, b, c], d);
    assert [a, b, c] + [d] == [a, b, c, d];
  }

  lemma {:induction false} Append5(out: Bytes, a: Value, b: Value, c: Value, d: Value, e: Value)
    ensures out + EncodeValue(a) + EncodeValue(b) + EncodeValue(c) + EncodeValue(d) + EncodeValue(e)
         == out + Encode([a, b, c, d, e])
  {
    Append4(out, a, b, c, d);
    Extend(out, [a, b, c, d], e);
    assert [a, b, c, d] + [e] == [a, b, c, d, e];
  }

  method AppendAccount(out: Bytes, u: User) returns (r: Bytes)
    ensures r == out + Encode(AccountRow(u))
  {
    r := out + u.uuid;
    r := r + u.name;
    Append2(out, Str(u.uuid), Str(u.name));
  }

  method AppendStatus(out: Bytes, u: User, online: bool) returns (r: Bytes)
    ensures r == out + Encode([Str(u.uuid), Str(u.name), Mark(if online then 1 else 0)])
  {
    var status: byte := if online then 1 else 0;
    r := out + u.uuid;
    r := r + u.name;
    r := r + [status];
    Append3(out, Str(u.uuid), Str(u.name), Mark(status));
  }

  /** The shape teams and channels share. */
  method AppendPlace(out: Bytes, uuid: Uuid, name: Name, description: Desc) returns (r: Bytes)
    ensures r == out + Encode([Str(uuid), Str(name), Str(description)])
  {
    r := out + uuid;
    r := r + name;
    r := r + description;
    Append3(out, Str(uuid), Str(name), Str(description));
  }

  method AppendThread(out: Bytes, k: Thread) returns (r: Bytes)
    ensures r == out + Encode(ThreadRow(k))
  {
    r := out + k.uuid;
    r := r + k.creator;
    var time := SwapOut(k.timestamp);
    r := r + time;
    r := r + k.title;
    r := r + k.body;
    Append5(out, Str(k.uuid), Str(k.creator), At(k.timestamp), Str(k.title), Str(k.body));
  }

  /** The shape replies and private messages share. */
  method AppendPost(out: Bytes, first: Uuid, second: Uuid, timestamp: Image, body: Body) returns (r: Bytes)
    ensures r == out + Encode([Str(first), Str(second), At(timestamp), Str(body)])
  {
    r := out + first;
    r := r + second;
    var time := SwapOut(timestamp);
    r := r + time;
    r := r + body;
    Append4(out, Str(first), Str(second), At(timestamp), Str(body));
  }

  // ---------------------------------------------------------------- the data

  class ServerStore {
    var users: seq<User>
    var sessions: map<int, Bytes>
    var contexts: map<int, Context>
    var teams: seq<Team>
    var letters: seq<Letter>

    ghost function Model(): Data
      reads this
    {
      Data(users, sessions, contexts, teams, letters)
    }

    constructor ()
      ensures Model() == EMPTY_DATA
    {
      users, sessions, contexts, teams, letters := [], map[], map[], [], [];
    }

    method FindUserByName(name: Bytes) returns (i: nat)
      ensures i == FirstOf(UserNames(users), name)
    {
      i := 0;
      while i < |users| && Trim(users[i].name) != name
        invariant i <= |users|
        invariant forall k | 0 <= k < i :: Trim(users[k].name) != name
      {
        i := i + 1;
      }
      FirstOfUnique(UserNames(users), name, i);
    }

    method FindUserByUuid(uuid: Bytes) returns (i: nat)
      ensures i == FirstOf(UserIds(users), uuid)
    {
      i := 0;
      while i < |users| && users[i].uuid != uuid
        invariant i <= |users|
        invariant forall k | 0 <= k < i :: users[k].uuid != uuid
      {
        i := i + 1;
      }
      FirstOfUnique(UserIds(users), uuid, i);
    }

    method FindTeamByUuid(uuid: Bytes) returns (i: nat)
      ensures i == FirstOf(TeamIds(teams), uuid)
    {
      i := 0;
      while i < |teams| && teams[i].uuid != uuid
        invariant i <= |teams|
        invariant forall k | 0 <= k < i :: teams[k].uuid != uuid
      {
        i := i + 1;
      }
      FirstOfUnique(TeamIds(teams), uuid, i);
    }

    static method FindChannelByUuid(team: Team, uuid: Bytes) returns (i: nat)
      ensures i == FirstOf(ChannelIds(team.channels), uuid)
    {
      i := 0;
      while i < |team.channels| && team.channels[i].uuid != uuid
        invariant i <= |team.channels|
        invariant forall k | 0 <= k < i :: team.channels[k].uuid != uuid
      {
        i := i + 1;
      }
      FirstOfUnique(ChannelIds(team.channels), uuid, i);
    }

    static method FindThreadByUuid(channel: Channel, uuid: Bytes) returns (i: nat)
      ensures i == FirstOf(ThreadIds(channel.threads), uuid)
    {
      i := 0;
      while i < |channel.threads| && channel.threads[i].uuid != uuid
        invariant i <= |channel.threads|
        invariant forall k | 0 <= k < i :: channel.threads[k].uuid != uuid
      {
        i := i + 1;
      }
      FirstOfUnique(ThreadIds(channel.threads), uuid, i);
    }

    /** Position of a user among a team's members. */
    static method FindMember(members: seq<Bytes>, uuid: Bytes) returns (i: nat)
      ensures i == FirstOf(members, uuid)
    {
      i := 0;
      while i < |members| && members[i] != uuid
        invariant i <= |members|
        invariant forall k | 0 <= k < i :: members[k] != uuid
      {
        i := i + 1;
      }
      FirstOfUnique(members, uuid, i);
    }

    method IsSessionOpen(uuid: Bytes) returns (online: bool)
      ensures online <==> Online(sessions, uuid)
    {
      var fds := Ascending(sessions.Keys);
      var i := 0;
      while i < |fds|
        invariant i <= |fds|
        invariant forall k | 0 <= k < i :: sessions[fds[k]] != uuid
      {
        assert fds[i] in fds;
        if sessions[fds[i]] == uuid { return true; }
        i := i + 1;
      }
      online := false;
    }

    method LoggedFds() returns (fds: seq<int>)
      ensures fds == SessionFds(sessions)
    {
      var keys := Ascending(sessions.Keys);
      fds := [];
      for i := 0 to |keys|
        invariant fds == keys[..i]
      {
        fds := fds + [keys[i]];
      }
    }

    method TeamMemberFds(team: Team) returns (fds: seq<int>)
      ensures fds == MemberFds(sessions, team.members)
    {
      var keys := Ascending(sessions.Keys);
      fds := [];
      for i := 0 to |keys|
        invariant fds == Kept(sessions, keys[..i], team.members)
      {
        assert keys[i] in keys;
        KeptStep(sessions, keys, i, team.members);
        var at := FindMember(team.members, sessions[keys[i]]);
        if at < |team.members| { fds := fds + [keys[i]]; }
      }
      assert keys[..|keys|] == keys;
      KeptMembers(sessions, team.members);
    }

    /** The descriptors on which a user is logged in. */
    method FdsOfUser(uuid: Bytes) returns (fds: seq<int>)
      ensures fds == UserFds(sessions, uuid)
    {
      var keys := Ascending(sessions.Keys);
      fds := [];
      for i := 0 to |keys|
        invariant fds == Kept(sessions, keys[..i], [uuid])
      {
        assert keys[i] in keys;
        KeptStep(sessions, keys, i, [uuid]);
        if sessions[keys[i]] == uuid { fds := fds + [keys[i]]; }
      }
      assert keys[..|keys|] == keys;
      KeptUser(sessions, uuid);
    }
  }
}
