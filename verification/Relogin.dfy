/** Runs on which presence events and sessions, or names and ids, part. */
module Relogin {
  import opened Octets
  import opened Words
  import opened Protocol
  import opened Records
  import opened ServerData
  import opened Handlers
  import opened System
  import opened Invariants
  import opened Soundness
  import opened Framing
  import opened Reads
  import opened Presence
  import opened Identity

  /** One connection that sends two logins in one chunk. */
  function TwoLoginSteps(first: Bytes, second: Bytes): seq<Step> {
    [Accept(5), Read(5, Messages([Packet(CMD_LOGIN, first), Packet(CMD_LOGIN, second)]))]
  }

  function TwoLogins(w: World, first: Bytes, second: Bytes): Sys { Run(w, TwoLoginSteps(first, second)) }

  lemma {:induction false} DispatchLogin(w: World, s: Sys, fd: int, text: Bytes)
    requires fd in s.clients
    ensures var (t, o) := (Dispatch(w, s, fd, Packet(CMD_LOGIN, text)), Login(s.data, fd, text, w.id(s.ticks)));
            && t.data == o.data && t.ticks == s.ticks + 1
            && t.log.dropped == s.log.dropped + Abandoned(s.data.sessions, o.data.sessions, fd)
            && t.log.signIns
                 == s.log.signIns
                  + [SignIn(Trim(text), Extract(o.result.response.payload, 0, 36), HeldBy(s.data.sessions, fd))]
  {
    Routes(s.data, fd, Packet(CMD_LOGIN, text), w.id(s.ticks), w.clock(s.ticks));
  }

  lemma {:induction false} ParsesTwo(first: Packet, second: Packet)
    requires |first.payload| <= MAX_PAYLOAD && |second.payload| <= MAX_PAYLOAD
    ensures Parse(Messages([first, second])) == Parsed([first, second], [], false)
  {
    var ps := [first, second];
    ParseMessages(ps, []);
    assert Messages(ps) + [] == Messages(ps);
    assert ps + [] == ps;
  }

  lemma {:induction false} ServesTwo(w: World, s: Sys, fd: int, a: Packet, b: Packet)
    requires fd in s.clients
    ensures ServeAll(w, s, fd, [a, b]) == Dispatch(w, Dispatch(w, s, fd, a), fd, b)
  {
    assert [a, b][1..] == [b] && [b][1..] == [];
    assert ServeAll(w, Dispatch(w, s, fd, a), fd, [b])
        == ServeAll(w, Dispatch(w, Dispatch(w, s, fd, a), fd, b), fd, []);
  }

  lemma {:induction false} RunsTwo(w: World, a: Step, b: Step)
    ensures Run(w, [a, b]) == Next(w, Next(w, START, a), b)
  {
    assert [a, b][..1] == [a] && [a][..0] == [];
    assert Run(w, [a]) == Next(w, Run(w, []), a);
  }

  lemma {:induction false} TwoLoginsDispatch(w: World, first: Bytes, second: Bytes) returns (t: Sys)
    requires |first| <= MAX_PAYLOAD && |second| <= MAX_PAYLOAD
    ensures 5 in t.clients && t.data == EMPTY_DATA && t.ticks == 0 && t.log == START.log
    ensures TwoLogins(w, first, second)
         == Dispatch(w, Dispatch(w, t, 5, Packet(CMD_LOGIN, first)), 5, Packet(CMD_LOGIN, second))
  {
    var a, b := Packet(CMD_LOGIN, first), Packet(CMD_LOGIN, second);
    var chunk := Messages([a, b]);
    RunsTwo(w, Accept(5), Read(5, chunk));
    var s := Receive(Open(START, 5), 5, chunk);
    assert s.clients[5].recv == chunk;
    ProcessServesParse(w, s, 5);
    ParsesTwo(a, b);
    t := WithRecv(s, 5, []);
    ServesTwo(w, t, 5, a, b);
  }

  lemma {:induction false} TwoLoginsServe(w: World, first: Bytes, second: Bytes)
    requires |first| <= MAX_PAYLOAD && |second| <= MAX_PAYLOAD
    ensures var one := Login(EMPTY_DATA, 5, first, w.id(0));
            var two := Login(one.data, 5, second, w.id(1));
            var s := TwoLogins(w, first, second);
            && s.data == two.data && s.ticks == 2
            && s.log.dropped == Abandoned(one.data.sessions, two.data.sessions, 5)
            && s.log.signIns == [SignIn(Trim(first), Extract(one.result.response.payload, 0, 36), None),
                                 SignIn(Trim(second), Extract(two.result.response.payload, 0, 36),
                                        HeldBy(one.data.sessions, 5))]
  {
    var t := TwoLoginsDispatch(w, first, second);
    DispatchLogin(w, t, 5, first);
    DispatchLogin(w, Dispatch(w, t, 5, Packet(CMD_LOGIN, first)), 5, second);
  }

  /** A login under a name that no stored name matches. */
  lemma {:induction false} NewUser(d: Data, fd: int, text: Bytes, id: Uuid)
    requires 0 !in id && Trim(text) !in UserNames(d.users)
    ensures var o := Login(d, fd, text, id);
            && o.data.users == d.users + [User(id, Fixed(Trim(text), 32), true)]
            && o.data.sessions == d.sessions[fd := id]
            && Extract(o.result.response.payload, 0, 36) == id
  {
    TrimNulFree(id);
    LoginReply(d, fd, text, id);
  }

  /** The first login on an empty server. */
  lemma {:induction false} FirstUser(text: Bytes, id: Uuid)
    requires 0 !in id
    ensures var o := Login(EMPTY_DATA, 5, text, id);
            && o.data.users == [User(id, Fixed(Trim(text), 32), true)] && o.data.sessions == map[5 := id]
            && Extract(o.result.response.payload, 0, 36) == id
  {
    NewUser(EMPTY_DATA, 5, text, id);
  }

  lemma {:induction false} OneName(users: seq<User>, u: User)
    requires users == [u]
    ensures UserNames(users) == [Trim(u.name)]
  {
  }

  /** A login of somebody else on the descriptor of the only user. */
  lemma {:induction false} SecondUser(d: Data, u: User, x: Bytes, text: Bytes, id: Uuid)
    requires d.users == [u] && d.sessions == map[5 := x] && Trim(u.name) != Trim(text) && 0 !in id
    ensures var o := Login(d, 5, text, id);
            && o.data.users == [u, User(id, Fixed(Trim(text), 32), true)] && o.data.sessions == map[5 := id]
            && Extract(o.result.response.payload, 0, 36) == id
  {
    OneName(d.users, u);
    NewUser(d, 5, text, id);
  }

  /** The users and sessions that two logins under names that do not match leave behind. */
  lemma {:induction false} TwoUsers(w: World, first: Bytes, second: Bytes)
    requires WorldOk(w, 2) && Trim(Fixed(Trim(first), 32)) != Trim(second)
    ensures var one := Login(EMPTY_DATA, 5, first, w.id(0));
            var two := Login(one.data, 5, second, w.id(1));
            && one.data.sessions == map[5 := w.id(0)] && two.data.sessions == map[5 := w.id(1)]
            && two.data.users == [User(w.id(0), Fixed(Trim(first), 32), true),
                                  User(w.id(1), Fixed(Trim(second), 32), true)]
            && Extract(one.result.response.payload, 0, 36) == w.id(0)
            && Extract(two.result.response.payload, 0, 36) == w.id(1)
  {
    var a, b := w.id(0), w.id(1);
    FirstUser(first, a);
    SecondUser(Login(EMPTY_DATA, 5, first, a).data, User(a, Fixed(Trim(first), 32), true), a, second, b);
  }

  lemma {:induction false} OneOverwritten(fd: int, x: Bytes, y: Bytes)
    requires x != y
    ensures Abandoned(map[fd := x], map[fd := y], fd) == [x]
    ensures !Online(map[fd := y], x)
    ensures Times([x], x) == 1
  {
    assert map[fd := x][fd] == x && map[fd := y][fd] == y;
    assert [x][..0] == [];
  }

  lemma {:induction false} NamesDiffer()
    ensures Trim(Fixed(Trim(A), 32)) != Trim(B)
  {
    TrimNulFree(A);
    TrimNulFree(B);
    TrimFixedName(A, 32);
  }

  const A: Bytes := [97]
  const B: Bytes := [98]

  /**
   * Logging in as "a" and then as "b" on one descriptor: "a" was announced as logged in, is never announced
   * as logged out, has no session, and stays marked as logged in.
   */
  lemma {:induction false} PresenceFails(w: World)
    requires WorldOk(w, 2)
    ensures var (s, a) := (TwoLogins(w, A, B), w.id(0));
            && Balance(s.log, a) == 1 && !Online(s.data.sessions, a)
            && |s.data.users| == 2 && s.data.users[0].uuid == a && s.data.users[0].isLogged
  {
    NamesDiffer();
    TwoUsers(w, A, B);
    TwoLoginsServe(w, A, B);
    assert w.id(0) != w.id(1);
    OneOverwritten(5, w.id(0), w.id(1));
    PresenceLaw(w, TwoLoginSteps(A, B), w.id(0));
  }

  const LONG: Bytes := seq(33, _ => 97)

  /** Two logins under one name of 33 bytes: two users, with the same stored name and different ids. */
  lemma {:induction false} IdentityFails(w: World)
    requires WorldOk(w, 2)
    ensures var s := TwoLogins(w, LONG, LONG);
            && |s.log.signIns| == 2 && s.log.signIns[0].name == s.log.signIns[1].name
            && s.log.signIns[0].uuid != s.log.signIns[1].uuid
            && |s.data.users| == 2 && s.data.users[0].name == s.data.users[1].name
  {
    TrimNulFree(LONG);
    assert |Trim(Fixed(Trim(LONG), 32))| <= 32;
    TwoUsers(w, LONG, LONG);
    TwoLoginsServe(w, LONG, LONG);
    assert w.id(0) != w.id(1);
  }

  const CUT_LONG: Bytes := seq(32, _ => 97)

  /** A login under that name and one under its first 32 bytes: two names, one id. */
  lemma {:induction false} TwoNamesOneId(w: World)
    requires WorldOk(w, 2)
    ensures var s := TwoLogins(w, LONG, CUT_LONG);
            && |s.log.signIns| == 2 && s.log.signIns[0].name != s.log.signIns[1].name
            && s.log.signIns[0].uuid == s.log.signIns[1].uuid
  {
    TrimNulFree(LONG);
    TrimNulFree(CUT_LONG);
    TwoLoginsServe(w, LONG, CUT_LONG);
    var log := TwoLogins(w, LONG, CUT_LONG).log.signIns;
    assert NamesOf(log) == [LONG, CUT_LONG];
    CutFounder();
    IdentityLaw(w, TwoLoginSteps(LONG, CUT_LONG), 0, 1);
  }

  lemma {:induction false} CutFounder()
    ensures Founder([LONG, CUT_LONG], 0) == Founder([LONG, CUT_LONG], 1)
  {
    assert LONG[..32] == CUT_LONG;
    assert StoredAll([LONG, CUT_LONG])[0] == CUT_LONG;
  }
}
