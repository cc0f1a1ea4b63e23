/** A run from the server's start that ends in a channel, where a refused /use strands the client. */
module Stranded {
  import opened Octets
  import opened Words
  import opened Protocol
  import opened Records
  import opened ServerData
  import opened Handlers
  import opened System
  import opened Invariants
  import opened Soundness
  import opened Reachable
  import opened Framing
  import opened Commands
  import opened Reads
  import opened Relogin
  import opened Simulation

  lemma {:induction false} DispatchData(w: World, s: Sys, fd: int, q: Packet)
    requires fd in s.clients
    ensures Dispatch(w, s, fd, q).data == Handle(s.data, fd, q, w.id(s.ticks), w.clock(s.ticks)).data
    ensures Dispatch(w, s, fd, q).ticks == s.ticks + 1
  {
  }

  lemma {:induction false} ServesRest(w: World, s: Sys, t: Sys, fd: int, qs: seq<Packet>, r: Sys)
    requires fd in s.clients && qs != [] && t == Dispatch(w, s, fd, qs[0]) && r == ServeAll(w, s, fd, qs)
    ensures fd in t.clients && r == ServeAll(w, t, fd, qs[1..])
  {
  }

  /** The state after the first of some requests. */
  lemma {:induction false} ServesOne(w: World, s: Sys, fd: int, qs: seq<Packet>, r: Sys) returns (t: Sys)
    requires fd in s.clients && qs != [] && r == ServeAll(w, s, fd, qs)
    ensures fd in t.clients && r == ServeAll(w, t, fd, qs[1..])
    ensures t.ticks == s.ticks + 1
    ensures t.data == Handle(s.data, fd, qs[0], w.id(s.ticks), w.clock(s.ticks)).data
  {
    t := Dispatch(w, s, fd, qs[0]);
    DispatchData(w, s, fd, qs[0]);
    ServesRest(w, s, t, fd, qs, r);
  }

  /** One new connection that sends all its requests in one chunk. */
  lemma {:induction false} OneChunk(w: World, qs: seq<Packet>) returns (s: Sys)
    requires forall q | q in qs :: |q.payload| <= MAX_PAYLOAD
    ensures 5 in s.clients && s.data == EMPTY_DATA && s.ticks == 0
    ensures Run(w, [Accept(5), Read(5, Messages(qs))]) == ServeAll(w, s, 5, qs)
  {
    RunsTwo(w, Accept(5), Read(5, Messages(qs)));
    var t := Receive(Open(START, 5), 5, Messages(qs));
    assert t.clients[5].recv == Messages(qs);
    ProcessServesParse(w, t, 5);
    ParseMessages(qs, []);
    assert Messages(qs) + [] == Messages(qs) && qs + [] == qs;
    s := WithRecv(t, 5, []);
  }

  // ---------------------------------------------------------------- the five requests

  /** One team with at most one channel and its creator as only member. */
  ghost predicate Alone(d: Data, user: Uuid, context: Context, teams: seq<Team>) {
    d.sessions == map[5 := user] && d.contexts == map[5 := context] && d.teams == teams
  }

  const PLACE_NAME: Bytes := Zeros(287)

  function NewTeam(id: Uuid, user: Uuid): Team { Team(id, Zeros(32), Zeros(255), [], [user]) }

  function NewChannel(id: Uuid): Channel { Channel(id, Zeros(32), Zeros(255), []) }

  function InTeam(team: Uuid): Context { Context(USE_TEAM, team, NO_UUID, NO_UUID) }

  function InChannel(team: Uuid, channel: Uuid): Context { Context(USE_CHANNEL, team, channel, NO_UUID) }

  lemma {:induction false} NamePlain()
    ensures PLACE_NAME[..32] == Zeros(32) && PLACE_NAME[32..287] == Zeros(255)
  {
  }

  lemma {:induction false} LoggedIn(id: Uuid, now: Image)
    requires 0 !in id
    ensures Alone(Handle(EMPTY_DATA, 5, Packet(CMD_LOGIN, A), id, now).data, id, NO_CONTEXT, [])
  {
    Routes(EMPTY_DATA, 5, Packet(CMD_LOGIN, A), id, now);
    FirstUser(A, id);
  }

  lemma {:induction false} TeamCreated(d: Data, user: Uuid, id: Uuid, now: Image)
    requires Alone(d, user, NO_CONTEXT, [])
    ensures Alone(Handle(d, 5, Packet(CMD_CREATE, PLACE_NAME), id, now).data, user, NO_CONTEXT, [NewTeam(id, user)])
  {
    Routes(d, 5, Packet(CMD_CREATE, PLACE_NAME), id, now);
    NamePlain();
    assert d.teams + [NewTeam(id, user)] == [NewTeam(id, user)];
  }

  lemma {:induction false} FirstTeam(teams: seq<Team>, team: Team)
    requires teams == [team]
    ensures FirstOf(TeamIds(teams), team.uuid) == 0
  {
    assert TeamIds(teams)[0] == team.uuid;
  }

  lemma {:induction false} TeamUsed(d: Data, user: Uuid, team: Uuid, id: Uuid, now: Image)
    requires Alone(d, user, NO_CONTEXT, [NewTeam(team, user)])
    ensures Alone(Handle(d, 5, Packet(CMD_USE, [USE_TEAM] + team), id, now).data, user, InTeam(team),
                  [NewTeam(team, user)])
  {
    var p := [USE_TEAM] + team;
    Routes(d, 5, Packet(CMD_USE, p), id, now);
    assert p[1..37] == team;
    FirstTeam(d.teams, NewTeam(team, user));
    assert Locate(d.teams, InTeam(team)) == AtTeam(0);
  }

  lemma {:induction false} ChannelCreated(d: Data, user: Uuid, team: Uuid, id: Uuid, now: Image)
    requires Alone(d, user, InTeam(team), [NewTeam(team, user)])
    ensures Alone(Handle(d, 5, Packet(CMD_CREATE, PLACE_NAME), id, now).data, user, InTeam(team),
                  [NewTeam(team, user).(channels := [NewChannel(id)])])
  {
    Routes(d, 5, Packet(CMD_CREATE, PLACE_NAME), id, now);
    NamePlain();
    FirstTeam(d.teams, NewTeam(team, user));
    assert Locate(d.teams, InTeam(team)) == AtTeam(0);
    var none: seq<Channel> := [];
    assert none + [NewChannel(id)] == [NewChannel(id)];
    assert AddChannel(d.teams, 0, NewChannel(id)) == [NewTeam(team, user).(channels := [NewChannel(id)])];
  }

  lemma {:induction false} ChannelUsed(d: Data, user: Uuid, team: Uuid, channel: Uuid, id: Uuid, now: Image)
    requires Alone(d, user, InTeam(team), [NewTeam(team, user).(channels := [NewChannel(channel)])])
    ensures Alone(Handle(d, 5, Packet(CMD_USE, [USE_CHANNEL] + team + channel), id, now).data, user,
                  InChannel(team, channel), [NewTeam(team, user).(channels := [NewChannel(channel)])])
  {
    var p := [USE_CHANNEL] + team + channel;
    Routes(d, 5, Packet(CMD_USE, p), id, now);
    assert p[1..37] == team && p[37..73] == channel;
    FirstTeam(d.teams, NewTeam(team, user).(channels := [NewChannel(channel)]));
    assert ChannelIds([NewChannel(channel)])[0] == channel;
    assert Locate(d.teams, InChannel(team, channel)) == AtChannel(0, 0);
  }

  /** Log in, create a team, enter it, create a channel, enter it. */
  function Entering(w: World): seq<Packet> {
    [Packet(CMD_LOGIN, A), Packet(CMD_CREATE, PLACE_NAME), Packet(CMD_USE, [USE_TEAM] + w.id(1)),
     Packet(CMD_CREATE, PLACE_NAME), Packet(CMD_USE, [USE_CHANNEL] + w.id(1) + w.id(3))]
  }

  /** What is left to serve, and how far the ticks are. */
  ghost predicate Left(w: World, t: Sys, tick: nat, qs: seq<Packet>, r: Sys) {
    5 in t.clients && t.ticks == tick && r == ServeAll(w, t, 5, qs)
  }

  lemma {:induction false} AfterLogin(w: World, s: Sys, qs: seq<Packet>, r: Sys) returns (t: Sys)
    requires WorldOk(w, 5) && Left(w, s, 0, qs, r) && s.data == EMPTY_DATA
    requires qs != [] && qs[0] == Packet(CMD_LOGIN, A)
    ensures Left(w, t, 1, qs[1..], r) && Alone(t.data, w.id(0), NO_CONTEXT, [])
  {
    t := ServesOne(w, s, 5, qs, r);
    LoggedIn(w.id(0), w.clock(0));
  }

  lemma {:induction false} AfterTeam(w: World, s: Sys, qs: seq<Packet>, r: Sys, user: Uuid) returns (t: Sys)
    requires Left(w, s, 1, qs, r) && Alone(s.data, user, NO_CONTEXT, [])
    requires qs != [] && qs[0] == Packet(CMD_CREATE, PLACE_NAME)
    ensures Left(w, t, 2, qs[1..], r) && Alone(t.data, user, NO_CONTEXT, [NewTeam(w.id(1), user)])
  {
    t := ServesOne(w, s, 5, qs, r);
    TeamCreated(s.data, user, w.id(1), w.clock(1));
  }

  lemma {:induction false} AfterUseTeam(w: World, s: Sys, qs: seq<Packet>, r: Sys, user: Uuid, team: Uuid)
    returns (t: Sys)
    requires Left(w, s, 2, qs, r) && Alone(s.data, user, NO_CONTEXT, [NewTeam(team, user)])
    requires qs != [] && qs[0] == Packet(CMD_USE, [USE_TEAM] + team)
    ensures Left(w, t, 3, qs[1..], r) && Alone(t.data, user, InTeam(team), [NewTeam(team, user)])
  {
    t := ServesOne(w, s, 5, qs, r);
    TeamUsed(s.data, user, team, w.id(2), w.clock(2));
  }

  lemma {:induction false} AfterChannel(w: World, s: Sys, qs: seq<Packet>, r: Sys, user: Uuid, team: Uuid)
    returns (t: Sys)
    requires Left(w, s, 3, qs, r) && Alone(s.data, user, InTeam(team), [NewTeam(team, user)])
    requires qs != [] && qs[0] == Packet(CMD_CREATE, PLACE_NAME)
    ensures Left(w, t, 4, qs[1..], r)
    ensures Alone(t.data, user, InTeam(team), [NewTeam(team, user).(channels := [NewChannel(w.id(3))])])
  {
    t := ServesOne(w, s, 5, qs, r);
    ChannelCreated(s.data, user, team, w.id(3), w.clock(3));
  }

  lemma {:induction false} AfterUseChannel(w: World, s: Sys, qs: seq<Packet>, r: Sys, user: Uuid, team: Uuid,
                                           channel: Uuid)
    returns (t: Sys)
    requires Left(w, s, 4, qs, r)
    requires Alone(s.data, user, InTeam(team), [NewTeam(team, user).(channels := [NewChannel(channel)])])
    requires qs != [] && qs[0] == Packet(CMD_USE, [USE_CHANNEL] + team + channel)
    ensures Left(w, t, 5, qs[1..], r)
    ensures Alone(t.data, user, InChannel(team, channel), [NewTeam(team, user).(channels := [NewChannel(channel)])])
  {
    t := ServesOne(w, s, 5, qs, r);
    ChannelUsed(s.data, user, team, channel, w.id(4), w.clock(4));
  }

  lemma {:induction false} NothingLeft(w: World, t: Sys, r: Sys)
    requires Left(w, t, 5, [], r)
    ensures r.data == t.data && r.ticks == 5
  {
  }

  lemma {:induction false} RestAfter(qs: seq<Packet>, k: nat)
    requires k < |qs|
    ensures qs[k..] != [] && qs[k..][0] == qs[k] && qs[k..][1..] == qs[k + 1..]
  {
  }

  lemma {:induction false} EnteredTeam(w: World, s: Sys, r: Sys) returns (t: Sys)
    requires WorldOk(w, 5) && Left(w, s, 0, Entering(w), r) && s.data == EMPTY_DATA
    ensures Left(w, t, 3, Entering(w)[3..], r)
    ensures Alone(t.data, w.id(0), InTeam(w.id(1)), [NewTeam(w.id(1), w.id(0))])
  {
    var qs := Entering(w);
    RestAfter(qs, 1);
    RestAfter(qs, 2);
    t := AfterLogin(w, s, qs, r);
    t := AfterTeam(w, t, qs[1..], r, w.id(0));
    t := AfterUseTeam(w, t, qs[2..], r, w.id(0), w.id(1));
  }

  lemma {:induction false} EnteredChannel(w: World, s: Sys, r: Sys)
    requires WorldOk(w, 5) && Left(w, s, 0, Entering(w), r) && s.data == EMPTY_DATA
    ensures r.ticks == 5
    ensures Alone(r.data, w.id(0), InChannel(w.id(1), w.id(3)),
                  [NewTeam(w.id(1), w.id(0)).(channels := [NewChannel(w.id(3))])])
  {
    var qs := Entering(w);
    RestAfter(qs, 3);
    RestAfter(qs, 4);
    var t := EnteredTeam(w, s, r);
    t := AfterChannel(w, t, qs[3..], r, w.id(0), w.id(1));
    t := AfterUseChannel(w, t, qs[4..], r, w.id(0), w.id(1), w.id(3));
    NothingLeft(w, t, r);
  }

  /** The state after that run. */
  function Arrived(w: World): Sys { Run(w, [Accept(5), Read(5, Messages(Entering(w)))]) }

  lemma {:induction false} ArrivedAlone(w: World)
    requires WorldOk(w, 5)
    ensures DataOk(Arrived(w).data)
    ensures Alone(Arrived(w).data, w.id(0), InChannel(w.id(1), w.id(3)),
                  [NewTeam(w.id(1), w.id(0)).(channels := [NewChannel(w.id(3))])])
  {
    var s := OneChunk(w, Entering(w));
    EnteredChannel(w, s, Arrived(w));
    RunKeeps(w, [Accept(5), Read(5, Messages(Entering(w)))]);
  }

  /**
   * In that reachable state /use "" is refused with ERR_UNKNOWN_TEAM and changes nothing, and the /create that the
   * client builds after it is called invalid.
   */
  lemma {:induction false} RefusedUseHappens(w: World, name: Bytes, text: Bytes, id: Uuid, now: Image)
    requires WorldOk(w, 5)
    ensures var (d, use) := (Arrived(w).data, UseCommand(AT_START, [[]]));
            var o := Handle(d, 5, use.packets[0], id, now);
            && o.result.response.code == ERR_UNKNOWN_TEAM && o.data == d
            && Handle(d, 5, CreateCommand(use.mirror, [name, text]).packets[0], id, now).result.response.code
                 == ERR_INVALID_COMMAND
  {
    var d := Arrived(w).data;
    ArrivedAlone(w);
    BlankId();
    assert TeamIds(d.teams) == [w.id(1)];
    assert NO_UUID[0] == 0 && w.id(1)[0] in w.id(1);
    RefusedUseMisleads(d, 5, AT_START, [], name, text, id, now);
  }
}
