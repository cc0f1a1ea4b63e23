/** The client's own record of /use against the context the server keeps for it. */
module Simulation {
  import opened Octets
  import opened Words
  import opened Protocol
  import opened ServerData
  import opened Handlers
  import opened System
  import opened Invariants
  import opened Soundness
  import opened Reachable
  import opened Framing
  import opened Connections
  import opened Commands

  /** The context a mirror stands for: the same level, the same ids in fields of 36 bytes. */
  function Wire(m: Mirror): Context
    requires m.level <= USE_THREAD
  {
    Context(m.level, Fixed(m.team, 36), Fixed(m.channel, 36), Fixed(m.thread, 36))
  }

  /** The context that the last CMD_USE among some requests asks for. */
  function LastUse(requests: seq<Packet>): Option<Context> {
    if requests == [] then Some(NO_CONTEXT) else
      var q := requests[|requests| - 1];
      if q.code == CMD_USE then Requested(q.payload) else LastUse(requests[..|requests| - 1])
  }

  lemma {:induction false} BlankId()
    ensures Fixed([], 36) == NO_UUID
  {
  }

  lemma {:induction false} ThreeIds(level: byte, x: Uuid, y: Uuid, z: Uuid)
    ensures ([level] + x)[1..37] == x
    ensures ([level] + x + y)[1..37] == x && ([level] + x + y)[37..73] == y
    ensures ([level] + x + y + z)[1..37] == x && ([level] + x + y + z)[37..73] == y
    ensures ([level] + x + y + z)[73..109] == z
  {
  }

  lemma {:induction false} UseRequests(m: Mirror, args: seq<Bytes>)
    requires |args| <= 3
    ensures var after := UseCommand(m, args);
            && after.mirror.level == |args| && |after.packets| == 1 && after.packets[0].code == CMD_USE
            && Requested(after.packets[0].payload) == Some(Wire(after.mirror))
  {
    BlankId();
    ThreeIds(|args|, Fixed(if |args| > 0 then args[0] else [], 36), Fixed(if |args| > 1 then args[1] else [], 36),
             Fixed(if |args| > 2 then args[2] else [], 36));
  }

  /** A command either is a /use that goes out, or leaves the mirror alone and sends no CMD_USE. */
  lemma {:induction false} PerformMirrors(m: Mirror, c: Command)
    requires m.level <= USE_THREAD
    ensures var after := Perform(m, c);
            || (c.name == Ascii("use") && |c.args| <= 3 && after == UseCommand(m, c.args))
            || (after.mirror == m && forall p | p in after.packets :: p.code != CMD_USE)
  {
    if c.name == Ascii("use") { UseIsUse(m, c); }
  }

  lemma {:induction false} UseIsUse(m: Mirror, c: Command)
    requires c.name == Ascii("use")
    ensures Perform(m, c) == UseCommand(m, c.args)
  {
    assert |Ascii("use")| == 3;
    assert Ascii("use")[1] != Ascii("info")[1];
  }

  /** The mirror is always what the client's own last CMD_USE asked for, answered or not. */
  lemma {:induction false} MirrorIsLastUse(lines: seq<Bytes>)
    ensures Session(lines).mirror.level <= USE_THREAD
    ensures LastUse(Session(lines).packets) == Some(Wire(Session(lines).mirror))
  {
    if lines == [] {
      BlankId();
    } else {
      var n := |lines| - 1;
      var before := Session(lines[..n]);
      MirrorIsLastUse(lines[..n]);
      EnterMirrors(before, lines[n]);
    }
  }

  lemma {:induction false} EnterMirrors(before: Issue, line: Bytes)
    requires before.mirror.level <= USE_THREAD
    requires LastUse(before.packets) == Some(Wire(before.mirror))
    ensures Enter(before.mirror, line).mirror.level <= USE_THREAD
    ensures LastUse(before.packets + Enter(before.mirror, line).packets)
        == Some(Wire(Enter(before.mirror, line).mirror))
  {
    var now := Enter(before.mirror, line);
    var c := ParseLine(line);
    if now.packets == [] {
      assert before.packets + now.packets == before.packets;
    }
    PerformsOne(before.mirror, c);
    PerformMirrors(before.mirror, c);
    if c.name == Ascii("use") && |c.args| <= 3 { UseRequests(before.mirror, c.args); }
    if now.packets != [] {
      var all := before.packets + now.packets;
      assert all[..|all| - 1] == before.packets && all[|all| - 1] == now.packets[0];
    }
  }

  /** Which line issued the k-th request, and how the client stood when it did. */
  lemma {:induction false} IssuedBy(lines: seq<Bytes>, k: nat) returns (j: nat)
    requires k < |Session(lines).packets|
    ensures j < |lines|
    ensures Session(lines[..j]).packets == Session(lines).packets[..k]
    ensures Enter(Session(lines[..j]).mirror, lines[j]).packets == [Session(lines).packets[k]]
  {
    var n := |lines| - 1;
    var before := Session(lines[..n]).packets;
    PerformsOne(Session(lines[..n]).mirror, ParseLine(lines[n]));
    var now := Enter(Session(lines[..n]).mirror, lines[n]).packets;
    assert Session(lines).packets == before + now;
    if k < |before| {
      j := IssuedBy(lines[..n], k);
      assert lines[..n][..j] == lines[..j];
      assert (before + now)[..k] == before[..k];
    } else {
      j := n;
      assert now == [now[0]];
      assert (before + now)[..k] == before;
    }
  }

  // ---------------------------------------------------------------- the server's side

  /** One login, no /use before it, no logout, and every /use so far answered with what it names. */
  ghost predicate Undisturbed(requests: seq<Packet>, replies: seq<Packet>, login: nat) {
    && |requests| == |replies| && login < |requests| && requests[login].code == CMD_LOGIN
    && (forall i | 0 <= i < |requests| && requests[i].code == CMD_LOGIN :: i == login)
    && (forall i | 0 <= i < |requests| :: requests[i].code != CMD_LOGOUT)
    && (forall i | 0 <= i < |requests| && requests[i].code == CMD_USE :: login < i && Entered(replies[i].code))
  }

  lemma {:induction false} NoUse(requests: seq<Packet>)
    requires forall i | 0 <= i < |requests| :: requests[i].code != CMD_USE
    ensures LastUse(requests) == Some(NO_CONTEXT)
  {
    if requests != [] { NoUse(requests[..|requests| - 1]); }
  }

  /** On an undisturbed connection the requests alone tell the context. */
  lemma {:induction false} ReplayIsLastUse(requests: seq<Packet>, replies: seq<Packet>, login: nat)
    requires InStep(requests, replies) && Undisturbed(requests, replies, login)
    ensures Replay(requests, replies) == LastUse(requests)
  {
    var n := |requests| - 1;
    assert Answers(requests[n].code, replies[n].code);
    if n == login {
      NoUse(requests[..n]);
    } else {
      ReplayIsLastUse(requests[..n], replies[..n], login);
    }
  }

  /** A client's stream read in part yields the first requests it issued. */
  lemma {:induction false} ParsedPrefix(ps: seq<Packet>, read: Bytes)
    requires read <= Messages(ps) && forall p | p in ps :: |p.payload| <= MAX_PAYLOAD
    ensures Parse(read).requests <= ps
  {
    var rest := Messages(ps)[|read|..];
    assert read + rest == Messages(ps);
    ParseMore(read, rest);
    ParseMessages(ps, []);
    assert Messages(ps) + [] == Messages(ps);
    assert ps + [] == ps;
  }

  /** A complete frame at the front of a receive buffer is the next request of the stream. */
  lemma {:induction false} NextRequest(ps: seq<Packet>, c: Conn)
    requires BytesOk(c) && FrameReady(c.recv)
    requires c.past.read <= Messages(ps) && forall p | p in ps :: |p.payload| <= MAX_PAYLOAD
    ensures |c.past.requests| < |ps| && c.past.requests == ps[..|c.past.requests|]
    ensures ps[|c.past.requests|] == Packet(HeaderCode(c.recv), c.recv[HEADER_SIZE..FrameSize(c.recv)])
  {
    ParsedPrefix(ps, c.past.read);
    ParseFrame(c.recv);
    var k, all := |c.past.requests|, Parse(c.past.read).requests;
    assert all[..k] == c.past.requests;
    assert all[..k] == ps[..k] && all[k] == ps[k];
  }

  /** A /create carries as many bytes as the client's level asks for. */
  lemma {:induction false} CreateCarries(m: Mirror, c: Command)
    requires m.level <= USE_THREAD
    ensures forall p | p in Perform(m, c).packets && p.code == CMD_CREATE :: |p.payload| == CreateSize(m.level)
  {
  }

  /**
   * In every state that keeps the data invariant, a creation by a logged-in descriptor is called an invalid
   * command exactly when its payload is shorter than the level of the stored context asks for.
   */
  lemma {:induction false} CreateInvalidIff(d: Data, fd: int, q: Packet, id: Uuid, now: Image)
    requires DataOk(d) && fd in d.sessions && q.code == CMD_CREATE
    ensures fd in d.contexts
    ensures Handle(d, fd, q, id, now).result.response.code == ERR_INVALID_COMMAND
       <==> |q.payload| < CreateSize(d.contexts[fd].level)
  {
    assert fd in d.contexts;
    assert Locate(d.teams, d.contexts[fd]).Resolved();
    Routes(d, fd, q, id, now);
    CreateEffect(d, fd, q, id, now);
    var c, user := d.contexts[fd], d.sessions[fd];
    var place := Locate(d.teams, c);
    if CreateSize(c.level) <= |q.payload| && !place.AtRoot? && user in d.teams[place.t].members {
      CreateInShape(d, c, place, q.payload, Fixed(user, 36), id, now);
    }
  }

  /** So a client-built /create is called invalid exactly when the two levels ask for different, larger sizes. */
  lemma {:induction false} LevelsDecide(d: Data, fd: int, m: Mirror, c: Command, id: Uuid, now: Image)
    requires DataOk(d) && fd in d.sessions && m.level <= USE_THREAD
    requires |Perform(m, c).packets| == 1 && Perform(m, c).packets[0].code == CMD_CREATE
    ensures fd in d.contexts
    ensures Handle(d, fd, Perform(m, c).packets[0], id, now).result.response.code == ERR_INVALID_COMMAND
       <==> || (d.contexts[fd].level == USE_CHANNEL && m.level != USE_CHANNEL)
            || (d.contexts[fd].level == USE_THREAD && m.level < USE_CHANNEL)
  {
    CreateInvalidIff(d, fd, Perform(m, c).packets[0], id, now);
    CreateCarries(m, c);
    assert Perform(m, c).packets[0] in Perform(m, c).packets;
    assert Locate(d.teams, d.contexts[fd]).Resolved();
  }

  /**
   * The simulation. On a connection that carries what a client issued for its lines, however the bytes were
   * cut, whenever the next request is about to be served and the ones before it left the connection
   * undisturbed: that request is the one some line issued, the stored context has the level the client had
   * at that line and its ids cut to 36 bytes, and a /create is not answered with ERR_INVALID_COMMAND.
   */
  lemma {:induction false} ServerFollowsClient(w: World, ms: seq<Move>, fd: int, lines: seq<Bytes>, login: nat)
    returns (j: nat)
    requires WorldOk(w, Moves(w, ms).ticks) && fd in Moves(w, ms).clients && FrameReady(Moves(w, ms).clients[fd].recv)
    requires Moves(w, ms).clients[fd].past.read <= Messages(Session(lines).packets)
    requires var past := Moves(w, ms).clients[fd].past; Undisturbed(past.requests, Replies(past.queued), login)
    ensures j < |lines|
    ensures var (s, m) := (Moves(w, ms), Session(lines[..j]).mirror);
            var q := FirstFrame(s, fd);
            && Enter(m, lines[j]).packets == [q]
            && m.level <= USE_THREAD && ContextOf(s.data, fd) == Some(Wire(m))
            && fd in s.data.sessions
            && (q.code == CMD_CREATE ==>
                  Handle(s.data, fd, q, w.id(s.ticks), w.clock(s.ticks)).result.response.code != ERR_INVALID_COMMAND)
  {
    var s := Moves(w, ms);
    var c, q, ps := s.clients[fd], FirstFrame(s, fd), Session(lines).packets;
    MovesKeep(w, ms);
    MovesKeepConns(w, ms);
    assert ConnOk(s.data, fd, c);
    IssuedSmall(lines);
    NextRequest(ps, c);
    j := IssuedBy(lines, |c.past.requests|);
    MirrorIsLastUse(lines[..j]);
    ReplayIsLastUse(c.past.requests, Replies(c.past.queued), login);
    assert fd in s.data.sessions;
    if q.code == CMD_CREATE {
      CreateInvalidIff(s.data, fd, q, w.id(s.ticks), w.clock(s.ticks));
      assert q in Enter(Session(lines[..j]).mirror, lines[j]).packets;
      CreateCarries(Session(lines[..j]).mirror, ParseLine(lines[j]));
    }
  }

  /**
   * The condition matters: after a refused /use the client builds for a level the server never entered. From a
   * channel, /use with one id that is no team's is refused, and the /create that follows is called invalid.
   */
  lemma {:induction false} RefusedUseMisleads(d: Data, fd: int, m: Mirror, team: Bytes, name: Bytes, text: Bytes,
                                              id: Uuid, now: Image)
    requires DataOk(d) && fd in d.sessions && fd in d.contexts && d.contexts[fd].level == USE_CHANNEL
    requires Fixed(team, 36) !in TeamIds(d.teams)
    ensures var use := UseCommand(m, [team]);
            var o := Handle(d, fd, use.packets[0], id, now);
            && o.result.response.code == ERR_UNKNOWN_TEAM && o.data == d
            && Handle(d, fd, CreateCommand(use.mirror, [name, text]).packets[0], id, now).result.response.code
                == ERR_INVALID_COMMAND
  {
    var use := UseCommand(m, [team]);
    UseRequests(m, [team]);
    Routes(d, fd, use.packets[0], id, now);
    CreateInvalidIff(d, fd, CreateCommand(use.mirror, [name, text]).packets[0], id, now);
  }
}
