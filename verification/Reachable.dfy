/** The data invariant over whole runs of the server. */
module Reachable {
  import opened Octets
  import opened Words
  import opened Protocol
  import opened ServerData
  import opened Handlers
  import opened System
  import opened Invariants
  import opened Soundness

  /** id is among the first n that the supply handed out. */
  ghost predicate Supplied(w: World, n: nat, id: Bytes) {
    exists k: nat :: k < n && id == w.id(k)
  }

  /** Every user id came out of the id supply. */
  ghost predicate Issued(w: World, s: Sys) {
    forall x | x in UserIds(s.data.users) :: Supplied(w, s.ticks, x)
  }

  ghost predicate SysOk(w: World, s: Sys) {
    DataOk(s.data) && Issued(w, s) && s.data.sessions.Keys <= s.clients.Keys
  }

  lemma {:induction false} NextIdIsFresh(w: World, s: Sys)
    requires WorldOk(w, s.ticks + 1) && Issued(w, s)
    ensures w.id(s.ticks) !in UserIds(s.data.users)
    ensures 0 !in w.id(s.ticks)
  {
    forall x | x in UserIds(s.data.users) ensures x != w.id(s.ticks) {
      assert Supplied(w, s.ticks, x);
    }
  }

  lemma {:induction false} DispatchKeeps(w: World, s: Sys, fd: int, q: Packet)
    requires WorldOk(w, s.ticks + 1) && SysOk(w, s) && fd in s.clients
    ensures SysOk(w, Dispatch(w, s, fd, q))
  {
    NextIdIsFresh(w, s);
    HandleEffect(s.data, fd, q, w.id(s.ticks), w.clock(s.ticks));
    var e := Handle(s.data, fd, q, w.id(s.ticks), w.clock(s.ticks)).data;
    forall x | x in UserIds(e.users) ensures Supplied(w, s.ticks + 1, x) {
      if x in UserIds(s.data.users) {
        assert Supplied(w, s.ticks, x);
      } else {
        assert x == w.id(s.ticks);
      }
    }
    forall f | f in e.sessions ensures f in s.clients {
      if f != fd { assert f in e.sessions - {fd}; }
    }
  }

  lemma {:induction false} DisconnectKeeps(w: World, s: Sys, fd: int)
    requires SysOk(w, s) && fd in s.clients
    ensures SysOk(w, Disconnect(s, fd))
    ensures fd !in Disconnect(s, fd).data.sessions && fd !in Disconnect(s, fd).clients
  {
    if fd in s.data.sessions {
      LogoutKeeps(s.data, fd);
      var i := FirstOf(UserIds(s.data.users), s.data.sessions[fd]);
      UserIdsUpdate(s.data.users, i, Online(s.data.sessions - {fd}, s.data.sessions[fd]));
    }
  }

  lemma {:induction false} MovedKeeps(w: World, s: Sys, m: Move)
    requires WorldOk(w, Moved(w, s, m).ticks) && SysOk(w, s)
    ensures SysOk(w, Moved(w, s, m))
  {
    match m
    case Opens(fd) =>
    case Receives(fd, chunk) =>
    case Serves(fd) =>
      if fd in s.clients && FrameReady(s.clients[fd].recv) {
        DispatchKeeps(w, Pop(s, fd), fd, FirstFrame(s, fd));
      }
    case Drops(fd) => if fd in s.clients { DisconnectKeeps(w, s, fd); }
    case Flushes(fd, n) =>
  }

  lemma {:induction false} MovesKeep(w: World, ms: seq<Move>)
    requires WorldOk(w, Moves(w, ms).ticks)
    ensures SysOk(w, Moves(w, ms))
  {
    if ms != [] {
      MovesKeep(w, ms[..|ms| - 1]);
      MovedKeeps(w, Moves(w, ms[..|ms| - 1]), ms[|ms| - 1]);
    }
  }

  /**
   * In every reachable state: descriptors with a context are those with a session and all of them are
   * connected; sessions and member lists name existing users, each at most once per list; user ids are
   * distinct; every stored context resolves; a user with a session is marked as logged in.
   */
  lemma {:induction false} RunKeeps(w: World, steps: seq<Step>)
    requires WorldOk(w, Run(w, steps).ticks)
    ensures SysOk(w, Run(w, steps))
  {
    var ms := RunIsMoves(w, steps);
    MovesKeep(w, ms);
  }

  /** A new connection starts without session or context, even on a reused descriptor number. */
  lemma {:induction false} FreshDescriptor(w: World, steps: seq<Step>, fd: int)
    requires WorldOk(w, Run(w, steps).ticks) && fd !in Run(w, steps).clients
    ensures var s := Run(w, steps + [Accept(fd)]);
            fd in s.clients && s.clients[fd] == NEW_CONN && fd !in s.data.sessions && fd !in s.data.contexts
  {
    RunKeeps(w, steps);
    assert (steps + [Accept(fd)])[..|steps|] == steps;
  }
}
