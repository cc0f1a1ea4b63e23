/** Login names and the ids they stand for. */
module Identity {
  import opened Octets
  import opened Words
  import opened Protocol
  import opened Records
  import opened ServerData
  import opened Handlers
  import opened System
  import opened Invariants
  import opened Soundness
  import opened Reachable
  import opened Commands

  /** trim_padded_name undoes set_fixed_name for names that fit, and keeps 32 bytes of the others. */
  lemma {:induction false} StoredName(name: Bytes)
    requires 0 !in name
    ensures Trim(Fixed(name, 32)) == if |name| <= 32 then name else name[..32]
  {
    TrimFixedName(name, 32);
    if |name| == 32 { assert name[..32] == name; }
  }

  lemma {:induction false} NamesUpdate(users: seq<User>, i: nat, logged: bool)
    requires i < |users|
    ensures UserNames(users[i := users[i].(isLogged := logged)]) == UserNames(users)
  {
  }

  /**
   * A login keeps stored names distinct exactly when its name fits the 32-byte field, or is longer but no
   * stored name equals its first 32 bytes.
   */
  lemma {:induction false} WhenNamesStayDistinct(d: Data, fd: int, text: Bytes, id: Uuid)
    requires NoDuplicates(UserNames(d.users))
    ensures NoDuplicates(UserNames(Login(d, fd, text, id).data.users))
       <==> |Trim(text)| <= 32 || Trim(text)[..32] !in UserNames(d.users)
  {
    var name := Trim(text);
    var (users, i) := Enrol(d.users, name, id);
    NamesUpdate(users, i, true);
    var names, stored := UserNames(d.users), Trim(Fixed(name, 32));
    StoredName(name);
    if i < |d.users| {
      assert |names[i]| <= 32;
    } else {
      assert UserNames(users) == names + [stored];
      DistinctSnoc(names, stored);
    }
  }

  /** A name of more than 32 bytes never matches a stored one: every login under it makes another user. */
  lemma {:induction false} LongNamesNeverMatch(d: Data, fd: int, text: Bytes, id: Uuid)
    requires |Trim(text)| > 32
    ensures |Login(d, fd, text, id).data.users| == |d.users| + 1
    ensures Extract(Login(d, fd, text, id).result.response.payload, 0, 36) == id
  {
    var (users, i) := Enrol(d.users, Trim(text), id);
    assert forall k | 0 <= k < |d.users| :: |UserNames(d.users)[k]| <= 32;
    LoginReply(d, fd, text, id);
  }

  lemma {:induction false} LoginReply(d: Data, fd: int, text: Bytes, id: Uuid)
    ensures var (users, i) := Enrol(d.users, Trim(text), id);
            Extract(Login(d, fd, text, id).result.response.payload, 0, 36) == users[i].uuid
  {
    var (users, i) := Enrol(d.users, Trim(text), id);
    var tail: Row := [Str(users[i].name)];
    assert AccountRow(users[i])[1..] == tail;
    assert Encode(AccountRow(users[i])) == users[i].uuid + Encode(tail);
    assert (users[i].uuid + Encode(tail))[0..36] == users[i].uuid;
  }

  // ---------------------------------------------------------------- who founded a user

  /** The name a user made by this login carries. */
  function Stored(name: Bytes): (r: Bytes)
    ensures |r| <= 32
  {
    if |name| <= 32 then name else name[..32]
  }

  function StoredAll(names: seq<Bytes>): (r: seq<Bytes>)
    ensures |r| == |names| && forall i | 0 <= i < |names| :: r[i] == Stored(names[i])
  {
    seq(|names|, i requires 0 <= i < |names| => Stored(names[i]))
  }

  /** Which login made the user that the i-th login signs in: itself, or the first that stored this name. */
  function Founder(names: seq<Bytes>, i: nat): (k: nat)
    requires i < |names|
    ensures k <= i && Stored(names[k]) == Stored(names[i])
  {
    if |names[i]| > 32 then i else
      var k := FirstOf(StoredAll(names), names[i]);
      assert StoredAll(names)[i] == names[i];
      k
  }

  /** The logins that made a user, in order. */
  function Founders(names: seq<Bytes>): seq<nat> {
    if names == [] then [] else
      var n := |names| - 1;
      Founders(names[..n]) + if Founder(names, n) == n then [n] else []
  }

  lemma {:induction false} FounderFounds(names: seq<Bytes>, i: nat)
    requires i < |names|
    ensures Founder(names, Founder(names, i)) == Founder(names, i)
  {
  }

  /** Later logins change nothing about earlier ones. */
  lemma {:induction false} FounderStays(names: seq<Bytes>, n: nat, i: nat)
    requires i < n <= |names|
    ensures Founder(names[..n], i) == Founder(names, i)
  {
    if |names[i]| <= 32 {
      assert StoredAll(names[..n]) == StoredAll(names)[..n];
      assert StoredAll(names)[..n][i] == names[i];
      FirstOfGrows(StoredAll(names)[..n], StoredAll(names), names[i]);
    }
  }

  lemma {:induction false} FoundersAre(names: seq<Bytes>)
    ensures forall u | 0 <= u < |Founders(names)| ::
              Founders(names)[u] < |names| && Founder(names, Founders(names)[u]) == Founders(names)[u]
    ensures forall u, v | 0 <= u < v < |Founders(names)| :: Founders(names)[u] < Founders(names)[v]
  {
    if names != [] {
      var n := |names| - 1;
      FoundersAre(names[..n]);
      var fs := Founders(names[..n]);
      forall u | 0 <= u < |fs| ensures Founder(names, fs[u]) == fs[u] { FounderStays(names, n, fs[u]); }
    }
  }

  lemma {:induction false} FoundersAt(names: seq<Bytes>, u: nat)
    requires names != [] && u < |Founders(names[..|names| - 1])|
    ensures u < |Founders(names)| && Founders(names)[u] == Founders(names[..|names| - 1])[u]
  {
  }

  lemma {:induction false} FoundersEnd(names: seq<Bytes>) returns (u: nat)
    requires names != [] && Founder(names, |names| - 1) == |names| - 1
    ensures u < |Founders(names)| && Founders(names)[u] == |names| - 1
  {
    u := |Founders(names[..|names| - 1])|;
  }

  lemma {:induction false} FounderListed(names: seq<Bytes>, i: nat) returns (u: nat)
    requires i < |names| && Founder(names, i) == i
    ensures u < |Founders(names)| && Founders(names)[u] == i
  {
    if i < |names| - 1 {
      FounderStays(names, |names| - 1, i);
      u := FounderListed(names[..|names| - 1], i);
      FoundersAt(names, u);
    } else {
      u := FoundersEnd(names);
    }
  }

  lemma {:induction false} FoundersSnoc(names: seq<Bytes>, name: Bytes)
    ensures Founders(names + [name])
         == Founders(names) + if Founder(names + [name], |names|) == |names| then [|names|] else []
  {
    assert (names + [name])[..|names|] == names;
  }

  // ---------------------------------------------------------------- whole runs

  function NamesOf(log: seq<SignIn>): (r: seq<Bytes>)
    ensures |r| == |log| && forall i | 0 <= i < |log| :: r[i] == log[i].name
  {
    seq(|log|, i requires 0 <= i < |log| => log[i].name)
  }

  /** Every user is the one that its founding login made. */
  ghost predicate UsersFounded(users: seq<User>, log: seq<SignIn>) {
    var fs := Founders(NamesOf(log));
    && |users| == |fs|
    && forall u | 0 <= u < |users| ::
         fs[u] < |log| && Trim(users[u].name) == Stored(log[fs[u]].name) && users[u].uuid == log[fs[u]].uuid
  }

  /** Every login is answered with the id that its founder was answered with. */
  ghost predicate IdsFounded(log: seq<SignIn>) {
    forall i | 0 <= i < |log| :: log[i].uuid == log[Founder(NamesOf(log), i)].uuid
  }

  ghost predicate Founded(users: seq<User>, log: seq<SignIn>) { UsersFounded(users, log) && IdsFounded(log) }

  lemma {:induction false} NewcomerUnknown(users: seq<User>, log: seq<SignIn>, name: Bytes)
    requires UsersFounded(users, log) && Founder(NamesOf(log) + [name], |log|) == |log|
    ensures name !in UserNames(users)
  {
    var names, fs := NamesOf(log) + [name], Founders(NamesOf(log));
    forall u | 0 <= u < |users| ensures UserNames(users)[u] != name {
      assert Trim(users[u].name) == Stored(log[fs[u]].name);
      if Trim(users[u].name) == name {
        assert StoredAll(names)[fs[u]] == name;
        assert FirstOf(StoredAll(names), name) <= fs[u];
      }
    }
  }

  /** A returning name: where its founder stands among the founders. */
  lemma {:induction false} FounderSeat(names: seq<Bytes>, name: Bytes) returns (v: nat)
    requires Founder(names + [name], |names|) < |names|
    ensures |name| <= 32 && v < |Founders(names)|
    ensures var k := Founder(names + [name], |names|); Founders(names)[v] == k && Stored(names[k]) == name
  {
    var after := names + [name];
    var k := Founder(after, |names|);
    FounderFounds(after, |names|);
    assert after[..|names|] == names;
    FounderStays(after, |names|, k);
    v := FounderListed(names, k);
  }

  lemma {:induction false} NoneStoredBefore(names: seq<Bytes>, name: Bytes, m: nat)
    requires |name| <= 32 && m < Founder(names + [name], |names|) <= |names|
    ensures Stored(names[m]) != name
  {
    var after := names + [name];
    assert StoredAll(after)[m] == Stored(names[m]);
  }

  lemma {:induction false} ReturnerKnown(users: seq<User>, log: seq<SignIn>, name: Bytes)
    requires UsersFounded(users, log) && Founder(NamesOf(log) + [name], |log|) < |log|
    ensures var u := FirstOf(UserNames(users), name);
            u < |users| && users[u].uuid == log[Founder(NamesOf(log) + [name], |log|)].uuid
  {
    var names := NamesOf(log);
    var fs := Founders(names);
    var v := FounderSeat(names, name);
    assert UserNames(users)[v] == Trim(users[v].name) == Stored(log[fs[v]].name);
    forall u | 0 <= u < v ensures UserNames(users)[u] != name {
      FoundersOrdered(names, u, v);
      NoneStoredBefore(names, name, fs[u]);
      assert Trim(users[u].name) == Stored(log[fs[u]].name);
    }
    FirstOfUnique(UserNames(users), name, v);
  }

  lemma {:induction false} FoundersOrdered(names: seq<Bytes>, u: nat, v: nat)
    requires u < v < |Founders(names)|
    ensures Founders(names)[u] < Founders(names)[v] < |names|
  {
    FoundersAre(names);
  }

  lemma {:induction false} IdsGrow(log: seq<SignIn>, e: SignIn)
    requires IdsFounded(log)
    requires e.uuid == (log + [e])[Founder(NamesOf(log) + [e.name], |log|)].uuid
    ensures IdsFounded(log + [e])
  {
    var after := log + [e];
    var names := NamesOf(after);
    assert names == NamesOf(log) + [e.name];
    assert names[..|log|] == NamesOf(log);
    forall i | 0 <= i < |after| ensures after[i].uuid == after[Founder(names, i)].uuid {
      if i < |log| { FounderStays(names, |log|, i); }
    }
  }

  lemma {:induction false} UsersStay(users: seq<User>, log: seq<SignIn>, e: SignIn)
    requires UsersFounded(users, log) && Founder(NamesOf(log) + [e.name], |log|) < |log|
    ensures UsersFounded(users, log + [e])
  {
    assert NamesOf(log + [e]) == NamesOf(log) + [e.name];
    FoundersSnoc(NamesOf(log), e.name);
  }

  lemma {:induction false} UsersGrow(users: seq<User>, log: seq<SignIn>, e: SignIn, x: User)
    requires UsersFounded(users, log) && Founder(NamesOf(log) + [e.name], |log|) == |log|
    requires Trim(x.name) == Stored(e.name) && x.uuid == e.uuid
    ensures UsersFounded(users + [x], log + [e])
  {
    var fs, gs := Founders(NamesOf(log)), Founders(NamesOf(log + [e]));
    assert NamesOf(log + [e]) == NamesOf(log) + [e.name];
    FoundersSnoc(NamesOf(log), e.name);
    assert gs == fs + [|log|];
    forall u | 0 <= u < |users| + 1
      ensures gs[u] < |log| + 1 && Trim((users + [x])[u].name) == Stored((log + [e])[gs[u]].name)
           && (users + [x])[u].uuid == (log + [e])[gs[u]].uuid
    {
      if u < |users| { assert fs[u] < |log|; }
    }
  }

  lemma {:induction false} LoginFounds(users: seq<User>, log: seq<SignIn>, name: Bytes, id: Uuid, e: SignIn)
    requires Founded(users, log) && 0 !in name && e.name == name
    requires e.uuid == Enrol(users, name, id).0[Enrol(users, name, id).1].uuid
    ensures Founded(Enrol(users, name, id).0, log + [e])
  {
    if Founder(NamesOf(log) + [name], |log|) == |log| {
      NewcomerUnknown(users, log, name);
      StoredName(name);
      UsersGrow(users, log, e, User(id, Fixed(name, 32), true));
    } else {
      ReturnerKnown(users, log, name);
      UsersStay(users, log, e);
    }
    IdsGrow(log, e);
  }

  /** The same users under the same names and ids. */
  ghost predicate SameNames(a: seq<User>, b: seq<User>) {
    |a| == |b| && forall i | 0 <= i < |a| :: b[i].name == a[i].name && b[i].uuid == a[i].uuid
  }

  lemma {:induction false} FoundedStays(a: seq<User>, b: seq<User>, log: seq<SignIn>)
    requires Founded(a, log) && SameNames(a, b)
    ensures Founded(b, log)
  {
  }

  lemma {:induction false} LogoutKeepsNames(d: Data, fd: int)
    ensures SameNames(d.users, Logout(d, fd).data.users)
  {
  }

  lemma {:induction false} OthersKeepNames(d: Data, fd: int, q: Packet, id: Uuid, now: Image)
    requires q.code != CMD_LOGIN
    ensures SameNames(d.users, Handle(d, fd, q, id, now).data.users)
  {
    if fd in d.sessions && q.code == CMD_LOGOUT {
      Routes(d, fd, q, id, now);
      LogoutKeepsNames(d, fd);
    } else {
      OthersKeepUsers(d, fd, q, id, now);
    }
  }

  ghost predicate FoundedIn(s: Sys) { Founded(s.data.users, s.log.signIns) }

  lemma {:induction false} DispatchFounds(w: World, s: Sys, fd: int, q: Packet)
    requires fd in s.clients && FoundedIn(s)
    ensures FoundedIn(Dispatch(w, s, fd, q))
  {
    var d, id, now := s.data, w.id(s.ticks), w.clock(s.ticks);
    var after := Handle(d, fd, q, id, now).data.users;
    if q.code == CMD_LOGIN {
      Routes(d, fd, q, id, now);
      LoginReply(d, fd, q.payload, id);
      var (users, i) := Enrol(d.users, Trim(q.payload), id);
      var e := SignIn(Trim(q.payload), users[i].uuid, HeldBy(d.sessions, fd));
      LoginFounds(d.users, s.log.signIns, Trim(q.payload), id, e);
      FoundedStays(users, after, s.log.signIns + [e]);
    } else {
      OthersKeepNames(d, fd, q, id, now);
      FoundedStays(d.users, after, s.log.signIns);
      assert s.log.signIns + [] == s.log.signIns;
    }
  }

  lemma {:induction false} MovedFounds(w: World, s: Sys, m: Move)
    requires FoundedIn(s)
    ensures FoundedIn(Moved(w, s, m))
  {
    match m
    case Serves(fd) =>
      if fd in s.clients && FrameReady(s.clients[fd].recv) { DispatchFounds(w, Pop(s, fd), fd, FirstFrame(s, fd)); }
    case Drops(fd) =>
      if fd in s.clients && fd in s.data.sessions {
        LogoutKeepsNames(s.data, fd);
        FoundedStays(s.data.users, Logout(s.data, fd).data.users, s.log.signIns);
      }
    case _ =>
  }

  lemma {:induction false} MovesFound(w: World, ms: seq<Move>)
    ensures FoundedIn(Moves(w, ms))
  {
    if ms != [] {
      MovesFound(w, ms[..|ms| - 1]);
      MovedFounds(w, Moves(w, ms[..|ms| - 1]), ms[|ms| - 1]);
    }
  }

  lemma {:induction false} FoundedUser(users: seq<User>, log: seq<SignIn>, i: nat) returns (u: nat)
    requires Founded(users, log) && i < |log|
    ensures u < |users| && u < |Founders(NamesOf(log))|
    ensures Founders(NamesOf(log))[u] == Founder(NamesOf(log), i) && users[u].uuid == log[i].uuid
  {
    FounderFounds(NamesOf(log), i);
    u := FounderListed(NamesOf(log), Founder(NamesOf(log), i));
  }

  lemma {:induction false} SameFounder(users: seq<User>, log: seq<SignIn>, i: nat, j: nat)
    requires Founded(users, log) && NoDuplicates(UserIds(users)) && i < |log| && j < |log|
    ensures log[i].uuid == log[j].uuid <==> Founder(NamesOf(log), i) == Founder(NamesOf(log), j)
  {
    var u := FoundedUser(users, log, i);
    var v := FoundedUser(users, log, j);
    if u != v {
      FoundersDiffer(NamesOf(log), u, v);
      assert UserIds(users)[u] != UserIds(users)[v];
    }
  }

  lemma {:induction false} FoundersDiffer(names: seq<Bytes>, u: nat, v: nat)
    requires u < |Founders(names)| && v < |Founders(names)| && u != v
    ensures Founders(names)[u] != Founders(names)[v]
  {
    FoundersAre(names);
  }

  /** On every run, two logins are answered with the same id exactly if they have the same founder. */
  lemma {:induction false} IdentityLaw(w: World, steps: seq<Step>, i: nat, j: nat)
    requires WorldOk(w, Run(w, steps).ticks)
    requires i < |Run(w, steps).log.signIns| && j < |Run(w, steps).log.signIns|
    ensures var log := Run(w, steps).log.signIns;
            log[i].uuid == log[j].uuid <==> Founder(NamesOf(log), i) == Founder(NamesOf(log), j)
  {
    var ms := RunIsMoves(w, steps);
    MovesFound(w, ms);
    MovesKeep(w, ms);
    SameFounder(Run(w, steps).data.users, Run(w, steps).log.signIns, i, j);
  }

  // ---------------------------------------------------------------- when names and ids correspond

  /**
   * No name of more than 32 bytes comes twice, and none is followed by its own first 32 bytes unless they
   * had come before it.
   */
  ghost predicate Tellable(names: seq<Bytes>) {
    forall i, j | 0 <= i < j < |names| && |names[i]| > 32 ::
      names[j] != names[i] && (names[j] == names[i][..32] ==> names[j] in names[..i])
  }

  ghost predicate OneToOne(names: seq<Bytes>) {
    forall i, j | 0 <= i < |names| && 0 <= j < |names| ::
      names[i] == names[j] <==> Founder(names, i) == Founder(names, j)
  }

  lemma {:induction false} TellablePair(names: seq<Bytes>, i: nat, j: nat)
    requires Tellable(names) && i < |names| && j < |names|
    ensures names[i] == names[j] <==> Founder(names, i) == Founder(names, j)
  {
    if |names[i]| > 32 && |names[j]| <= 32 { LongAndShort(names, i, j); }
    if |names[j]| > 32 && |names[i]| <= 32 { LongAndShort(names, j, i); }
  }

  lemma {:induction false} LongAndShort(names: seq<Bytes>, i: nat, j: nat)
    requires Tellable(names) && i < |names| && j < |names| && |names[i]| > 32 && |names[j]| <= 32
    ensures Founder(names, j) != i
  {
    if i < j && names[j] == names[i][..32] {
      var k :| 0 <= k < i && names[..i][k] == names[j];
      assert StoredAll(names)[k] == names[j];
    }
  }

  lemma {:induction false} CutComesLater(names: seq<Bytes>, i: nat, j: nat)
    requires i < |names| && j < |names| && |names[i]| > 32 && names[j] == names[i][..32]
    ensures Founder(names, j) <= i && Stored(names[Founder(names, j)]) == names[j]
  {
    assert StoredAll(names)[i] == names[j];
  }

  lemma {:induction false} OneToOnePair(names: seq<Bytes>, i: nat, j: nat)
    requires OneToOne(names) && i < j < |names| && |names[i]| > 32
    ensures names[j] != names[i] && (names[j] == names[i][..32] ==> names[j] in names[..i])
  {
    if names[j] == names[i][..32] {
      var f := Founder(names, j);
      CutComesLater(names, i, j);
      FounderFounds(names, j);
      assert names[f] == names[j];
      assert names[..i][f] == names[j];
    }
  }

  lemma {:induction false} WhenTellable(names: seq<Bytes>)
    ensures OneToOne(names) <==> Tellable(names)
  {
    if Tellable(names) {
      forall i, j | 0 <= i < |names| && 0 <= j < |names|
        ensures names[i] == names[j] <==> Founder(names, i) == Founder(names, j)
      {
        TellablePair(names, i, j);
      }
    }
    if OneToOne(names) {
      forall i, j | 0 <= i < j < |names| && |names[i]| > 32
        ensures names[j] != names[i] && (names[j] == names[i][..32] ==> names[j] in names[..i])
      {
        OneToOnePair(names, i, j);
      }
    }
  }

  /** Two logins were answered with the same id exactly when they used the same name. */
  ghost predicate NamesAreIds(log: seq<SignIn>) {
    forall i, j | 0 <= i < |log| && 0 <= j < |log| :: log[i].name == log[j].name <==> log[i].uuid == log[j].uuid
  }

  /**
   * On every run: names and ids correspond one to one if and only if the sequence of trimmed login names is
   * tellable, which a caller can see from the names alone.
   */
  lemma {:induction false} WhenOneNameOneId(w: World, steps: seq<Step>)
    requires WorldOk(w, Run(w, steps).ticks)
    ensures NamesAreIds(Run(w, steps).log.signIns) <==> Tellable(NamesOf(Run(w, steps).log.signIns))
  {
    var log := Run(w, steps).log.signIns;
    var names := NamesOf(log);
    forall i, j | 0 <= i < |log| && 0 <= j < |log|
      ensures log[i].uuid == log[j].uuid <==> Founder(names, i) == Founder(names, j)
    {
      IdentityLaw(w, steps, i, j);
    }
    WhenTellable(names);
    assert NamesAreIds(log) <==> OneToOne(names);
  }

  ghost predicate AllFit(signIns: seq<SignIn>) {
    forall i | 0 <= i < |signIns| :: |signIns[i].name| <= 32
  }

  lemma {:induction false} FittingDistinct(users: seq<User>, log: seq<SignIn>)
    requires UsersFounded(users, log) && AllFit(log)
    ensures NoDuplicates(UserNames(users))
  {
    var names := NamesOf(log);
    var fs := Founders(names);
    FoundersAre(names);
    forall u, v | 0 <= u < v < |users| ensures UserNames(users)[u] != UserNames(users)[v] {
      assert Founder(names, fs[u]) == fs[u] && Founder(names, fs[v]) == fs[v];
      assert names[fs[u]] == UserNames(users)[u] && names[fs[v]] == UserNames(users)[v];
    }
  }

  /**
   * On every run whose login names fit the 32-byte field: stored names are pairwise distinct, and two logins
   * were answered with the same id exactly when they used the same name.
   */
  lemma {:induction false} OneNameOneId(w: World, steps: seq<Step>, i: nat, j: nat)
    requires WorldOk(w, Run(w, steps).ticks) && AllFit(Run(w, steps).log.signIns)
    requires i < |Run(w, steps).log.signIns| && j < |Run(w, steps).log.signIns|
    ensures NoDuplicates(UserNames(Run(w, steps).data.users))
    ensures var log := Run(w, steps).log.signIns; log[i].name == log[j].name <==> log[i].uuid == log[j].uuid
  {
    var ms := RunIsMoves(w, steps);
    MovesFound(w, ms);
    FittingDistinct(Run(w, steps).data.users, Run(w, steps).log.signIns);
    WhenOneNameOneId(w, steps);
  }

  /** A login that the client builds always fits, so between such clients the law has no exception. */
  lemma {:induction false} ClientNamesFit(m: Mirror, c: Command)
    ensures forall p | p in Perform(m, c).packets && p.code == CMD_LOGIN ::
              |c.args| == 1 && Trim(p.payload) == Cut(c.args[0], 32) && |Trim(p.payload)| <= 32
  {
    if |c.args| == 1 { TrimFixed(c.args[0], 32); }
    PerformsLogin(m, c);
  }

  lemma {:induction false} PerformsLogin(m: Mirror, c: Command)
    ensures forall p | p in Perform(m, c).packets && p.code == CMD_LOGIN ::
              |c.args| == 1 && p.payload == Fixed(c.args[0], 32)
  {
  }
}
