/** server_data_t as a value, and its first-match lookups. */
module ServerData {
  import opened Octets
  import opened Words
  import opened Protocol
  import opened Records

  datatype Option<+T> = None | Some(value: T)

  /** Fixed-width character arrays. */
  type Uuid = b: Bytes | |b| == 36 witness Zeros(36)
  type Name = b: Bytes | |b| == 32 witness Zeros(32)
  type Desc = b: Bytes | |b| == 255 witness Zeros(255)
  type Body = b: Bytes | |b| == 512 witness Zeros(512)

  const NO_UUID: Uuid := Zeros(36)

  datatype Reply = Reply(uuid: Uuid, creator: Uuid, body: Body, timestamp: Image)
  datatype Thread = Thread(uuid: Uuid, creator: Uuid, title: Name, body: Body, timestamp: Image, replies: seq<Reply>)
  datatype Channel = Channel(uuid: Uuid, name: Name, description: Desc, threads: seq<Thread>)
  datatype Team = Team(uuid: Uuid, name: Name, description: Desc, channels: seq<Channel>, members: seq<Bytes>)
  datatype Letter = Letter(sender: Uuid, receiver: Uuid, body: Body, timestamp: Image)
  datatype User = User(uuid: Uuid, name: Name, isLogged: bool)
  datatype Context = Context(level: byte, team: Uuid, channel: Uuid, thread: Uuid)

  const NO_CONTEXT := Context(USE_NONE, NO_UUID, NO_UUID, NO_UUID)

  datatype Data = Data(users: seq<User>, sessions: map<int, Bytes>, contexts: map<int, Context>,
                       teams: seq<Team>, letters: seq<Letter>)

  const EMPTY_DATA := Data([], map[], map[], [], [])

  // ---------------------------------------------------------------- lookups

  function UserIds(s: seq<User>): (r: seq<Bytes>)
    ensures |r| == |s| && forall i | 0 <= i < |s| :: r[i] == s[i].uuid
  {
    seq(|s|, i requires 0 <= i < |s| => s[i].uuid)
  }

  /** The names as find_user_by_name compares them. */
  function UserNames(s: seq<User>): (r: seq<Bytes>)
    ensures |r| == |s| && forall i | 0 <= i < |s| :: r[i] == Trim(s[i].name)
  {
    seq(|s|, i requires 0 <= i < |s| => Trim(s[i].name))
  }

  function TeamIds(s: seq<Team>): (r: seq<Bytes>)
    ensures |r| == |s| && forall i | 0 <= i < |s| :: r[i] == s[i].uuid
  {
    seq(|s|, i requires 0 <= i < |s| => s[i].uuid)
  }

  function ChannelIds(s: seq<Channel>): (r: seq<Bytes>)
    ensures |r| == |s| && forall i | 0 <= i < |s| :: r[i] == s[i].uuid
  {
    seq(|s|, i requires 0 <= i < |s| => s[i].uuid)
  }

  function ThreadIds(s: seq<Thread>): (r: seq<Bytes>)
    ensures |r| == |s| && forall i | 0 <= i < |s| :: r[i] == s[i].uuid
  {
    seq(|s|, i requires 0 <= i < |s| => s[i].uuid)
  }

  /** What the stored ids of a context lead to. */
  datatype Place =
    | AtRoot
    | AtTeam(t: nat)
    | AtChannel(t: nat, c: nat)
    | AtThread(t: nat, c: nat, k: nat)
    | NoTeam
    | NoChannel(t: nat)
    | NoThread(t: nat, c: nat)
    | NoLevel
  {
    predicate Resolved() { AtRoot? || AtTeam? || AtChannel? || AtThread? }

    predicate InTeam() { !AtRoot? && !NoTeam? && !NoLevel? }
  }

  /** The chain of first-match lookups behind /use, /create, /list and /info. */
  function Locate(teams: seq<Team>, c: Context): (p: Place)
    ensures p.InTeam() ==> p.t < |teams| && teams[p.t].uuid == c.team
    ensures p.AtChannel? || p.AtThread? || p.NoThread? ==>
              p.c < |teams[p.t].channels| && teams[p.t].channels[p.c].uuid == c.channel
    ensures p.AtThread? ==>
              p.k < |teams[p.t].channels[p.c].threads| && teams[p.t].channels[p.c].threads[p.k].uuid == c.thread
  {
    if c.level == USE_NONE then AtRoot
    else if c.level > USE_THREAD then NoLevel
    else
      var t := FirstOf(TeamIds(teams), c.team);
      if t == |teams| then NoTeam else LocateIn(teams[t].channels, c, t)
  }

  function LocateIn(channels: seq<Channel>, c: Context, t: nat): (p: Place)
    ensures p.InTeam() && p.t == t
    ensures p.AtChannel? || p.AtThread? || p.NoThread? ==> p.c < |channels| && channels[p.c].uuid == c.channel
    ensures p.AtThread? ==> p.k < |channels[p.c].threads| && channels[p.c].threads[p.k].uuid == c.thread
  {
    if c.level == USE_TEAM then AtTeam(t)
    else
      var i := FirstOf(ChannelIds(channels), c.channel);
      if i == |channels| then NoChannel(t)
      else if c.level == USE_CHANNEL then AtChannel(t, i)
      else
        var k := FirstOf(ThreadIds(channels[i].threads), c.thread);
        if k == |channels[i].threads| then NoThread(t, i) else AtThread(t, i, k)
  }

  // ---------------------------------------------------------------- sessions

  predicate Online(sessions: map<int, Bytes>, uuid: Bytes) {
    exists fd :: fd in sessions && sessions[fd] == uuid
  }

  /** logged_fds */
  function SessionFds(sessions: map<int, Bytes>): seq<int> {
    Ascending(sessions.Keys)
  }

  /** team_member_fds */
  function MemberFds(sessions: map<int, Bytes>, members: seq<Bytes>): seq<int> {
    Ascending(set fd | fd in sessions && sessions[fd] in members)
  }

  function UserFds(sessions: map<int, Bytes>, uuid: Bytes): seq<int> {
    Ascending(set fd | fd in sessions && sessions[fd] == uuid)
  }

  // ---------------------------------------------------------------- records sent to clients

  function AccountRow(u: User): Row { [Str(u.uuid), Str(u.name)] }

  function StatusRow(sessions: map<int, Bytes>, u: User): Row {
    [Str(u.uuid), Str(u.name), Mark(if Online(sessions, Trim(u.uuid)) then 1 else 0)]
  }

  function TeamRow(t: Team): Row { [Str(t.uuid), Str(t.name), Str(t.description)] }

  function ChannelRow(c: Channel): Row { [Str(c.uuid), Str(c.name), Str(c.description)] }

  function ThreadRow(k: Thread): Row {
    [Str(k.uuid), Str(k.creator), At(k.timestamp), Str(k.title), Str(k.body)]
  }

  function ReplyRow(thread: Uuid, r: Reply): Row {
    [Str(thread), Str(r.creator), At(r.timestamp), Str(r.body)]
  }

  function LetterRow(m: Letter): Row {
    [Str(m.sender), Str(m.receiver), At(m.timestamp), Str(m.body)]
  }

  function StatusRows(sessions: map<int, Bytes>, s: seq<User>): seq<Row> {
    seq(|s|, i requires 0 <= i < |s| => StatusRow(sessions, s[i]))
  }

  function TeamRows(s: seq<Team>): seq<Row> { seq(|s|, i requires 0 <= i < |s| => TeamRow(s[i])) }

  function ChannelRows(s: seq<Channel>): seq<Row> { seq(|s|, i requires 0 <= i < |s| => ChannelRow(s[i])) }

  function ThreadRows(s: seq<Thread>): seq<Row> { seq(|s|, i requires 0 <= i < |s| => ThreadRow(s[i])) }

  function ReplyRows(thread: Uuid, s: seq<Reply>): seq<Row> {
    seq(|s|, i requires 0 <= i < |s| => ReplyRow(thread, s[i]))
  }

  function LetterRows(s: seq<Letter>): seq<Row> { seq(|s|, i requires 0 <= i < |s| => LetterRow(s[i])) }

  // ---------------------------------------------------------------- filters

  predicate Between(m: Letter, a: Bytes, b: Bytes) {
    (m.sender == a && m.receiver == b) || (m.sender == b && m.receiver == a)
  }

  /** The messages exchanged by a and b, in the order they were sent. */
  function Conversation(s: seq<Letter>, a: Bytes, b: Bytes): seq<Letter> {
    if s == [] then [] else
      var m := s[|s| - 1];
      Conversation(s[..|s| - 1], a, b) + if Between(m, a, b) then [m] else []
  }

  function TeamsOf(s: seq<Team>, uuid: Bytes): seq<Team> {
    if s == [] then [] else
      var t := s[|s| - 1];
      TeamsOf(s[..|s| - 1], uuid) + if uuid in t.members then [t] else []
  }

  function UsersNamed(users: seq<User>, ids: seq<Bytes>): seq<User> {
    if ids == [] then [] else
      var i := FirstOf(UserIds(users), ids[|ids| - 1]);
      UsersNamed(users, ids[..|ids| - 1]) + if i < |users| then [users[i]] else []
  }
}
