/** The client's command side: lines, tokens, request payloads and its own idea of where /use stands. */
module Commands {
  import opened Octets
  import opened Words
  import opened Protocol

  const NEWLINE: byte := 10
  const SPACE: byte := 32
  const QUOTE: byte := 34
  const SLASH: byte := 47

  // ---------------------------------------------------------------- lines

  datatype Input = Input(lines: seq<Bytes>, rest: Bytes)

  /** The part before the first x, and whether there is an x at all. */
  function Until(s: Bytes, x: byte): (r: nat)
    ensures r <= |s| && x !in s[..r]
    ensures r < |s| ==> s[r] == x
    ensures r < |s| <==> x in s
  {
    if s == [] || s[0] == x then 0 else
      var k := 1 + Until(s[1..], x);
      assert s[..k] == [s[0]] + s[1..][..k - 1];
      k
  }

  /** All complete lines of the input, and the unfinished one. */
  function Lines(s: Bytes): Input {
    var k := Until(s, NEWLINE);
    if k == |s| then Input([], s)
    else
      var r := Lines(s[k + 1..]);
      r.(lines := [s[..k]] + r.lines)
  }

  function LinesAhead(ls: seq<Bytes>, r: Input): Input { r.(lines := ls + r.lines) }

  lemma {:induction false} LinesAheadTwice(a: seq<Bytes>, b: seq<Bytes>, r: Input)
    ensures LinesAhead(a, LinesAhead(b, r)) == LinesAhead(a + b, r)
  {
    Associate(a, b, r.lines);
  }

  lemma {:induction false} UntilUnique(s: Bytes, x: byte, r: nat)
    requires r < |s| && x !in s[..r] && s[r] == x
    ensures Until(s, x) == r
  {
    var k := Until(s, x);
    assert forall i | 0 <= i < r :: s[..r][i] == s[i] && s[i] != x;
    assert forall i | 0 <= i < k :: s[..k][i] == s[i] && s[i] != x;
    assert s[r] in s;
  }

  /** Lines do not depend on how the input is cut. */
  lemma {:induction false} LinesMore(a: Bytes, b: Bytes)
    ensures Lines(a + b) == LinesAhead(Lines(a).lines, Lines(Lines(a).rest + b))
    decreases |a|
  {
    var k := Until(a, NEWLINE);
    if k < |a| {
      assert (a + b)[..k] == a[..k];
      UntilUnique(a + b, NEWLINE, k);
      assert (a + b)[k + 1..] == a[k + 1..] + b;
      LinesMore(a[k + 1..], b);
      var r := Lines(a[k + 1..]);
      LinesAheadTwice([a[..k]], r.lines, Lines(r.rest + b));
    } else {
      assert [] + Lines(a + b).lines == Lines(a + b).lines;
    }
  }

  /** Lines as they were typed, a newline after each. */
  function Unlines(ls: seq<Bytes>): Bytes {
    if ls == [] then [] else ls[0] + [NEWLINE] + Unlines(ls[1..])
  }

  lemma {:induction false} UnlinesMore(l: Bytes, ls: seq<Bytes>)
    ensures Unlines([l] + ls) == l + [NEWLINE] + Unlines(ls)
  {
    assert ([l] + ls)[1..] == ls;
  }

  lemma {:induction false} CutAt(s: Bytes, k: nat)
    requires k < |s| && s[k] == NEWLINE
    ensures s[..k] + [NEWLINE] + s[k + 1..] == s
  {
  }

  lemma {:induction false} LinesWhole(s: Bytes)
    ensures NEWLINE !in Lines(s).rest && forall l | l in Lines(s).lines :: NEWLINE !in l
    decreases |s|
  {
    var k := Until(s, NEWLINE);
    if k == |s| {
      assert s[..k] == s;
    } else {
      LinesWhole(s[k + 1..]);
    }
  }

  /** The lines and the unfinished one are the input, cut at every newline. */
  lemma {:induction false} LinesSpellInput(s: Bytes)
    ensures Unlines(Lines(s).lines) + Lines(s).rest == s
    ensures NEWLINE !in Lines(s).rest && forall l | l in Lines(s).lines :: NEWLINE !in l
    decreases |s|
  {
    LinesWhole(s);
    var k := Until(s, NEWLINE);
    if k < |s| {
      var r := Lines(s[k + 1..]);
      LinesSpellInput(s[k + 1..]);
      UnlinesMore(s[..k], r.lines);
      Associate(s[..k] + [NEWLINE], Unlines(r.lines), r.rest);
      CutAt(s, k);
    }
  }

  // ---------------------------------------------------------------- tokens

  datatype Command = Command(name: Bytes, args: seq<Bytes>, valid: bool)

  const BAD_COMMAND := Command([], [], false)

  function SkipSpaces(s: Bytes): (r: Bytes)
    ensures |r| <= |s|
    ensures r != [] ==> r[0] != SPACE
  {
    if s != [] && s[0] == SPACE then SkipSpaces(s[1..]) else s
  }

  datatype Args = Args(args: seq<Bytes>, closed: bool)

  /** The arguments in what follows the command name; closed is false after an unclosed quote. */
  function ParseArgs(s: Bytes): Args
    decreases |s|
  {
    var t := SkipSpaces(s);
    if t == [] then Args([], true)
    else if t[0] == QUOTE then
      var k := Until(t[1..], QUOTE);
      if k == |t[1..]| then Args([], false)
      else
        var r := ParseArgs(t[k + 2..]);
        r.(args := [t[1..][..k]] + r.args)
    else
      var k := Until(t, SPACE);
      assert k > 0;
      var r := ParseArgs(t[k..]);
      r.(args := [t[..k]] + r.args)
  }

  /** _parse_line */
  function ParseLine(line: Bytes): Command {
    if line == [] || line[0] != SLASH then BAD_COMMAND
    else
      var k := Until(line[1..], SPACE);
      var r := ParseArgs(line[1..][k..]);
      Command(line[1..][..k], r.args, r.closed)
  }

  // ---------------------------------------------------------------- the printer

  datatype Token = Quoted(text: Bytes) | Bare(text: Bytes)

  predicate Printable(t: Token) {
    match t
    case Quoted(text) => QUOTE !in text
    case Bare(text) => text != [] && SPACE !in text && text[0] != QUOTE
  }

  function Spaces(n: nat): (r: Bytes)
    ensures |r| == n && forall i | 0 <= i < n :: r[i] == SPACE
  {
    seq(n, _ => SPACE)
  }

  function Show(t: Token): Bytes {
    match t
    case Quoted(text) => [QUOTE] + text + [QUOTE]
    case Bare(text) => text
  }

  /** Tokens, each after one space and as many more as its gap says. */
  function ShowAll(ts: seq<Token>, gaps: seq<nat>): Bytes
    requires |gaps| == |ts|
  {
    if ts == [] then [] else Spaces(gaps[0] + 1) + Show(ts[0]) + ShowAll(ts[1..], gaps[1..])
  }

  function Texts(ts: seq<Token>): seq<Bytes> {
    if ts == [] then [] else [ts[0].text] + Texts(ts[1..])
  }

  lemma {:induction false} SkipsSpaces(n: nat, s: Bytes)
    requires s == [] || s[0] != SPACE
    ensures SkipSpaces(Spaces(n) + s) == s
  {
    if n == 0 {
      assert Spaces(0) + s == s;
    } else {
      assert (Spaces(n) + s)[1..] == Spaces(n - 1) + s;
      SkipsSpaces(n - 1, s);
    }
  }

  lemma {:induction false} ParseQuoted(n: nat, text: Bytes, rest: Bytes)
    requires QUOTE !in text
    ensures ParseArgs(Spaces(n) + ([QUOTE] + text + [QUOTE]) + rest)
         == Args([text] + ParseArgs(rest).args, ParseArgs(rest).closed)
  {
    var t := [QUOTE] + text + [QUOTE] + rest;
    assert Spaces(n) + ([QUOTE] + text + [QUOTE]) + rest == Spaces(n) + t;
    SkipsSpaces(n, t);
    assert t[1..] == text + [QUOTE] + rest;
    assert t[1..][..|text|] == text;
    UntilUnique(t[1..], QUOTE, |text|);
    assert t[|text| + 2..] == rest;
  }

  lemma {:induction false} UntilEnd(s: Bytes, rest: Bytes)
    requires SPACE !in s && (rest == [] || rest[0] == SPACE)
    ensures Until(s + rest, SPACE) == |s|
  {
    assert (s + rest)[..|s|] == s;
    if rest == [] {
      assert s + rest == s;
    } else {
      UntilUnique(s + rest, SPACE, |s|);
    }
  }

  lemma {:induction false} ParseBare(n: nat, text: Bytes, rest: Bytes)
    requires text != [] && SPACE !in text && text[0] != QUOTE && (rest == [] || rest[0] == SPACE)
    ensures ParseArgs(Spaces(n) + text + rest) == Args([text] + ParseArgs(rest).args, ParseArgs(rest).closed)
  {
    var t := text + rest;
    assert Spaces(n) + text + rest == Spaces(n) + t;
    assert t[0] == text[0] && text[0] in text;
    SkipsSpaces(n, t);
    UntilEnd(text, rest);
    assert t[..|text|] == text && t[|text|..] == rest;
  }

  lemma {:induction false} ShowAllStart(ts: seq<Token>, gaps: seq<nat>)
    requires |gaps| == |ts|
    ensures ShowAll(ts, gaps) == [] || ShowAll(ts, gaps)[0] == SPACE
  {
  }

  lemma {:induction false} ParseToken(n: nat, t: Token, rest: Bytes)
    requires Printable(t) && (rest == [] || rest[0] == SPACE)
    ensures ParseArgs(Spaces(n) + Show(t) + rest) == Args([t.text] + ParseArgs(rest).args, ParseArgs(rest).closed)
  {
    match t
    case Quoted(text) => ParseQuoted(n, text, rest);
    case Bare(text) => ParseBare(n, text, rest);
  }

  lemma {:induction false} ParseShown(ts: seq<Token>, gaps: seq<nat>)
    requires |gaps| == |ts| && forall t | t in ts :: Printable(t)
    ensures ParseArgs(ShowAll(ts, gaps)) == Args(Texts(ts), true)
  {
    if ts != [] {
      assert ts[0] in ts;
      assert forall t | t in ts[1..] :: t in ts;
      ParseShown(ts[1..], gaps[1..]);
      ShowAllStart(ts[1..], gaps[1..]);
      ParseToken(gaps[0] + 1, ts[0], ShowAll(ts[1..], gaps[1..]));
    }
  }

  /**
   * Parsing undoes printing: a space-free command name, then any tokens, quoted or bare, each after one or
   * more spaces, come back as exactly that name and those arguments.
   */
  lemma {:induction false} ParserUndoesPrinter(name: Bytes, ts: seq<Token>, gaps: seq<nat>)
    requires |gaps| == |ts| && SPACE !in name && forall t | t in ts :: Printable(t)
    ensures ParseLine([SLASH] + name + ShowAll(ts, gaps)) == Command(name, Texts(ts), true)
  {
    var tail := ShowAll(ts, gaps);
    var line := [SLASH] + name + tail;
    assert line[1..] == name + tail;
    ShowAllStart(ts, gaps);
    UntilEnd(name, tail);
    ParseShown(ts, gaps);
    assert line[1..][..|name|] == name && line[1..][|name|..] == tail;
  }

  // ---------------------------------------------------------------- requests

  /** The client's own record of /use, set before the server answers. */
  datatype Mirror = Mirror(level: byte, team: Bytes, channel: Bytes, thread: Bytes)

  const AT_START := Mirror(USE_NONE, [], [], [])

  datatype Issue = Issue(mirror: Mirror, packets: seq<Packet>)

  function Ascii(s: string): Bytes {
    seq(|s|, i requires 0 <= i < |s| => s[i] as int % 0x100)
  }

  function Ask(m: Mirror, code: uint16, payload: Bytes): Issue { Issue(m, [Packet(code, payload)]) }

  function Nothing(m: Mirror): Issue { Issue(m, []) }

  /** The commands whose payload is one fixed field. */
  function AskOne(m: Mirror, code: uint16, args: seq<Bytes>, width: nat): Issue {
    if |args| != 1 then Nothing(m) else Ask(m, code, Fixed(args[0], width))
  }

  function UseCommand(m: Mirror, args: seq<Bytes>): Issue {
    if |args| == 0 then Ask(AT_START, CMD_USE, [USE_NONE])
    else if |args| == 1 then Ask(Mirror(USE_TEAM, args[0], [], []), CMD_USE, [USE_TEAM] + Fixed(args[0], 36))
    else if |args| == 2 then
      Ask(Mirror(USE_CHANNEL, args[0], args[1], []), CMD_USE, [USE_CHANNEL] + Fixed(args[0], 36) + Fixed(args[1], 36))
    else if |args| == 3 then
      Ask(Mirror(USE_THREAD, args[0], args[1], args[2]), CMD_USE,
          [USE_THREAD] + Fixed(args[0], 36) + Fixed(args[1], 36) + Fixed(args[2], 36))
    else Nothing(m)
  }

  function CreateCommand(m: Mirror, args: seq<Bytes>): Issue {
    if m.level == USE_NONE || m.level == USE_TEAM then
      if |args| != 2 then Nothing(m) else Ask(m, CMD_CREATE, Fixed(args[0], 32) + Fixed(args[1], 255))
    else if m.level == USE_CHANNEL then
      if |args| != 2 then Nothing(m) else Ask(m, CMD_CREATE, Fixed(args[0], 32) + Fixed(args[1], 512))
    else if m.level == USE_THREAD then AskOne(m, CMD_CREATE, args, 512)
    else Ask(m, CMD_CREATE, [])
  }

  function SendCommand(m: Mirror, args: seq<Bytes>): Issue {
    if |args| != 2 then Nothing(m) else Ask(m, CMD_SEND, Fixed(args[0], 36) + Fixed(args[1], 512))
  }

  function SubscribedCommand(m: Mirror, args: seq<Bytes>): Issue {
    if |args| == 0 then Ask(m, CMD_SUBSCRIBED, [0])
    else if |args| == 1 then Ask(m, CMD_SUBSCRIBED, [1] + Fixed(args[0], 36))
    else Nothing(m)
  }

  /** _dispatch */
  function Perform(m: Mirror, c: Command): Issue {
    if c.name == Ascii("login") then AskOne(m, CMD_LOGIN, c.args, 32)
    else if c.name == Ascii("logout") then Ask(m, CMD_LOGOUT, [])
    else if c.name == Ascii("users") then Ask(m, CMD_USERS, [])
    else if c.name == Ascii("user") then AskOne(m, CMD_USER, c.args, 36)
    else if c.name == Ascii("send") then SendCommand(m, c.args)
    else if c.name == Ascii("messages") then AskOne(m, CMD_MESSAGES, c.args, 36)
    else if c.name == Ascii("subscribe") then AskOne(m, CMD_SUBSCRIBE, c.args, 36)
    else if c.name == Ascii("subscribed") then SubscribedCommand(m, c.args)
    else if c.name == Ascii("unsubscribe") then AskOne(m, CMD_UNSUBSCRIBE, c.args, 36)
    else if c.name == Ascii("use") then UseCommand(m, c.args)
    else if c.name == Ascii("create") then CreateCommand(m, c.args)
    else if c.name == Ascii("list") then Ask(m, CMD_LIST, [])
    else if c.name == Ascii("info") then Ask(m, CMD_INFO, [])
    else Nothing(m)
  }

  /** One line of input: empty lines and lines that do not parse are dropped. */
  function Enter(m: Mirror, line: Bytes): Issue {
    if line == [] || !ParseLine(line).valid then Nothing(m) else Perform(m, ParseLine(line))
  }

  /** Lines entered one after the other. */
  function From(m: Mirror, lines: seq<Bytes>): Issue {
    if lines == [] then Nothing(m) else
      var before := From(m, lines[..|lines| - 1]);
      var now := Enter(before.mirror, lines[|lines| - 1]);
      Issue(now.mirror, before.packets + now.packets)
  }

  /** All lines, from the client's start. */
  function Session(lines: seq<Bytes>): Issue { From(AT_START, lines) }

  lemma {:induction false} FromSnoc(m: Mirror, lines: seq<Bytes>, line: Bytes)
    ensures From(m, lines + [line])
         == Issue(Enter(From(m, lines).mirror, line).mirror,
                  From(m, lines).packets + Enter(From(m, lines).mirror, line).packets)
  {
    assert (lines + [line])[..|lines|] == lines;
  }

  /** An issue with more lines entered after it. */
  function Later(before: Issue, lines: seq<Bytes>): Issue {
    var now := From(before.mirror, lines);
    Issue(now.mirror, before.packets + now.packets)
  }

  lemma {:induction false} LaterSnoc(before: Issue, lines: seq<Bytes>, line: Bytes)
    ensures Later(before, lines + [line])
         == Issue(Enter(Later(before, lines).mirror, line).mirror,
                  Later(before, lines).packets + Enter(Later(before, lines).mirror, line).packets)
  {
    FromSnoc(before.mirror, lines, line);
    Associate(before.packets, From(before.mirror, lines).packets, Enter(Later(before, lines).mirror, line).packets);
  }

  lemma {:induction false} LaterNothing(before: Issue)
    ensures Later(before, []) == before
  {
    assert before.packets + [] == before.packets;
  }

  lemma {:induction false} FromAppend(m: Mirror, a: seq<Bytes>, b: seq<Bytes>)
    ensures From(m, a + b) == Later(From(m, a), b)
  {
    if b == [] {
      assert a + b == a;
      LaterNothing(From(m, a));
    } else {
      var n := |b| - 1;
      assert a + b == a + b[..n] + [b[n]];
      assert b == b[..n] + [b[n]];
      FromAppend(m, a, b[..n]);
      FromSnoc(m, a + b[..n], b[n]);
      LaterSnoc(From(m, a), b[..n], b[n]);
    }
  }

  // ---------------------------------------------------------------- standard input in chunks

  /** The client after some reads of its standard input: what it issued, and the unfinished line. */
  datatype Console = Console(issue: Issue, rest: Bytes)

  function Keyed(chunks: seq<Bytes>): Console {
    if chunks == [] then Console(Nothing(AT_START), []) else
      var before := Keyed(chunks[..|chunks| - 1]);
      var input := Lines(before.rest + chunks[|chunks| - 1]);
      Console(Later(before.issue, input.lines), input.rest)
  }

  /** More input goes on where the session stood. */
  lemma {:induction false} SessionMore(typed: Bytes, more: Bytes)
    ensures var input := Lines(Lines(typed).rest + more);
            && Lines(typed + more).rest == input.rest
            && Session(Lines(typed + more).lines) == Later(Session(Lines(typed).lines), input.lines)
  {
    LinesMore(typed, more);
    FromAppend(AT_START, Lines(typed).lines, Lines(Lines(typed).rest + more).lines);
  }

  /** What the client issues depends on the bytes typed alone, not on how they came in. */
  lemma {:induction false} StdinChunksDoNotMatter(chunks: seq<Bytes>)
    ensures Keyed(chunks) == Console(Session(Lines(Joined(chunks)).lines), Lines(Joined(chunks)).rest)
  {
    if chunks != [] {
      var n := |chunks| - 1;
      StdinChunksDoNotMatter(chunks[..n]);
      SessionMore(Joined(chunks[..n]), chunks[n]);
    }
  }

  /** A line issues at most one request, and the server's cap lets its payload through. */
  lemma {:induction false} PerformsOne(m: Mirror, c: Command)
    ensures |Perform(m, c).packets| <= 1
    ensures forall p | p in Perform(m, c).packets :: |p.payload| <= MAX_PAYLOAD
  {
  }

  lemma {:induction false} IssuedSmall(lines: seq<Bytes>)
    ensures forall p | p in Session(lines).packets :: |p.payload| <= MAX_PAYLOAD
  {
    if lines != [] {
      var n := |lines| - 1;
      IssuedSmall(lines[..n]);
      PerformsOne(Session(lines[..n]).mirror, ParseLine(lines[n]));
    }
  }
}
