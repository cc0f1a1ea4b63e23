/** What each command line puts on the wire, from the line's bytes to the packet's. */
module Typed {
  import opened Octets
  import opened Words
  import opened Protocol
  import opened Commands

  /** A printed line: a slash, the name, and tokens after one or more spaces each. */
  function Line(name: Bytes, ts: seq<Token>, gaps: seq<nat>): Bytes
    requires |gaps| == |ts|
  {
    [SLASH] + name + ShowAll(ts, gaps)
  }

  ghost predicate Prints(ts: seq<Token>, gaps: seq<nat>) {
    |gaps| == |ts| && forall t | t in ts :: Printable(t)
  }

  lemma {:induction false} TextsAre(ts: seq<Token>)
    ensures |Texts(ts)| == |ts|
    ensures forall i | 0 <= i < |ts| :: Texts(ts)[i] == ts[i].text
  {
    if ts != [] {
      TextsAre(ts[1..]);
      assert forall i | 1 <= i < |ts| :: ts[i] == ts[1..][i - 1];
    }
  }

  /** A printed line is dispatched under its name with the texts of its tokens. */
  lemma {:induction false} EntersAs(m: Mirror, name: Bytes, ts: seq<Token>, gaps: seq<nat>)
    requires Prints(ts, gaps) && SPACE !in name
    ensures Enter(m, Line(name, ts, gaps)) == Perform(m, Command(name, Texts(ts), true))
    ensures |Texts(ts)| == |ts| && forall i | 0 <= i < |ts| :: Texts(ts)[i] == ts[i].text
  {
    ParserUndoesPrinter(name, ts, gaps);
    TextsAre(ts);
  }

  // ---------------------------------------------------------------- the thirteen names

  /** Names of one length differ in their first letters. */
  lemma {:induction false} NamesDiffer()
    ensures |Ascii("use")| == 3 && |Ascii("user")| == |Ascii("send")| == |Ascii("list")| == |Ascii("info")| == 4
    ensures |Ascii("login")| == |Ascii("users")| == 5 && |Ascii("logout")| == |Ascii("create")| == 6
    ensures |Ascii("messages")| == 8 && |Ascii("subscribe")| == 9 && |Ascii("subscribed")| == 10
    ensures |Ascii("unsubscribe")| == 11
    ensures Ascii("user")[0] == 117 && Ascii("send")[0] == 115 && Ascii("list")[0] == 108 && Ascii("info")[0] == 105
    ensures Ascii("login")[0] == 108 && Ascii("users")[0] == 117
    ensures Ascii("logout")[0] == 108 && Ascii("create")[0] == 99
  {
  }

  predicate Known(name: Bytes) {
    || name == Ascii("login") || name == Ascii("logout") || name == Ascii("users") || name == Ascii("user")
    || name == Ascii("send") || name == Ascii("messages") || name == Ascii("subscribe")
    || name == Ascii("subscribed") || name == Ascii("unsubscribe") || name == Ascii("use")
    || name == Ascii("create") || name == Ascii("list") || name == Ascii("info")
  }

  lemma {:induction false} OneWord(s: string)
    requires forall i | 0 <= i < |s| :: s[i] != ' ' && s[i] as int < 0x100
    ensures SPACE !in Ascii(s)
  {
  }

  /** /login with one argument sends the name in 32 bytes; with another number of arguments it sends nothing. */
  lemma {:induction false} LoginTyped(m: Mirror, ts: seq<Token>, gaps: seq<nat>)
    requires Prints(ts, gaps)
    ensures Enter(m, Line(Ascii("login"), ts, gaps))
         == Issue(m, if |ts| == 1 then [Packet(CMD_LOGIN, Fixed(ts[0].text, 32))] else [])
  {
    NamesDiffer();
    OneWord("login");
    EntersAs(m, Ascii("login"), ts, gaps);
  }

  /** /logout sends its code, whatever follows it. */
  lemma {:induction false} LogoutTyped(m: Mirror, ts: seq<Token>, gaps: seq<nat>)
    requires Prints(ts, gaps)
    ensures Enter(m, Line(Ascii("logout"), ts, gaps))
         == Issue(m, [Packet(CMD_LOGOUT, [])])
  {
    NamesDiffer();
    OneWord("logout");
    EntersAs(m, Ascii("logout"), ts, gaps);
  }

  /** /users sends its code. */
  lemma {:induction false} UsersTyped(m: Mirror, ts: seq<Token>, gaps: seq<nat>)
    requires Prints(ts, gaps)
    ensures Enter(m, Line(Ascii("users"), ts, gaps))
         == Issue(m, [Packet(CMD_USERS, [])])
  {
    NamesDiffer();
    OneWord("users");
    EntersAs(m, Ascii("users"), ts, gaps);
  }

  /** /user with one argument sends the id in 36 bytes. */
  lemma {:induction false} UserTyped(m: Mirror, ts: seq<Token>, gaps: seq<nat>)
    requires Prints(ts, gaps)
    ensures Enter(m, Line(Ascii("user"), ts, gaps))
         == Issue(m, if |ts| == 1 then [Packet(CMD_USER, Fixed(ts[0].text, 36))] else [])
  {
    NamesDiffer();
    OneWord("user");
    EntersAs(m, Ascii("user"), ts, gaps);
  }

  /** /send with two arguments sends the id in 36 bytes and the body in 512. */
  lemma {:induction false} SendTyped(m: Mirror, ts: seq<Token>, gaps: seq<nat>)
    requires Prints(ts, gaps)
    ensures Enter(m, Line(Ascii("send"), ts, gaps))
         == Issue(m, if |ts| == 2 then [Packet(CMD_SEND, Fixed(ts[0].text, 36) + Fixed(ts[1].text, 512))] else [])
  {
    NamesDiffer();
    OneWord("send");
    EntersAs(m, Ascii("send"), ts, gaps);
  }

  /** /messages with one argument sends the id in 36 bytes. */
  lemma {:induction false} MessagesTyped(m: Mirror, ts: seq<Token>, gaps: seq<nat>)
    requires Prints(ts, gaps)
    ensures Enter(m, Line(Ascii("messages"), ts, gaps))
         == Issue(m, if |ts| == 1 then [Packet(CMD_MESSAGES, Fixed(ts[0].text, 36))] else [])
  {
    NamesDiffer();
    OneWord("messages");
    EntersAs(m, Ascii("messages"), ts, gaps);
  }

  /** /subscribe with one argument sends the id in 36 bytes. */
  lemma {:induction false} SubscribeTyped(m: Mirror, ts: seq<Token>, gaps: seq<nat>)
    requires Prints(ts, gaps)
    ensures Enter(m, Line(Ascii("subscribe"), ts, gaps))
         == Issue(m, if |ts| == 1 then [Packet(CMD_SUBSCRIBE, Fixed(ts[0].text, 36))] else [])
  {
    NamesDiffer();
    OneWord("subscribe");
    EntersAs(m, Ascii("subscribe"), ts, gaps);
  }

  /** /subscribed sends a 0, or with one argument a 1 and the id. */
  lemma {:induction false} SubscribedTyped(m: Mirror, ts: seq<Token>, gaps: seq<nat>)
    requires Prints(ts, gaps)
    ensures Enter(m, Line(Ascii("subscribed"), ts, gaps))
         == Issue(m, if |ts| == 0 then [Packet(CMD_SUBSCRIBED, [0])]
                     else if |ts| == 1 then [Packet(CMD_SUBSCRIBED, [1] + Fixed(ts[0].text, 36))] else [])
  {
    NamesDiffer();
    OneWord("subscribed");
    EntersAs(m, Ascii("subscribed"), ts, gaps);
  }

  /** /unsubscribe with one argument sends the id in 36 bytes. */
  lemma {:induction false} UnsubscribeTyped(m: Mirror, ts: seq<Token>, gaps: seq<nat>)
    requires Prints(ts, gaps)
    ensures Enter(m, Line(Ascii("unsubscribe"), ts, gaps))
         == Issue(m, if |ts| == 1 then [Packet(CMD_UNSUBSCRIBE, Fixed(ts[0].text, 36))] else [])
  {
    NamesDiffer();
    OneWord("unsubscribe");
    EntersAs(m, Ascii("unsubscribe"), ts, gaps);
  }

  /** /use sends its number of ids and the ids, and records them; more than three change nothing. */
  lemma {:induction false} UseTyped(m: Mirror, ts: seq<Token>, gaps: seq<nat>)
    requires Prints(ts, gaps)
    ensures Enter(m, Line(Ascii("use"), ts, gaps))
         == if |ts| == 0 then Issue(Mirror(0, [], [], []), [Packet(CMD_USE, [0])])
            else if |ts| == 1 then
              Issue(Mirror(1, ts[0].text, [], []), [Packet(CMD_USE, [1] + Fixed(ts[0].text, 36))])
            else if |ts| == 2 then
              Issue(Mirror(2, ts[0].text, ts[1].text, []),
                    [Packet(CMD_USE, [2] + Fixed(ts[0].text, 36) + Fixed(ts[1].text, 36))])
            else if |ts| == 3 then
              Issue(Mirror(3, ts[0].text, ts[1].text, ts[2].text),
                    [Packet(CMD_USE, [3] + Fixed(ts[0].text, 36) + Fixed(ts[1].text, 36) + Fixed(ts[2].text, 36))])
            else Issue(m, [])
  {
    NamesDiffer();
    OneWord("use");
    EntersAs(m, Ascii("use"), ts, gaps);
  }

  /** /create at the level of the client's record: two texts or one, in fields of its own widths. */
  lemma {:induction false} CreateTyped(m: Mirror, ts: seq<Token>, gaps: seq<nat>)
    requires Prints(ts, gaps)
    ensures Enter(m, Line(Ascii("create"), ts, gaps))
         == Issue(m, if m.level <= 1 && |ts| == 2 then
                       [Packet(CMD_CREATE, Fixed(ts[0].text, 32) + Fixed(ts[1].text, 255))]
                     else if m.level == 2 && |ts| == 2 then
                       [Packet(CMD_CREATE, Fixed(ts[0].text, 32) + Fixed(ts[1].text, 512))]
                     else if m.level == 3 && |ts| == 1 then [Packet(CMD_CREATE, Fixed(ts[0].text, 512))]
                     else if m.level <= 3 then [] else [Packet(CMD_CREATE, [])])
  {
    NamesDiffer();
    OneWord("create");
    EntersAs(m, Ascii("create"), ts, gaps);
  }

  /** /list sends its code. */
  lemma {:induction false} ListTyped(m: Mirror, ts: seq<Token>, gaps: seq<nat>)
    requires Prints(ts, gaps)
    ensures Enter(m, Line(Ascii("list"), ts, gaps))
         == Issue(m, [Packet(CMD_LIST, [])])
  {
    NamesDiffer();
    OneWord("list");
    EntersAs(m, Ascii("list"), ts, gaps);
  }

  /** /info sends its code. */
  lemma {:induction false} InfoTyped(m: Mirror, ts: seq<Token>, gaps: seq<nat>)
    requires Prints(ts, gaps)
    ensures Enter(m, Line(Ascii("info"), ts, gaps))
         == Issue(m, [Packet(CMD_INFO, [])])
  {
    NamesDiffer();
    OneWord("info");
    EntersAs(m, Ascii("info"), ts, gaps);
  }

  /** A command of any other name sends nothing and records nothing. */
  lemma {:induction false} UnknownTyped(m: Mirror, name: Bytes, ts: seq<Token>, gaps: seq<nat>)
    requires Prints(ts, gaps) && SPACE !in name && !Known(name)
    ensures Enter(m, Line(name, ts, gaps)) == Issue(m, [])
  {
    EntersAs(m, name, ts, gaps);
  }

  // ---------------------------------------------------------------- lines that are no commands

  /** A line without a slash at its start issues nothing. */
  lemma {:induction false} NoSlash(m: Mirror, line: Bytes)
    requires line == [] || line[0] != SLASH
    ensures Enter(m, line) == Issue(m, [])
  {
  }

  lemma {:induction false} ParseUnclosed(n: nat, text: Bytes)
    requires QUOTE !in text
    ensures !ParseArgs(Spaces(n) + ([QUOTE] + text)).closed
  {
    var t := [QUOTE] + text;
    SkipsSpaces(n, t);
    assert t[1..] == text;
  }

  lemma {:induction false} FourParts(a: Bytes, b: Bytes, c: Bytes, d: Bytes)
    ensures a + b + c + d == a + b + (c + d)
  {
  }

  /** The first of some tokens is parsed, whatever follows the last one after a space. */
  lemma {:induction false} TokenThen(ts: seq<Token>, gaps: seq<nat>, end: Bytes)
    requires ts != [] && |gaps| == |ts| && Printable(ts[0]) && end != [] && end[0] == SPACE
    ensures ParseArgs(ShowAll(ts, gaps) + end).closed == ParseArgs(ShowAll(ts[1..], gaps[1..]) + end).closed
  {
    var rest := ShowAll(ts[1..], gaps[1..]);
    ShowAllStart(ts[1..], gaps[1..]);
    assert (rest + end)[0] == SPACE;
    ParseToken(gaps[0] + 1, ts[0], rest + end);
    FourParts(Spaces(gaps[0] + 1), Show(ts[0]), rest, end);
  }

  /** After some tokens, a quote that nothing closes. */
  lemma {:induction false} TailUnclosed(ts: seq<Token>, gaps: seq<nat>, gap: nat, text: Bytes)
    requires Prints(ts, gaps) && QUOTE !in text
    ensures !ParseArgs(ShowAll(ts, gaps) + (Spaces(gap + 1) + ([QUOTE] + text))).closed
  {
    var end := Spaces(gap + 1) + ([QUOTE] + text);
    if ts == [] {
      assert ShowAll(ts, gaps) + end == end;
      ParseUnclosed(gap + 1, text);
    } else {
      assert ts[0] in ts;
      assert forall t | t in ts[1..] :: t in ts;
      TailUnclosed(ts[1..], gaps[1..], gap, text);
      TokenThen(ts, gaps, end);
    }
  }

  /** A line whose last quote is not closed issues nothing. */
  lemma {:induction false} UnclosedQuote(m: Mirror, name: Bytes, ts: seq<Token>, gaps: seq<nat>, gap: nat, text: Bytes)
    requires Prints(ts, gaps) && SPACE !in name && QUOTE !in text
    ensures Enter(m, Line(name, ts, gaps) + Spaces(gap + 1) + [QUOTE] + text) == Issue(m, [])
  {
    var tail := ShowAll(ts, gaps) + (Spaces(gap + 1) + ([QUOTE] + text));
    var line := Line(name, ts, gaps) + Spaces(gap + 1) + [QUOTE] + text;
    TailUnclosed(ts, gaps, gap, text);
    ShowAllStart(ts, gaps);
    assert line[1..] == name + tail;
    UntilEnd(name, tail);
    assert line[1..][|name|..] == tail;
  }
}
