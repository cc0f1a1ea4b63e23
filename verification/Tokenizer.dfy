/** The client's line parser as it runs: one index walked over the line by nested loops. */
module Tokenizer {
  import opened Octets
  import opened Commands

  /** What a walk that stops at the first x has found. */
  lemma {:induction false} UntilAt(line: Bytes, from: nat, to: nat, x: byte)
    requires from <= to <= |line|
    requires forall k | from <= k < to :: line[k] != x
    requires to < |line| ==> line[to] == x
    ensures Until(line[from..], x) == to - from
  {
    var s := line[from..];
    var r := Until(s, x);
    assert forall k | 0 <= k < to - from :: s[k] == line[from + k];
    assert forall k | 0 <= k < r :: s[..r][k] == s[k];
    assert forall k | 0 <= k < r :: s[k] != x;
    if to < |line| { assert s[to - from] == x; }
    assert r >= to - from;
  }

  lemma {:induction false} SkipAt(line: Bytes, from: nat, to: nat)
    requires from <= to <= |line|
    requires forall k | from <= k < to :: line[k] == SPACE
    requires to < |line| ==> line[to] != SPACE
    ensures SkipSpaces(line[from..]) == line[to..]
    decreases |line| - from
  {
    if from < to {
      assert line[from..][1..] == line[from + 1..];
      SkipAt(line, from + 1, to);
    }
  }

  /** What the arguments are once the blanks are skipped: a quoted one, an unclosed one, a bare one. */
  lemma {:induction false} ArgsQuoted(s: Bytes, t: Bytes, k: nat)
    requires SkipSpaces(s) == t && t != [] && t[0] == QUOTE && Until(t[1..], QUOTE) == k < |t| - 1
    ensures ParseArgs(s) == Args([t[1..][..k]] + ParseArgs(t[k + 2..]).args, ParseArgs(t[k + 2..]).closed)
  {
  }

  lemma {:induction false} ArgsUnclosed(s: Bytes, t: Bytes)
    requires SkipSpaces(s) == t && t != [] && t[0] == QUOTE && Until(t[1..], QUOTE) == |t| - 1
    ensures ParseArgs(s) == Args([], false)
  {
  }

  lemma {:induction false} ArgsBare(s: Bytes, t: Bytes, k: nat)
    requires SkipSpaces(s) == t && t != [] && t[0] != QUOTE && Until(t, SPACE) == k
    ensures ParseArgs(s) == Args([t[..k]] + ParseArgs(t[k..]).args, ParseArgs(t[k..]).closed)
  {
  }

  lemma {:induction false} Slices(line: Bytes, q: nat, e: nat)
    requires q < e < |line|
    ensures line[q..][1..] == line[q + 1..]
    ensures line[q + 1..][..e - q - 1] == line[q + 1..e]
    ensures line[q..][e - q + 1..] == line[e + 1..]
  {
  }

  /** One quoted argument: from the quote at q to the quote at e. */
  lemma {:induction false} QuotedAt(line: Bytes, q: nat, e: nat)
    requires q < e < |line| && line[q] == QUOTE && line[e] == QUOTE
    requires forall k | q < k < e :: line[k] != QUOTE
    ensures ParseArgs(line[q..])
        == Args([line[q + 1..e]] + ParseArgs(line[e + 1..]).args, ParseArgs(line[e + 1..]).closed)
  {
    SkipAt(line, q, q);
    UntilAt(line, q + 1, e, QUOTE);
    Slices(line, q, e);
    ArgsQuoted(line[q..], line[q..], e - q - 1);
  }

  lemma {:induction false} UnclosedAt(line: Bytes, q: nat)
    requires q < |line| && line[q] == QUOTE
    requires forall k | q < k < |line| :: line[k] != QUOTE
    ensures ParseArgs(line[q..]) == Args([], false)
  {
    SkipAt(line, q, q);
    UntilAt(line, q + 1, |line|, QUOTE);
    assert line[q..][1..] == line[q + 1..];
    ArgsUnclosed(line[q..], line[q..]);
  }

  lemma {:induction false} BareAt(line: Bytes, b: nat, e: nat)
    requires b < e <= |line| && line[b] != QUOTE && line[b] != SPACE
    requires forall k | b <= k < e :: line[k] != SPACE
    requires e < |line| ==> line[e] == SPACE
    ensures ParseArgs(line[b..]) == Args([line[b..e]] + ParseArgs(line[e..]).args, ParseArgs(line[e..]).closed)
  {
    SkipAt(line, b, b);
    UntilAt(line, b, e, SPACE);
    assert line[b..][..e - b] == line[b..e];
    assert line[b..][e - b..] == line[e..];
    ArgsBare(line[b..], line[b..], e - b);
  }

  /** What the arguments read so far and the rest of the line add up to. */
  function Ahead(args: seq<Bytes>, r: Args): Args { r.(args := args + r.args) }

  lemma {:induction false} AheadOne(args: seq<Bytes>, x: Bytes, r: Args)
    ensures Ahead(args, Ahead([x], r)) == Ahead(args + [x], r)
  {
    Associate(args, [x], r.args);
  }

  method SkipBlanks(line: Bytes, start: nat) returns (i: nat)
    requires start <= |line|
    ensures start <= i <= |line| && (i < |line| ==> line[i] != SPACE)
    ensures forall k | start <= k < i :: line[k] == SPACE
  {
    i := start;
    while i < |line| && line[i] == SPACE
      invariant start <= i <= |line|
      invariant forall k | start <= k < i :: line[k] == SPACE
    {
      i := i + 1;
    }
  }

  /** What one argument and the rest of the line add up to; nothing after an unclosed quote. */
  function Next(arg: Bytes, closed: bool, rest: Bytes): Args {
    if closed then Ahead([arg], ParseArgs(rest)) else Args([], false)
  }

  /** Where the text after the quote at q ends: at the next quote, or with the line. */
  method QuotedText(line: Bytes, q: nat) returns (arg: Bytes, e: nat)
    requires q < |line|
    ensures q < e <= |line| && arg == line[q + 1..e]
    ensures forall k | q < k < e :: line[k] != QUOTE
    ensures e < |line| ==> line[e] == QUOTE
  {
    arg, e := [], q + 1;
    while e < |line| && line[e] != QUOTE
      invariant q < e <= |line|
      invariant arg == line[q + 1..e]
      invariant forall k | q < k < e :: line[k] != QUOTE
    {
      arg := arg + [line[e]];
      e := e + 1;
    }
  }

  /** The text after the quote at q, and the index behind the closing quote if there is one. */
  method QuotedArg(line: Bytes, q: nat) returns (arg: Bytes, i: nat, closed: bool)
    requires q < |line| && line[q] == QUOTE
    ensures q < i <= |line| && ParseArgs(line[q..]) == Next(arg, closed, line[i..])
  {
    arg, i := QuotedText(line, q);
    closed := i < |line|;
    if closed {
      QuotedAt(line, q, i);
      i := i + 1;
    } else {
      UnclosedAt(line, q);
    }
  }

  method BareArg(line: Bytes, b: nat) returns (arg: Bytes, i: nat)
    requires b < |line| && line[b] != QUOTE && line[b] != SPACE
    ensures b < i <= |line| && ParseArgs(line[b..]) == Next(arg, true, line[i..])
  {
    arg, i := [], b;
    while i < |line| && line[i] != SPACE
      invariant b <= i <= |line|
      invariant arg == line[b..i]
      invariant forall k | b <= k < i :: line[k] != SPACE
    {
      arg := arg + [line[i]];
      i := i + 1;
    }
    BareAt(line, b, i);
  }

  lemma {:induction false} SameAfterBlanks(s: Bytes, t: Bytes)
    requires SkipSpaces(s) == SkipSpaces(t)
    ensures ParseArgs(s) == ParseArgs(t)
  {
  }

  lemma {:induction false} BlanksDoNotMatter(line: Bytes, from: nat, to: nat)
    requires from <= to <= |line|
    requires forall k | from <= k < to :: line[k] == SPACE
    requires to < |line| ==> line[to] != SPACE
    ensures ParseArgs(line[from..]) == ParseArgs(line[to..])
  {
    SkipAt(line, from, to);
    SkipAt(line, to, to);
    SameAfterBlanks(line[from..], line[to..]);
  }

  /** One argument, quoted or bare. */
  method Argument(line: Bytes, start: nat) returns (arg: Bytes, i: nat, closed: bool)
    requires start < |line| && line[start] != SPACE
    ensures start < i <= |line| && ParseArgs(line[start..]) == Next(arg, closed, line[i..])
  {
    if line[start] == QUOTE {
      arg, i, closed := QuotedArg(line, start);
    } else {
      arg, i := BareArg(line, start);
      closed := true;
    }
  }

  /** The loop over the arguments. */
  method Arguments(line: Bytes, start: nat) returns (args: seq<Bytes>, closed: bool)
    requires start <= |line|
    ensures Args(args, closed) == ParseArgs(line[start..])
  {
    args, closed := [], true;
    var i := start;
    assert [] + ParseArgs(line[i..]).args == ParseArgs(line[i..]).args;
    while i < |line|
      invariant start <= i <= |line|
      invariant closed && Ahead(args, ParseArgs(line[i..])) == ParseArgs(line[start..])
    {
      var first := SkipBlanks(line, i);
      BlanksDoNotMatter(line, i, first);
      i := first;
      if i >= |line| { break; }
      var arg, next, whole := Argument(line, i);
      if !whole {
        assert args + [] == args;
        return args, false;
      }
      AheadOne(args, arg, ParseArgs(line[next..]));
      args := args + [arg];
      i := next;
    }
    assert line[i..] == [];
    assert args + [] == args;
  }

  /** _parse_line: ends on every line, with exactly the command the grammar gives. */
  method Parse(line: Bytes) returns (c: Command)
    ensures c == ParseLine(line)
  {
    if line == [] || line[0] != SLASH { return BAD_COMMAND; }
    var i := 1;
    while i < |line| && line[i] != SPACE
      invariant 1 <= i <= |line|
      invariant forall k | 1 <= k < i :: line[k] != SPACE
    {
      i := i + 1;
    }
    UntilAt(line, 1, i, SPACE);
    assert line[1..][..i - 1] == line[1..i] && line[1..][i - 1..] == line[i..];
    var args, closed := Arguments(line, i);
    c := Command(line[1..i], args, closed);
  }
}
