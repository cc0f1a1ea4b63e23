/** The client's helpers: fields packed byte by byte, and payloads read through a cursor. */
module Readers {
  import opened Octets
  import opened Words
  import opened Protocol
  import opened Records

  /** pack_fixed */
  method PackFixed(buf: Bytes, s: Bytes, width: nat) returns (out: Bytes)
    ensures out == buf + Fixed(s, width)
  {
    var copyLen := if |s| < width then |s| else width;
    out := buf;
    for i := 0 to copyLen
      invariant out == buf + s[..i]
    {
      out := out + [s[i]];
    }
    for i := copyLen to width
      invariant out == buf + s[..copyLen] + Zeros(i - copyLen)
    {
      assert Zeros(i + 1 - copyLen) == Zeros(i - copyLen) + [0];
      out := out + [0];
    }
    Associate(buf, s[..copyLen], Zeros(width - copyLen));
    assert Fixed(s, width) == s[..copyLen] + Zeros(width - copyLen);
  }

  lemma {:induction false} Window(p: Bytes, off: nat, n: nat)
    requires off + n <= |p|
    ensures p[off..][..n] == p[off..off + n] && p[off..][n..] == p[off + n..]
  {
  }

  /** read_fixed */
  method ReadFixed(p: Bytes, off: nat, width: nat) returns (s: Bytes, next: nat)
    requires off <= |p|
    ensures next <= |p| && ReadField(Text(width), p[off..]) == (Word(s), p[next..])
  {
    if off + width > |p| { return [], off; }
    Window(p, off, width);
    s := p[off..off + width];
    s := Trim(s);
    next := off + width;
  }

  /** read_u32 */
  method ReadU32(p: Bytes, off: nat) returns (v: uint32, next: nat)
    requires off <= |p|
    ensures next <= |p| && ReadCount(p[off..]) == (v, p[next..])
  {
    if off + 4 > |p| { return 0, off; }
    Window(p, off, 4);
    assert p[off..][0..4] == p[off..][..4];
    v := Host32(p, off);
    next := off + 4;
  }

  /** read_u8 */
  method ReadU8(p: Bytes, off: nat) returns (v: byte, next: nat)
    requires off <= |p|
    ensures next <= |p| && ReadField(Flag, p[off..]) == (Number(v), p[next..])
  {
    if off >= |p| { return 0, off; }
    Window(p, off, 1);
    v := p[off];
    next := off + 1;
  }

  /** read_i64 */
  method ReadI64(p: Bytes, off: nat) returns (v: Image, next: nat)
    requires off <= |p|
    ensures next <= |p| && ReadField(Stamp, p[off..]) == (Moment(v), p[next..])
  {
    if off + 8 > |p| { return Zeros(8), off; }
    Window(p, off, 8);
    v := SwapIn(p[off..off + 8]);
    next := off + 8;
  }

  // ---------------------------------------------------------------- whole records

  /** The readers called one after the other read the record. */
  lemma {:induction false} ReadThen(f: Field, fields: seq<Field>, p: Bytes, a: Arg, q: Bytes, row: seq<Arg>,
                                    rest: Bytes)
    requires ReadField(f, p) == (a, q) && ReadFields(fields, q) == (row, rest)
    ensures ReadFields([f] + fields, p) == ([a] + row, rest)
  {
    assert ([f] + fields)[1..] == fields;
  }

  lemma {:induction false} Read1(f: Field, p: Bytes, a: Arg, q: Bytes)
    requires ReadField(f, p) == (a, q)
    ensures ReadFields([f], p) == ([a], q)
  {
    ReadThen(f, [], p, a, q, [], q);
    assert [f] + [] == [f] && [a] + [] == [a];
  }

  lemma {:induction false} Read2(f: Field, g: Field, p: Bytes, a: Arg, q: Bytes, b: Arg, r: Bytes)
    requires ReadField(f, p) == (a, q) && ReadField(g, q) == (b, r)
    ensures ReadFields([f, g], p) == ([a, b], r)
  {
    Read1(g, q, b, r);
    ReadThen(f, [g], p, a, q, [b], r);
    assert [f] + [g] == [f, g] && [a] + [b] == [a, b];
  }

  lemma {:induction false} Read3(f: Field, g: Field, h: Field, p: Bytes, a: Arg, q: Bytes, b: Arg, r: Bytes, c: Arg,
                                 s: Bytes)
    requires ReadField(f, p) == (a, q) && ReadField(g, q) == (b, r) && ReadField(h, r) == (c, s)
    ensures ReadFields([f, g, h], p) == ([a, b, c], s)
  {
    Read2(g, h, q, b, r, c, s);
    ReadThen(f, [g, h], p, a, q, [b, c], s);
    assert [f] + [g, h] == [f, g, h] && [a] + [b, c] == [a, b, c];
  }

  method ReadId(p: Bytes, off: nat) returns (row: seq<Arg>, next: nat)
    requires off <= |p|
    ensures next <= |p| && ReadFields(ID, p[off..]) == (row, p[next..])
  {
    var uuid;
    uuid, next := ReadFixed(p, off, 36);
    row := [Word(uuid)];
    Read1(Text(36), p[off..], Word(uuid), p[next..]);
  }

  method ReadAccount(p: Bytes, off: nat) returns (row: seq<Arg>, next: nat)
    requires off <= |p|
    ensures next <= |p| && ReadFields(ACCOUNT, p[off..]) == (row, p[next..])
    ensures |row| == 2 && row[0].Word?
  {
    var uuid, o1 := ReadFixed(p, off, 36);
    var name, o2 := ReadFixed(p, o1, 32);
    row, next := [Word(uuid), Word(name)], o2;
    Read2(Text(36), Text(32), p[off..], Word(uuid), p[o1..], Word(name), p[o2..]);
  }

  method ReadStatus(p: Bytes, off: nat) returns (row: seq<Arg>, next: nat)
    requires off <= |p|
    ensures next <= |p| && ReadFields(STATUS, p[off..]) == (row, p[next..])
  {
    var uuid, o1 := ReadFixed(p, off, 36);
    var name, o2 := ReadFixed(p, o1, 32);
    var status, o3 := ReadU8(p, o2);
    row, next := [Word(uuid), Word(name), Number(status)], o3;
    Read3(Text(36), Text(32), Flag, p[off..], Word(uuid), p[o1..], Word(name), p[o2..], Number(status), p[o3..]);
  }

  method ReadPlace(p: Bytes, off: nat) returns (row: seq<Arg>, next: nat)
    requires off <= |p|
    ensures next <= |p| && ReadFields(PLACE, p[off..]) == (row, p[next..])
  {
    var uuid, o1 := ReadFixed(p, off, 36);
    var name, o2 := ReadFixed(p, o1, 32);
    var text, o3 := ReadFixed(p, o2, 255);
    row, next := [Word(uuid), Word(name), Word(text)], o3;
    Read3(Text(36), Text(32), Text(255), p[off..], Word(uuid), p[o1..], Word(name), p[o2..], Word(text), p[o3..]);
  }

  method ReadNote(p: Bytes, off: nat) returns (row: seq<Arg>, next: nat)
    requires off <= |p|
    ensures next <= |p| && ReadFields(NOTE, p[off..]) == (row, p[next..])
  {
    var sender, o1 := ReadFixed(p, off, 36);
    var body, o2 := ReadFixed(p, o1, 512);
    row, next := [Word(sender), Word(body)], o2;
    Read2(Text(36), Text(512), p[off..], Word(sender), p[o1..], Word(body), p[o2..]);
  }

  /** Two ids, a time and a body: replies and private messages. */
  method ReadPost(p: Bytes, off: nat) returns (row: seq<Arg>, next: nat)
    requires off <= |p|
    ensures next <= |p| && ReadFields(POST, p[off..]) == (row, p[next..])
    ensures |row| == 4
  {
    var first, o1 := ReadFixed(p, off, 36);
    var second, o2 := ReadFixed(p, o1, 36);
    var time, o3 := ReadI64(p, o2);
    var body, o4 := ReadFixed(p, o3, 512);
    row, next := [Word(first), Word(second), Moment(time), Word(body)], o4;
    Read2(Stamp, Text(512), p[o2..], Moment(time), p[o3..], Word(body), p[o4..]);
    ReadThen(Text(36), [Stamp, Text(512)], p[o1..], Word(second), p[o2..], [Moment(time), Word(body)], p[o4..]);
    ReadThen(Text(36), [Text(36)] + [Stamp, Text(512)], p[off..], Word(first), p[o1..],
             [Word(second)] + [Moment(time), Word(body)], p[o4..]);
    assert POST == [Text(36)] + ([Text(36)] + [Stamp, Text(512)]);
    assert row == [Word(first)] + ([Word(second)] + [Moment(time), Word(body)]);
  }

  method ReadTopic(p: Bytes, off: nat) returns (row: seq<Arg>, next: nat)
    requires off <= |p|
    ensures next <= |p| && ReadFields(TOPIC, p[off..]) == (row, p[next..])
  {
    var thread, o1 := ReadFixed(p, off, 36);
    var creator, o2 := ReadFixed(p, o1, 36);
    var time, o3 := ReadI64(p, o2);
    var title, o4 := ReadFixed(p, o3, 32);
    var body, o5 := ReadFixed(p, o4, 512);
    row, next := [Word(thread), Word(creator), Moment(time), Word(title), Word(body)], o5;
    Read3(Stamp, Text(32), Text(512), p[o2..], Moment(time), p[o3..], Word(title), p[o4..], Word(body), p[o5..]);
    ReadThen(Text(36), [Stamp, Text(32), Text(512)], p[o1..], Word(creator), p[o2..],
             [Moment(time), Word(title), Word(body)], p[o5..]);
    ReadThen(Text(36), [Text(36)] + [Stamp, Text(32), Text(512)], p[off..], Word(thread), p[o1..],
             [Word(creator)] + [Moment(time), Word(title), Word(body)], p[o5..]);
    assert TOPIC == [Text(36)] + ([Text(36)] + [Stamp, Text(32), Text(512)]);
    assert row == [Word(thread)] + ([Word(creator)] + [Moment(time), Word(title), Word(body)]);
  }
}
