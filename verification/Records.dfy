/** Records of typed values: how the server lays them out, how the client reads them back. */
module Records {
  import opened Octets
  import opened Words
  import opened Protocol

  datatype Value = Str(text: Bytes) | At(time: Image) | Mark(flag: byte)

  type Row = seq<Value>

  predicate Fits(v: Value, f: Field) {
    match f
    case Text(w) => v.Str? && |v.text| == w
    case Stamp => v.At?
    case Flag => v.Mark?
  }

  predicate RowFits(row: Row, fields: seq<Field>) {
    |row| == |fields| && forall i | 0 <= i < |row| :: Fits(row[i], fields[i])
  }

  predicate RowsFit(rows: seq<Row>, fields: seq<Field>) {
    forall i | 0 <= i < |rows| :: RowFits(rows[i], fields)
  }

  function EncodeValue(v: Value): Bytes {
    match v
    case Str(text) => text
    case At(time) => Flip(time)
    case Mark(flag) => [flag]
  }

  function Encode(row: Row): Bytes {
    if row == [] then [] else EncodeValue(row[0]) + Encode(row[1..])
  }

  function EncodeRows(rows: seq<Row>): Bytes {
    if rows == [] then [] else Encode(rows[0]) + EncodeRows(rows[1..])
  }

  /** A counted list: the count cast to 32 bits, then the records. */
  function EncodeList(rows: seq<Row>): Bytes {
    Net32(|rows| % TWO32) + EncodeRows(rows)
  }

  lemma {:induction false} EncodeAppend(a: Row, b: Row)
    ensures Encode(a + b) == Encode(a) + Encode(b)
  {
    if a == [] {
      assert a + b == b;
    } else {
      calc {
        Encode(a + b);
        { assert (a + b)[0] == a[0] && (a + b)[1..] == a[1..] + b; }
        EncodeValue(a[0]) + Encode(a[1..] + b);
        { EncodeAppend(a[1..], b); }
        EncodeValue(a[0]) + (Encode(a[1..]) + Encode(b));
        { Associate(EncodeValue(a[0]), Encode(a[1..]), Encode(b)); }
        Encode(a) + Encode(b);
      }
    }
  }

  lemma {:induction false} EncodeRowsAppend(a: seq<Row>, b: seq<Row>)
    ensures EncodeRows(a + b) == EncodeRows(a) + EncodeRows(b)
  {
    if a == [] {
      assert a + b == b;
    } else {
      calc {
        EncodeRows(a + b);
        { assert (a + b)[0] == a[0] && (a + b)[1..] == a[1..] + b; }
        Encode(a[0]) + EncodeRows(a[1..] + b);
        { EncodeRowsAppend(a[1..], b); }
        Encode(a[0]) + (EncodeRows(a[1..]) + EncodeRows(b));
        { Associate(Encode(a[0]), EncodeRows(a[1..]), EncodeRows(b)); }
        EncodeRows(a) + EncodeRows(b);
      }
    }
  }

  lemma {:induction false} EncodeRowsSnoc(rows: seq<Row>, row: Row)
    ensures EncodeRows(rows + [row]) == EncodeRows(rows) + Encode(row)
  {
    EncodeRowsAppend(rows, [row]);
    assert EncodeRows([row]) == Encode(row) + EncodeRows([]);
  }

  lemma {:induction false} EncodeWidth(row: Row, fields: seq<Field>)
    requires RowFits(row, fields)
    ensures |Encode(row)| == Width(fields)
  {
    if row != [] {
      assert Fits(row[0], fields[0]);
      EncodeWidth(row[1..], fields[1..]);
    }
  }

  lemma {:induction false} OneMore(n: nat, w: nat)
    requires n > 0
    ensures n * w == w + (n - 1) * w
    ensures 0 <= (n - 1) * w
  {
  }

  lemma {:induction false} EncodeRowsWidth(rows: seq<Row>, fields: seq<Field>)
    requires RowsFit(rows, fields)
    ensures |EncodeRows(rows)| == |rows| * Width(fields)
  {
    if rows != [] {
      EncodeWidth(rows[0], fields);
      EncodeRowsWidth(rows[1..], fields);
      OneMore(|rows|, Width(fields));
    }
  }

  lemma {:induction false} LayoutWide(code: uint16)
    requires LayoutOf(code).Counted?
    ensures Width(LayoutOf(code).fields) >= 1
  {
    Widths();
  }

  lemma {:induction false} AtLeast(n: nat, w: nat)
    requires w >= 1
    ensures n <= n * w
  {
  }

  lemma {:induction false} PlainList(rows: seq<Row>, n: uint32)
    requires |rows| == n
    ensures EncodeList(rows) == Net32(n) + EncodeRows(rows)
  {
  }

  lemma {:induction false} CountBack(rows: seq<Row>, n: uint32)
    requires |rows| == n
    ensures Host32(EncodeList(rows), 0) == n
  {
    PlainList(rows, n);
    Net32Front(n, EncodeRows(rows));
  }

  lemma {:induction false} ListWidth(rows: seq<Row>, fields: seq<Field>)
    requires RowsFit(rows, fields) && Width(fields) >= 1
    requires |EncodeList(rows)| < TWO32
    ensures |rows| < TWO32
    ensures |EncodeList(rows)| == 4 + Host32(EncodeList(rows), 0) * Width(fields)
  {
    EncodeRowsWidth(rows, fields);
    AtLeast(|rows|, Width(fields));
    CountBack(rows, |rows|);
  }

  /** A list of well-typed records is a well-formed payload, as long as its size fits the header. */
  lemma {:induction false} ListWellFormed(code: uint16, rows: seq<Row>)
    requires LayoutOf(code).Counted? && RowsFit(rows, LayoutOf(code).fields)
    requires Small(Packet(code, EncodeList(rows)))
    ensures WellFormed(Packet(code, EncodeList(rows)))
    ensures |rows| < TWO32 && Host32(EncodeList(rows), 0) == |rows|
  {
    LayoutWide(code);
    ListWidth(rows, LayoutOf(code).fields);
    CountBack(rows, |rows|);
  }

  // ---------------------------------------------------------------- the client's readers

  /** What the client's readers return. */
  datatype Arg = Word(text: Bytes) | Moment(time: Image) | Number(n: int)

  /**
   * read_fixed, read_i64 and read_u8 on the bytes from the cursor on, and the bytes after it:
   * when too few are left the reader answers a default and the cursor stays.
   */
  function ReadField(f: Field, p: Bytes): (Arg, Bytes) {
    match f
    case Text(w) => if w > |p| then (Word([]), p) else (Word(Trim(p[..w])), p[w..])
    case Stamp => if 8 > |p| then (Moment(Zeros(8)), p) else (Moment(Flip(p[..8])), p[8..])
    case Flag => if p == [] then (Number(0), p) else (Number(p[0]), p[1..])
  }

  function ReadFields(fields: seq<Field>, p: Bytes): (seq<Arg>, Bytes) {
    if fields == [] then ([], p) else
      var (a, p1) := ReadField(fields[0], p);
      var (rest, p2) := ReadFields(fields[1..], p1);
      ([a] + rest, p2)
  }

  function ReadRows(n: nat, fields: seq<Field>, p: Bytes): (seq<seq<Arg>>, Bytes) {
    if n == 0 then ([], p) else
      var (row, p1) := ReadFields(fields, p);
      var (rest, p2) := ReadRows(n - 1, fields, p1);
      ([row] + rest, p2)
  }

  /** read_u32 */
  function ReadCount(p: Bytes): (uint32, Bytes) {
    if 4 > |p| then (0, p) else (Host32(p, 0), p[4..])
  }

  /** The fields of a packet as the client takes them apart, and the bytes it leaves unread. */
  function Decode(p: Packet): (seq<seq<Arg>>, Bytes) {
    match LayoutOf(p.code)
    case Once(fields) =>
      var (row, rest) := ReadFields(fields, p.payload);
      ([row], rest)
    case Counted(fields) =>
      var (n, rest) := ReadCount(p.payload);
      ReadRows(n, fields, rest)
    case NoLayout => ([], p.payload)
  }

  /** A server value as the client sees it: text stops at its first NUL. */
  function View(v: Value): Arg {
    match v
    case Str(text) => Word(Trim(text))
    case At(time) => Moment(time)
    case Mark(flag) => Number(flag)
  }

  function ViewRow(row: Row): seq<Arg> {
    if row == [] then [] else [View(row[0])] + ViewRow(row[1..])
  }

  function ViewRows(rows: seq<Row>): seq<seq<Arg>> {
    if rows == [] then [] else [ViewRow(rows[0])] + ViewRows(rows[1..])
  }

  lemma {:induction false} ViewsAt(rows: seq<Row>)
    ensures |ViewRows(rows)| == |rows|
    ensures forall i | 0 <= i < |rows| :: ViewRows(rows)[i] == ViewRow(rows[i])
  {
    if rows != [] {
      ViewsAt(rows[1..]);
      assert forall i | 1 <= i < |rows| :: rows[i] == rows[1..][i - 1];
    }
  }

  /** Records that are seen one by one as the given arguments. */
  lemma {:induction false} ViewsAre(rows: seq<Row>, views: seq<seq<Arg>>)
    requires |views| == |rows| && forall i | 0 <= i < |rows| :: ViewRow(rows[i]) == views[i]
    ensures ViewRows(rows) == views
  {
    ViewsAt(rows);
  }

  lemma {:induction false} View3(a: Value, b: Value, c: Value)
    ensures ViewRow([a, b, c]) == [View(a), View(b), View(c)]
  {
    var row: Row := [a, b, c];
    assert row[1..] == [b, c] && row[1..][1..] == [c] && row[1..][1..][1..] == [];
    assert ViewRow([c]) == [View(c)] + ViewRow([c][1..]);
    assert ViewRow([b, c]) == [View(b)] + ViewRow([b, c][1..]);
  }

  lemma {:induction false} ViewThen(a: Value, rest: Row)
    ensures ViewRow([a] + rest) == [View(a)] + ViewRow(rest)
  {
    assert ([a] + rest)[1..] == rest;
  }

  lemma {:induction false} View4(a: Value, b: Value, c: Value, d: Value)
    ensures ViewRow([a, b, c, d]) == [View(a), View(b), View(c), View(d)]
  {
    View3(b, c, d);
    ViewThen(a, [b, c, d]);
    assert [a] + [b, c, d] == [a, b, c, d];
  }

  lemma {:induction false} View5(a: Value, b: Value, c: Value, d: Value, e: Value)
    ensures ViewRow([a, b, c, d, e]) == [View(a), View(b), View(c), View(d), View(e)]
  {
    View4(b, c, d, e);
    ViewThen(a, [b, c, d, e]);
    assert [a] + [b, c, d, e] == [a, b, c, d, e];
  }

  lemma {:induction false} Front<T>(a: seq<T>, b: seq<T>)
    ensures (a + b)[..|a|] == a && (a + b)[|a|..] == b
  {
  }

  lemma {:induction false} ReadFieldBack(f: Field, v: Value, rest: Bytes)
    requires Fits(v, f)
    ensures ReadField(f, EncodeValue(v) + rest) == (View(v), rest)
  {
    Front(EncodeValue(v), rest);
    match v
    case Str(_) =>
    case At(time) => FlipTwice(time);
    case Mark(flag) =>
  }

  lemma {:induction false} ReadFieldsBack(fields: seq<Field>, row: Row, rest: Bytes)
    requires RowFits(row, fields)
    ensures ReadFields(fields, Encode(row) + rest) == (ViewRow(row), rest)
  {
    if row == [] {
      assert Encode(row) + rest == rest;
    } else {
      var here, there := EncodeValue(row[0]), Encode(row[1..]);
      Associate(here, there, rest);
      assert Fits(row[0], fields[0]);
      ReadFieldBack(fields[0], row[0], there + rest);
      ReadFieldsBack(fields[1..], row[1..], rest);
    }
  }

  lemma {:induction false} ReadRowsBack(fields: seq<Field>, rows: seq<Row>, rest: Bytes)
    requires RowsFit(rows, fields)
    ensures ReadRows(|rows|, fields, EncodeRows(rows) + rest) == (ViewRows(rows), rest)
  {
    if rows == [] {
      assert EncodeRows(rows) + rest == rest;
    } else {
      var here, there := Encode(rows[0]), EncodeRows(rows[1..]);
      Associate(here, there, rest);
      ReadFieldsBack(fields, rows[0], there + rest);
      ReadRowsBack(fields, rows[1..], rest);
    }
  }

  /** A counted payload decodes to exactly the records it was made from, in order. */
  lemma {:induction false} ListBack(code: uint16, rows: seq<Row>)
    requires LayoutOf(code).Counted? && RowsFit(rows, LayoutOf(code).fields)
    requires Small(Packet(code, EncodeList(rows)))
    ensures Decode(Packet(code, EncodeList(rows))) == (ViewRows(rows), [])
  {
    ListWellFormed(code, rows);
    Front(Net32(|rows|), EncodeRows(rows));
    assert EncodeRows(rows) + [] == EncodeRows(rows);
    ReadRowsBack(LayoutOf(code).fields, rows, []);
  }

  lemma {:induction false} OnceBack(code: uint16, row: Row)
    requires LayoutOf(code).Once? && RowFits(row, LayoutOf(code).fields)
    ensures WellFormed(Packet(code, Encode(row)))
    ensures Decode(Packet(code, Encode(row))) == ([ViewRow(row)], [])
  {
    EncodeWidth(row, LayoutOf(code).fields);
    assert Encode(row) + [] == Encode(row);
    ReadFieldsBack(LayoutOf(code).fields, row, []);
  }

  lemma {:induction false} FieldsCursor(fields: seq<Field>, p: Bytes)
    requires Width(fields) <= |p|
    ensures ReadFields(fields, p).1 == p[Width(fields)..]
  {
    if fields != [] {
      FieldsCursor(fields[1..], p[FieldWidth(fields[0])..]);
    }
  }

  lemma {:induction false} RowsCursor(n: nat, fields: seq<Field>, p: Bytes)
    requires n * Width(fields) <= |p|
    ensures ReadRows(n, fields, p).1 == p[n * Width(fields)..]
  {
    if n != 0 {
      OneMore(n, Width(fields));
      FieldsCursor(fields, p);
      RowsCursor(n - 1, fields, p[Width(fields)..]);
    }
  }

  /** The client consumes a well-formed payload to its last byte. */
  lemma {:induction false} CursorEnds(p: Packet)
    requires WellFormed(p)
    ensures Decode(p).1 == []
  {
    match LayoutOf(p.code)
    case Once(fields) => FieldsCursor(fields, p.payload);
    case Counted(fields) => RowsCursor(Host32(p.payload, 0), fields, p.payload[4..]);
  }
}
