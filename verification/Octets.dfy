/** Byte strings, the NUL-padded text fields cut out of them, and ordered walks over small collections. */
module Octets {

  /** One octet: uint8_t in vectors, char in std::string and in char arrays. */
  type byte = b: int | 0 <= b < 0x100

  type Bytes = seq<byte>

  function Zeros(n: nat): (r: Bytes)
    ensures |r| == n
    ensures forall i | 0 <= i < n :: r[i] == 0
  {
    seq(n, _ => 0)
  }

  /** The text before the first NUL: trim_padded_name, and what std::string(char*) reads. */
  function Trim(s: Bytes): (r: Bytes)
    ensures r <= s
    ensures 0 !in r
    ensures |r| < |s| ==> s[|r|] == 0
  {
    if s == [] || s[0] == 0 then [] else [s[0]] + Trim(s[1..])
  }

  /** The three promises of Trim leave no choice. */
  lemma {:induction false} TrimUnique(s: Bytes, r: Bytes)
    requires r <= s && 0 !in r
    requires |r| < |s| ==> s[|r|] == 0
    ensures r == Trim(s)
  {
    var t := Trim(s);
    assert forall i | 0 <= i < |t| :: t[i] == s[i] && s[i] != 0;
    assert forall i | 0 <= i < |r| :: r[i] == s[i] && s[i] != 0;
    assert |r| == |t|;
  }

  /** s in a field of n bytes: cut when too long, NUL-padded when too short. */
  function Fixed(s: Bytes, n: nat): (r: Bytes)
    ensures |r| == n
  {
    if n <= |s| then s[..n] else s + Zeros(n - |s|)
  }

  lemma {:induction false} FixedSame(s: Bytes)
    ensures Fixed(s, |s|) == s
  {
  }

  /** What survives a trip through a field of n bytes: s up to its first NUL, or its first n bytes. */
  function Cut(s: Bytes, n: nat): (r: Bytes)
  {
    Trim(if n <= |s| then s[..n] else s)
  }

  /** Padding is undone by trimming. */
  lemma {:induction false} TrimFixed(s: Bytes, n: nat)
    ensures Trim(Fixed(s, n)) == Cut(s, n)
  {
    if |s| < n {
      var t := Trim(s);
      assert t <= Fixed(s, n);
      TrimUnique(Fixed(s, n), t);
    }
  }

  lemma {:induction false} TrimNulFree(s: Bytes)
    requires 0 !in s
    ensures Trim(s) == s
  {
    TrimUnique(s, s);
  }

  lemma {:induction false} TrimFixedName(s: Bytes, n: nat)
    requires 0 !in s
    ensures Trim(Fixed(s, n)) == if n <= |s| then s[..n] else s
  {
    TrimFixed(s, n);
    TrimNulFree(if n <= |s| then s[..n] else s);
  }

  /** Position of the first x in s; |s| plays nullptr. */
  function FirstOf(s: seq<Bytes>, x: Bytes): (r: nat)
    ensures r <= |s|
    ensures r < |s| ==> s[r] == x
    ensures forall i | 0 <= i < r :: s[i] != x
    ensures r < |s| <==> x in s
  {
    if s == [] || s[0] == x then 0 else 1 + FirstOf(s[1..], x)
  }

  lemma {:induction false} FirstOfUnique(s: seq<Bytes>, x: Bytes, r: nat)
    requires r <= |s| && (r < |s| ==> s[r] == x) && forall i | 0 <= i < r :: s[i] != x
    ensures r == FirstOf(s, x)
  {
    var k := FirstOf(s, x);
    assert k >= r && r >= k;
  }

  /** A first match stays the first match when the sequence grows at its end. */
  lemma {:induction false} FirstOfGrows(s: seq<Bytes>, t: seq<Bytes>, x: Bytes)
    requires s <= t && x in s
    ensures FirstOf(t, x) == FirstOf(s, x) < |s|
  {
    var i, j := FirstOf(s, x), FirstOf(t, x);
    assert t[i] == x;
    if i < j || j < i { assert false; }
  }

  ghost predicate NoDuplicates<T>(s: seq<T>)
  {
    forall i, j | 0 <= i < j < |s| :: s[i] != s[j]
  }

  lemma {:induction false} DistinctSnoc<T>(s: seq<T>, x: T)
    requires NoDuplicates(s)
    ensures NoDuplicates(s + [x]) <==> x !in s
  {
    if x in s {
      var i :| 0 <= i < |s| && s[i] == x;
      assert (s + [x])[i] == (s + [x])[|s|];
    }
  }

  ghost predicate Increasing(s: seq<int>)
  {
    forall i, j | 0 <= i < j < |s| :: s[i] < s[j]
  }

  lemma {:induction false} PickLeast(s: set<int>) returns (m: int)
    requires s != {}
    ensures m in s && forall x | x in s :: m <= x
    decreases |s|
  {
    assert (forall x :: x !in s) ==> s == {};
    m :| m in s;
    var rest := s - {m};
    assert forall x | x in s :: x in rest || x == m;
    if rest != {} {
      var n := PickLeast(rest);
      if n < m { m := n; }
    }
  }

  function Least(s: set<int>): (m: int)
    requires s != {}
    ensures m in s && forall x | x in s :: m <= x
  {
    assert exists m :: m in s && forall x | x in s :: m <= x by { var m := PickLeast(s); }
    var m :| m in s && forall x | x in s :: m <= x;
    m
  }

  /** The keys of a std::map in the order in which a range-for visits them. */
  function Ascending(s: set<int>): (r: seq<int>)
    ensures forall x :: x in r <==> x in s
    ensures Increasing(r)
  {
    if s == {} then [] else
      var m := Least(s);
      var rest := Ascending(s - {m});
      assert forall i | 0 <= i < |rest| :: rest[i] in rest;
      [m] + rest
  }

  lemma {:induction false} IncreasingNoDuplicates(s: seq<int>)
    requires Increasing(s)
    ensures NoDuplicates(s)
  {
  }

  lemma {:induction false} Associate<T>(a: seq<T>, b: seq<T>, c: seq<T>)
    ensures a + b + c == a + (b + c)
  {
  }

  /** A stream put together from the chunks it came in. */
  function Joined(chunks: seq<Bytes>): Bytes {
    if chunks == [] then [] else Joined(chunks[..|chunks| - 1]) + chunks[|chunks| - 1]
  }
}
