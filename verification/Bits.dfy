/** An octet as the eight low bits of a 64-bit word, and back, bit by bit. */
module Bits {
  import opened Octets

  /** The number n in the k low bits of a word. */
  function Up(n: nat, k: nat): bv64 {
    if k == 0 then 0 else (Up(n / 2, k - 1) << 1) | (if n % 2 == 1 then 1 else 0)
  }

  /** The number in the k low bits of a word. */
  function Down(v: bv64, k: nat): nat
    decreases k, v
  {
    if k == 0 then 0 else 2 * Down(v >> 1, k - 1) + (if v & 1 == 1 then 1 else 0)
  }

  function Ones(k: nat): bv64 { if k == 0 then 0 else (Ones(k - 1) << 1) | 1 }

  function Pow(k: nat): nat { if k == 0 then 1 else 2 * Pow(k - 1) }

  lemma {:induction false} Eight()
    ensures Ones(8) == 0xFF && Pow(8) == 0x100
  {
    assert Ones(2) == 3 && Pow(2) == 4;
    assert Ones(4) == 0xF && Pow(4) == 16;
    assert Ones(6) == 0x3F && Pow(6) == 64;
  }

  lemma {:induction false} OnesSmall(k: nat)
    requires k <= 8
    ensures Ones(k) <= 0xFF
  {
    assert Ones(1) == 1 && Ones(2) == 3 && Ones(3) == 7;
    assert Ones(4) == 0xF && Ones(5) == 0x1F;
    assert Ones(6) == 0x3F && Ones(7) == 0x7F;
    Eight();
  }

  lemma {:induction false} Shifted(x: bv64, m: bv64, c: bool)
    requires x <= m <= 0xFF
    ensures var v := (x << 1) | (if c then 1 else 0); v >> 1 == x && (v & 1 == 1 <==> c) && v <= (m << 1) | 1
  {
  }

  lemma {:induction false} Masked(v: bv64, m: bv64)
    ensures v & ((m << 1) | 1) == (((v >> 1) & m) << 1) | (if v & 1 == 1 then 1 else 0)
  {
  }

  lemma {:induction false} DownBound(v: bv64, k: nat)
    ensures Down(v, k) < Pow(k)
    decreases k, v
  {
    if k > 0 { DownBound(v >> 1, k - 1); }
  }

  lemma {:induction false} Half(a: nat, c: bool)
    ensures var n := 2 * a + (if c then 1 else 0); n / 2 == a && (n % 2 == 1 <==> c)
  {
  }

  lemma {:induction false} UpOf(a: nat, c: bool, k: nat)
    requires k > 0
    ensures Up(2 * a + (if c then 1 else 0), k) == (Up(a, k - 1) << 1) | (if c then 1 else 0)
  {
    Half(a, c);
  }

  lemma {:induction false} DownOf(x: bv64, m: bv64, c: bool, k: nat, a: nat)
    requires x <= m <= 0xFF && k > 0 && Down(x, k - 1) == a
    ensures (x << 1) | (if c then 1 else 0) <= (m << 1) | 1
    ensures Down((x << 1) | (if c then 1 else 0), k) == 2 * a + (if c then 1 else 0)
  {
    Shifted(x, m, c);
  }

  lemma {:induction false} BothOf(a: nat, c: bool, k: nat, x: bv64, m: bv64)
    requires k > 0 && Up(a, k - 1) == x <= m == Ones(k - 1) <= 0xFF && Down(x, k - 1) == a
    ensures Up(2 * a + (if c then 1 else 0), k) <= Ones(k)
    ensures Down(Up(2 * a + (if c then 1 else 0), k), k) == 2 * a + (if c then 1 else 0)
  {
    UpOf(a, c, k);
    DownOf(x, m, c, k, a);
  }

  /** n fits k bits and comes back from them. */
  predicate Kept(n: nat, k: nat) { Up(n, k) <= Ones(k) && Down(Up(n, k), k) == n }

  lemma {:induction false} KeptOf(a: nat, c: bool, k: nat)
    requires 0 < k <= 8 && Kept(a, k - 1)
    ensures Kept(2 * a + (if c then 1 else 0), k)
  {
    OnesSmall(k - 1);
    BothOf(a, c, k, Up(a, k - 1), Ones(k - 1));
  }

  lemma {:induction false} KeptHalf(n: nat, k: nat)
    requires 0 < k <= 8 && Kept(n / 2, k - 1)
    ensures Kept(n, k)
  {
    var m := 2 * (n / 2) + (if n % 2 == 1 then 1 else 0);
    KeptOf(n / 2, n % 2 == 1, k);
    assert m == n;
  }

  lemma {:induction false} DownUp(n: nat, k: nat)
    requires n < Pow(k) && k <= 8
    ensures Kept(n, k)
    decreases k
  {
    if k > 0 {
      DownUp(n / 2, k - 1);
      KeptHalf(n, k);
    }
  }

  lemma {:induction false} MaskOf(v: bv64, a: nat, k: nat)
    requires k > 0 && Up(a, k - 1) == (v >> 1) & Ones(k - 1)
    ensures Up(2 * a + (if v & 1 == 1 then 1 else 0), k) == v & Ones(k)
  {
    UpOf(a, v & 1 == 1, k);
    Masked(v, Ones(k - 1));
  }

  lemma {:induction false} UpDown(v: bv64, k: nat)
    ensures Up(Down(v, k), k) == v & Ones(k)
    decreases k, v
  {
    if k > 0 {
      UpDown(v >> 1, k - 1);
      MaskOf(v, Down(v >> 1, k - 1), k);
    }
  }

  /** The low octet of a word, and an octet widened to a word. */
  function Low(v: bv64): byte {
    Eight();
    DownBound(v, 8);
    Down(v, 8)
  }

  function Wide(b: byte): (r: bv64)
    ensures r <= 0xFF
  {
    Eight();
    DownUp(b, 8);
    Up(b, 8)
  }

  lemma {:induction false} LowWide(b: byte)
    ensures Low(Wide(b)) == b
  {
    Eight();
    DownUp(b, 8);
  }

  lemma {:induction false} WideLow(v: bv64)
    ensures Wide(Low(v)) == v & 0xFF
  {
    Eight();
    UpDown(v, 8);
  }

  /** The low octet depends on the eight low bits alone. */
  lemma {:induction false} LowSame(u: bv64, v: bv64)
    requires u & 0xFF == v & 0xFF
    ensures Low(u) == Low(v)
  {
    WideLow(u);
    WideLow(v);
    LowWide(Low(u));
    LowWide(Low(v));
  }
}
