/** Id supplies exist: enough ids for any server that will ever run. */
module Supply {
  import opened Octets
  import opened Words
  import opened ServerData
  import opened System

  /** v written with n lower-case hexadecimal digits; what does not fit is cut off at the front. */
  function Hex(v: nat, n: nat): (r: Bytes)
    ensures |r| == n && 0 !in r
    decreases n, v
  {
    if n == 0 then [] else Hex(v / 16, n - 1) + [if v % 16 < 10 then 48 + v % 16 else 87 + v % 16]
  }

  function Sixteen(n: nat): (r: nat)
    ensures r >= 1
  {
    if n == 0 then 1 else 16 * Sixteen(n - 1)
  }

  lemma {:induction false} HexInjective(u: nat, v: nat, n: nat)
    requires u < Sixteen(n) && v < Sixteen(n) && Hex(u, n) == Hex(v, n)
    ensures u == v
    decreases n
  {
    if n > 0 {
      assert Hex(u, n)[..n - 1] == Hex(u / 16, n - 1) && Hex(v, n)[..n - 1] == Hex(v / 16, n - 1);
      HexInjective(u / 16, v / 16, n - 1);
      assert Hex(u, n)[n - 1] == Hex(v, n)[n - 1];
    }
  }

  /** The k-th id is k in 36 hexadecimal digits, and the clock stands still. */
  const COUNTER := World(k => Hex(k, 36), _ => Zeros(8))

  /** 36 hexadecimal digits are ids for 16^36 requests. */
  lemma {:induction false} CounterIsSupply(n: nat)
    requires n <= Sixteen(36)
    ensures WorldOk(COUNTER, n)
  {
    forall i: nat, j: nat | i < j < n ensures COUNTER.id(i) != COUNTER.id(j) {
      if Hex(i, 36) == Hex(j, 36) { HexInjective(i, j, 36); }
    }
  }

  lemma {:induction false} SixteenGrows(m: nat, n: nat)
    requires m <= n
    ensures Sixteen(m) <= Sixteen(n)
    decreases n
  {
    if m < n { SixteenGrows(m, n - 1); }
  }

  /** So what is proved of every run is proved of real ones: of every run that serves at most 2^64 requests. */
  lemma {:induction false} SuppliesExist(n: nat)
    requires n <= TWO32 * TWO32
    ensures exists w :: WorldOk(w, n)
  {
    assert Sixteen(2) == 0x100 && Sixteen(4) == 0x1_0000 && Sixteen(6) == 0x100_0000;
    assert Sixteen(8) == TWO32 && Sixteen(10) == 0x100_0000_0000 && Sixteen(12) == 0x1_0000_0000_0000;
    assert Sixteen(14) == 0x100_0000_0000_0000;
    assert Sixteen(16) == TWO32 * TWO32;
    SixteenGrows(16, 36);
    CounterIsSupply(n);
  }
}
