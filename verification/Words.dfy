/** Memory images of 16-, 32- and 64-bit words on a little-endian host, and their network byte order. */
module Words {
  import opened Octets
  import opened Bits

  const TWO16: int := 0x1_0000
  const TWO32: int := 0x1_0000_0000

  type uint16 = v: int | 0 <= v < TWO16
  type uint32 = v: int | 0 <= v < TWO32

  /** A 64-bit word (time_t, int64_t or uint64_t) as the eight octets a little-endian host stores for it. */
  type Image = b: Bytes | |b| == 8 witness Zeros(8)

  /** The n low octets of v, most significant first: what memory holds after htons (n = 2) and htonl (n = 4). */
  function Net(v: nat, n: nat): (r: Bytes)
    ensures |r| == n
    decreases n, v
  {
    if n == 0 then [] else Net(v / 0x100, n - 1) + [v % 0x100]
  }

  /** The number that octets spell, most significant first: ntohs and ntohl of bytes in memory. */
  function Host(b: Bytes): nat {
    if b == [] then 0 else Host(b[..|b| - 1]) * 0x100 + b[|b| - 1] as int
  }

  function Span(n: nat): (r: nat)
    ensures r >= 1
  {
    if n == 0 then 1 else 0x100 * Span(n - 1)
  }

  lemma {:induction false} HostBound(b: Bytes)
    ensures Host(b) < Span(|b|)
  {
    if b != [] { HostBound(b[..|b| - 1]); }
  }

  lemma {:induction false} HostNet(v: nat, n: nat)
    requires v < Span(n)
    ensures Host(Net(v, n)) == v
    decreases n
  {
    if n != 0 {
      HostNet(v / 0x100, n - 1);
      assert Net(v, n)[..n - 1] == Net(v / 0x100, n - 1);
    }
  }

  lemma Spans()
    ensures Span(2) == TWO16 && Span(4) == TWO32
  {
    assert Span(1) == 0x100;
    assert Span(3) == 0x100 * Span(2);
  }

  function Net16(v: uint16): (r: Bytes)
    ensures |r| == 2
  {
    Net(v, 2)
  }

  function Net32(v: uint32): (r: Bytes)
    ensures |r| == 4
  {
    Net(v, 4)
  }

  /** The wire's byte order: the most significant octet comes first. */
  lemma {:induction false} NetDigits(v: uint16, w: uint32)
    ensures Net16(v) == [v / 0x100, v % 0x100]
    ensures Net32(w) == [w / 0x100_0000, w / 0x1_0000 % 0x100, w / 0x100 % 0x100, w % 0x100]
  {
    NetOne(v);
    NetTwo(v);
    NetTwo(w / 0x1_0000);
    assert Net(w / 0x100, 3) == Net(w / 0x100 / 0x100, 2) + [w / 0x100 % 0x100];
  }

  lemma {:induction false} NetOne(v: nat)
    ensures Net(v, 1) == [v % 0x100]
  {
    assert Net(v / 0x100, 0) == [];
  }

  lemma {:induction false} NetTwo(v: nat)
    ensures Net(v, 2) == [v / 0x100 % 0x100, v % 0x100]
  {
    NetOne(v / 0x100);
  }

  /** ntohs of the two bytes at off. */
  function Host16(p: Bytes, off: nat): (r: uint16)
    requires off + 2 <= |p|
    ensures r == Host(p[off..off + 2])
  {
    HostBound(p[off..off + 2]);
    Spans();
    Host(p[off..off + 2])
  }

  /** ntohl of the four bytes at off. */
  function Host32(p: Bytes, off: nat): (r: uint32)
    requires off + 4 <= |p|
    ensures r == Host(p[off..off + 4])
  {
    HostBound(p[off..off + 4]);
    Spans();
    Host(p[off..off + 4])
  }

  lemma {:induction false} Net16Back(v: uint16, p: Bytes, off: nat)
    requires off + 2 <= |p| && p[off..off + 2] == Net16(v)
    ensures Host16(p, off) == v
  {
    Spans();
    HostNet(v, 2);
  }

  lemma {:induction false} Net32Back(v: uint32, p: Bytes, off: nat)
    requires off + 4 <= |p| && p[off..off + 4] == Net32(v)
    ensures Host32(p, off) == v
  {
    Spans();
    HostNet(v, 4);
  }

  lemma {:induction false} Net32Front(v: uint32, rest: Bytes)
    ensures Host32(Net32(v) + rest, 0) == v
  {
    assert (Net32(v) + rest)[0..4] == Net32(v);
    Net32Back(v, Net32(v) + rest, 0);
  }

  /** htonl on a 32-bit word. */
  function Swap32(v: bv32): bv32 {
    ((v & 0xFF) << 24) | ((v & 0xFF00) << 8) | ((v & 0xFF_0000) >> 8) | (v >> 24)
  }

  /** The server's htonll: the two halves swapped one by one and exchanged. */
  function Htonll(v: bv64): bv64 {
    ((Swap32((v & 0xFFFF_FFFF) as bv32) as bv64) << 32) | (Swap32((v >> 32) as bv32) as bv64)
  }

  /** The client's byte swap: eight masks, eight shifts. */
  function MaskSwap(u: bv64): bv64 {
    ((u & 0x0000_0000_0000_00FF) << 56)
    | ((u & 0x0000_0000_0000_FF00) << 40)
    | ((u & 0x0000_0000_00FF_0000) << 24)
    | ((u & 0x0000_0000_FF00_0000) << 8)
    | ((u & 0x0000_00FF_0000_0000) >> 8)
    | ((u & 0x0000_FF00_0000_0000) >> 24)
    | ((u & 0x00FF_0000_0000_0000) >> 40)
    | ((u & 0xFF00_0000_0000_0000) >> 56)
  }

  /** The server's swap and the client's swap are one function, and it is its own inverse. */
  lemma SwapsAgree(v: bv64)
    ensures Htonll(v) == MaskSwap(v)
    ensures MaskSwap(MaskSwap(v)) == v
    ensures Htonll(Htonll(v)) == v
  {
    MasksAgree(v);
    MasksAgree(MaskSwap(v));
    MaskInvolution(v);
  }

  lemma MasksAgree(v: bv64)
    ensures Htonll(v) == MaskSwap(v)
  {
  }

  lemma MaskInvolution(v: bv64)
    ensures MaskSwap(MaskSwap(v)) == v
  {
  }

  function Image64(v: bv64): Image {
    [Low(v), Low(v >> 8), Low(v >> 16), Low(v >> 24), Low(v >> 32), Low(v >> 40), Low(v >> 48), Low(v >> 56)]
  }

  function Join64(a: bv64, b: bv64, c: bv64, d: bv64, e: bv64, f: bv64, g: bv64, h: bv64): bv64 {
    a | (b << 8) | (c << 16) | (d << 24) | (e << 32) | (f << 40) | (g << 48) | (h << 56)
  }

  /** The word that memcpy of eight bytes yields. */
  function Load64(p: Image): bv64 {
    Join64(Wide(p[0]), Wide(p[1]), Wide(p[2]), Wide(p[3]), Wide(p[4]), Wide(p[5]), Wide(p[6]), Wide(p[7]))
  }

  lemma JoinBack(v: bv64)
    ensures Join64(v & 0xFF, (v >> 8) & 0xFF, (v >> 16) & 0xFF, (v >> 24) & 0xFF,
                   (v >> 32) & 0xFF, (v >> 40) & 0xFF, (v >> 48) & 0xFF, (v >> 56) & 0xFF) == v
  {
  }

  lemma LoadImage(v: bv64)
    ensures Load64(Image64(v)) == v
  {
    JoinBack(v);
    WideLow(v);
    WideLow(v >> 8);
    WideLow(v >> 16);
    WideLow(v >> 24);
    WideLow(v >> 32);
    WideLow(v >> 40);
    WideLow(v >> 48);
    WideLow(v >> 56);
  }

  /** append_i64 and read_i64 at the level of octets: the image back to front. */
  function Flip(b: Image): Image {
    [b[7], b[6], b[5], b[4], b[3], b[2], b[1], b[0]]
  }

  /** The octets of a word, one by one. */
  predicate Octets64(v: bv64, a: bv64, b: bv64, c: bv64, d: bv64, e: bv64, f: bv64, g: bv64, h: bv64) {
    && v & 0xFF == a && (v >> 8) & 0xFF == b && (v >> 16) & 0xFF == c && (v >> 24) & 0xFF == d
    && (v >> 32) & 0xFF == e && (v >> 40) & 0xFF == f && (v >> 48) & 0xFF == g && (v >> 56) & 0xFF == h
  }

  lemma {:induction false} OctetsOf(v: bv64)
    ensures Octets64(v, v & 0xFF, (v >> 8) & 0xFF, (v >> 16) & 0xFF, (v >> 24) & 0xFF,
                     (v >> 32) & 0xFF, (v >> 40) & 0xFF, (v >> 48) & 0xFF, (v >> 56) & 0xFF)
  {
  }

  lemma {:induction false} SwappedOctets(v: bv64, a: bv64, b: bv64, c: bv64, d: bv64, e: bv64, f: bv64, g: bv64,
                                         h: bv64)
    requires Octets64(v, a, b, c, d, e, f, g, h)
    ensures Octets64(Htonll(v), h, g, f, e, d, c, b, a)
  {
  }

  lemma {:induction false} MaskedTwice(u: bv64, a: bv64)
    requires u & 0xFF == a
    ensures a & 0xFF == u & 0xFF
  {
  }

  lemma {:induction false} OctetLow(u: bv64, a: bv64)
    requires u & 0xFF == a
    ensures Low(u) == Low(a)
  {
    MaskedTwice(u, a);
    LowSame(u, a);
  }

  lemma {:induction false} LowHalf(v: bv64, a: bv64, b: bv64, c: bv64, d: bv64)
    requires v & 0xFF == a && (v >> 8) & 0xFF == b && (v >> 16) & 0xFF == c && (v >> 24) & 0xFF == d
    ensures Low(v) == Low(a) && Low(v >> 8) == Low(b) && Low(v >> 16) == Low(c) && Low(v >> 24) == Low(d)
  {
    OctetLow(v, a);
    OctetLow(v >> 8, b);
    OctetLow(v >> 16, c);
    OctetLow(v >> 24, d);
  }

  lemma {:induction false} HighHalf(v: bv64, e: bv64, f: bv64, g: bv64, h: bv64)
    requires (v >> 32) & 0xFF == e && (v >> 40) & 0xFF == f && (v >> 48) & 0xFF == g && (v >> 56) & 0xFF == h
    ensures Low(v >> 32) == Low(e) && Low(v >> 40) == Low(f) && Low(v >> 48) == Low(g) && Low(v >> 56) == Low(h)
  {
    OctetLow(v >> 32, e);
    OctetLow(v >> 40, f);
    OctetLow(v >> 48, g);
    OctetLow(v >> 56, h);
  }

  /** The image of a word, octet by octet. */
  lemma {:induction false} ImageOf(v: bv64, a: bv64, b: bv64, c: bv64, d: bv64, e: bv64, f: bv64, g: bv64, h: bv64)
    requires Octets64(v, a, b, c, d, e, f, g, h)
    ensures Image64(v) == [Low(a), Low(b), Low(c), Low(d), Low(e), Low(f), Low(g), Low(h)]
  {
    LowHalf(v, a, b, c, d);
    HighHalf(v, e, f, g, h);
  }

  lemma {:induction false} FlipOctets(v: bv64, a: bv64, b: bv64, c: bv64, d: bv64, e: bv64, f: bv64, g: bv64, h: bv64)
    requires Octets64(v, a, b, c, d, e, f, g, h)
    ensures Image64(Htonll(v)) == Flip(Image64(v))
  {
    SwappedOctets(v, a, b, c, d, e, f, g, h);
    ImageOf(v, a, b, c, d, e, f, g, h);
    ImageOf(Htonll(v), h, g, f, e, d, c, b, a);
  }

  /** append_i64 writes the most significant octet first: the image of htonll(v) is the image of v flipped. */
  lemma {:induction false} AppendFlips(v: bv64)
    ensures Image64(Htonll(v)) == Flip(Image64(v))
  {
    OctetsOf(v);
    FlipOctets(v, v & 0xFF, (v >> 8) & 0xFF, (v >> 16) & 0xFF, (v >> 24) & 0xFF,
               (v >> 32) & 0xFF, (v >> 40) & 0xFF, (v >> 48) & 0xFF, (v >> 56) & 0xFF);
  }

  lemma SwapJoin(a: bv64, b: bv64, c: bv64, d: bv64, e: bv64, f: bv64, g: bv64, h: bv64)
    requires a <= 0xFF && b <= 0xFF && c <= 0xFF && d <= 0xFF
    requires e <= 0xFF && f <= 0xFF && g <= 0xFF && h <= 0xFF
    ensures MaskSwap(Join64(a, b, c, d, e, f, g, h)) == Join64(h, g, f, e, d, c, b, a)
  {
  }

  /** read_i64: the masks applied to the loaded bytes give the word whose image is the bytes flipped. */
  lemma ReadFlips(p: Image)
    ensures MaskSwap(Load64(p)) == Load64(Flip(p))
  {
    SwapJoin(Wide(p[0]), Wide(p[1]), Wide(p[2]), Wide(p[3]), Wide(p[4]), Wide(p[5]), Wide(p[6]), Wide(p[7]));
  }

  /** Every int64 survives the wire, whatever its sign: read_i64 undoes append_i64. */
  lemma Int64Back(v: bv64)
    ensures MaskSwap(Load64(Image64(Htonll(v)))) == v
  {
    LoadImage(Htonll(v));
    SwapsAgree(v);
  }

  lemma FlipTwice(b: Image)
    ensures Flip(Flip(b)) == b
  {
  }

  predicate MadeOf(v: bv64, p: Image) {
    Octets64(v, Wide(p[0]), Wide(p[1]), Wide(p[2]), Wide(p[3]), Wide(p[4]), Wide(p[5]), Wide(p[6]), Wide(p[7]))
  }

  lemma {:induction false} JoinMade(a: bv64, b: bv64, c: bv64, d: bv64, e: bv64, f: bv64, g: bv64, h: bv64)
    requires a <= 0xFF && b <= 0xFF && c <= 0xFF && d <= 0xFF
    requires e <= 0xFF && f <= 0xFF && g <= 0xFF && h <= 0xFF
    ensures Octets64(Join64(a, b, c, d, e, f, g, h), a, b, c, d, e, f, g, h)
  {
  }

  lemma {:induction false} LoadOctets(p: Image)
    ensures MadeOf(Load64(p), p)
  {
    JoinMade(Wide(p[0]), Wide(p[1]), Wide(p[2]), Wide(p[3]), Wide(p[4]), Wide(p[5]), Wide(p[6]), Wide(p[7]));
  }

  lemma {:induction false} WideInjective(x: byte, y: byte)
    requires Wide(x) == Wide(y)
    ensures x == y
  {
    LowWide(x);
    LowWide(y);
  }

  lemma {:induction false} MadeOfOne(v: bv64, p: Image, q: Image)
    requires MadeOf(v, p) && MadeOf(v, q)
    ensures p == q
  {
    WideInjective(p[0], q[0]);
    WideInjective(p[1], q[1]);
    WideInjective(p[2], q[2]);
    WideInjective(p[3], q[3]);
    WideInjective(p[4], q[4]);
    WideInjective(p[5], q[5]);
    WideInjective(p[6], q[6]);
    WideInjective(p[7], q[7]);
  }

  /** Eight octets survive being loaded into a word and stored again. */
  lemma {:induction false} ImageLoad(p: Image)
    ensures Image64(Load64(p)) == p
  {
    var v := Load64(p);
    LoadImage(v);
    LoadOctets(p);
    LoadOctets(Image64(v));
    MadeOfOne(v, Image64(v), p);
  }

  /** append_i64 on the octets a timestamp has in memory. */
  method SwapOut(time: Image) returns (be: Image)
    ensures be == Flip(time)
  {
    be := Image64(Htonll(Load64(time)));
    ImageLoad(time);
    AppendFlips(Load64(time));
  }

  /** read_i64 on the eight bytes it copies out of a payload. */
  method SwapIn(be: Image) returns (time: Image)
    ensures time == Flip(be)
  {
    time := Image64(MaskSwap(Load64(be)));
    ReadFlips(be);
    ImageLoad(Flip(be));
  }
}
