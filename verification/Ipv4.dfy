/** IPv4 addresses as big-endian byte buffers, prefix masks and address blocks,
    and the arithmetic that links the byte view to the 32-bit value. */
module Ipv4 {

  type Byte = x: int | 0 <= x < 256

  type Ip = s: seq<Byte> | |s| == 4 witness [0, 0, 0, 0]

  // The placeholder gateway the controller starts from.
  const ZERO_IP: Ip := [0, 0, 0, 0]

  /** An address block as Go's net.IPNet stores it: an address and a mask. */
  datatype IPNet = IPNet(ip: Ip, mask: Ip)

  /** The byte with `k` leading one bits. */
  function MaskByte(k: nat): (m: Byte)
    requires k <= 8
  {
    Pow2Grows(8 - k, 8);
    256 - Pow2(8 - k)
  }

  /** Bitwise conjunction, bit by bit from the low end. */
  function And(x: nat, m: nat): (r: nat)
    ensures r <= x
  {
    if x == 0 || m == 0 then 0 else 2 * And(x / 2, m / 2) + if m % 2 == 1 then x % 2 else 0
  }

  /** How many of the first `len` bits fall into byte `i`. */
  function BitsInByte(len: nat, i: nat): (k: nat)
    ensures k <= 8
  {
    if len <= 8 * i then 0 else if len >= 8 * i + 8 then 8 else len - 8 * i
  }

  /** The contiguous mask of prefix length `len` over `n` bytes (section 3.1 of RFC 4632). */
  function PrefixMask(n: nat, len: nat): (m: seq<Byte>)
    ensures |m| == n
  {
    seq(n, i requires 0 <= i < n => MaskByte(BitsInByte(len, i)))
  }

  function Masked(a: Ip, m: Ip): Ip {
    seq(4, i requires 0 <= i < 4 => And(a[i], m[i]))
  }

  /** What net.ParseCIDR returns for a well-formed "a.b.c.d/len". */
  function Network(addr: Ip, len: nat): IPNet
    requires len <= 32
  {
    IPNet(Masked(addr, PrefixMask(4, len)), PrefixMask(4, len))
  }

  /** `net` carries the mask of prefix length `len`. */
  predicate HasPrefix(net: IPNet, len: nat) {
    len <= 32 && net.mask == PrefixMask(4, len)
  }

  /** Every block built by net.ParseCIDR has a contiguous mask. */
  ghost predicate Contiguous(net: IPNet) {
    exists len: nat :: HasPrefix(net, len)
  }

  /** `a` and `b` agree on the bits selected by `m`. */
  predicate Agree(a: seq<Byte>, b: seq<Byte>, m: seq<Byte>)
    requires |a| == |b| == |m|
  {
    forall i :: 0 <= i < |a| ==> And(a[i], m[i]) == And(b[i], m[i])
  }

  /** net.IPNet.Contains. */
  predicate Contains(net: IPNet, a: Ip) {
    Agree(a, net.ip, net.mask)
  }

  /** Some address lies in both blocks. */
  ghost predicate Overlap(p: IPNet, q: IPNet) {
    exists a: Ip :: Contains(p, a) && Contains(q, a)
  }

  // ------------------------------------------------------------ values

  function Pow2(k: nat): (r: nat)
    ensures r > 0
  {
    if k == 0 then 1 else 2 * Pow2(k - 1)
  }

  function Pow256(n: nat): (r: nat)
    ensures r > 0
  {
    if n == 0 then 1 else 256 * Pow256(n - 1)
  }

  function Last(s: seq<Byte>): Byte
    requires s != []
  {
    s[|s| - 1]
  }

  function Init(s: seq<Byte>): seq<Byte>
    requires s != []
  {
    s[..|s| - 1]
  }

  /** The number a buffer of any length denotes, most significant byte first. */
  function Value(s: seq<Byte>): nat {
    if s == [] then 0 else 256 * Value(Init(s)) + Last(s)
  }

  lemma {:induction false} ValueBound(s: seq<Byte>)
    ensures Value(s) < Pow256(|s|)
  {
    if s != [] {
      ValueBound(Init(s));
    }
  }

  /** Distinct buffers of one length denote distinct numbers. */
  lemma {:induction false} ValueInjective(a: seq<Byte>, b: seq<Byte>)
    requires |a| == |b| && Value(a) == Value(b)
    ensures a == b
  {
    if a != [] {
      assert Value(Init(a)) == Value(Init(b)) && Last(a) == Last(b);
      ValueInjective(Init(a), Init(b));
      assert a == Init(a) + [Last(a)] && b == Init(b) + [Last(b)];
    }
  }

  // ------------------------------------------------------------ arithmetic

  lemma MulStep(d: nat, h0: nat, h1: nat)
    requires h0 < h1
    ensures d * h1 >= d * h0 + d
  {
    var k := h1 - h0 - 1;
    assert d * h1 == d * (h0 + 1 + k) == d * h0 + d + d * k;
  }

  /** Quotient and remainder are determined by the number. */
  lemma QuotientUnique(x: nat, d: nat, q: nat, r: nat)
    requires d > 0 && x == d * q + r && r < d
    ensures x / d == q && x % d == r
  {
    var q', r' := x / d, x % d;
    assert x == d * q' + r';
    if q < q' {
      MulStep(d, q, q');
    } else if q' < q {
      MulStep(d, q', q);
    }
  }

  lemma MulAssoc(a: nat, b: nat, c: nat)
    ensures (a * b) * c == a * (b * c)
  { }

  lemma MulDist(a: nat, b: nat, c: nat)
    ensures a * (b + c) == a * b + a * c
  { }

  /** Appending a digit of base `b` scales quotient and remainder. */
  lemma AppendDigit(b: nat, v: nat, lo: nat, d: nat)
    requires d > 0 && lo < b
    ensures (b * v + lo) / (b * d) == v / d
    ensures (b * v + lo) % (b * d) == b * (v % d) + lo
  {
    var q, r := v / d, v % d;
    assert v == d * q + r;
    MulDist(b, d * q, r);
    MulAssoc(b, d, q);
    assert b * v + lo == (b * d) * q + (b * r + lo);
    MulStep(b, r, d);
    QuotientUnique(b * v + lo, b * d, q, b * r + lo);
  }

  /** A multiple of `d` does not show in the remainder. */
  lemma DropMultiple(d: nat, h: nat, lo: nat)
    requires d > 0
    ensures (d * h + lo) % d == lo % d
  {
    var q, r := lo / d, lo % d;
    MulDist(d, h, q);
    QuotientUnique(d * h + lo, d, h + q, r);
  }

  lemma {:induction false} Pow2Add(i: nat, j: nat)
    ensures Pow2(i + j) == Pow2(i) * Pow2(j)
  {
    if i > 0 {
      Pow2Add(i - 1, j);
      MulAssoc(2, Pow2(i - 1), Pow2(j));
    }
  }

  lemma {:induction false} Pow2Grows(i: nat, j: nat)
    requires i <= j
    ensures Pow2(i) <= Pow2(j)
    decreases j
  {
    if i < j {
      Pow2Grows(i, j - 1);
    }
  }

  lemma Pow2Of8()
    ensures Pow2(8) == 256
  {
    assert Pow2(2) == 4 && Pow2(4) == 16;
    Pow2Add(2, 2);
    Pow2Add(4, 4);
  }

  // ------------------------------------------------------------ masks as arithmetic

  /** Conjunction of numbers given by their upper part and lowest bit. */
  lemma AndBits(x: nat, xh: nat, xl: nat, m: nat, mh: nat, ml: nat)
    requires x == 2 * xh + xl && xl < 2 && m == 2 * mh + ml && ml < 2
    ensures And(x, m) == 2 * And(xh, mh) + if ml == 1 then xl else 0
  {
    assert x / 2 == xh && x % 2 == xl && m / 2 == mh && m % 2 == ml;
  }

  lemma {:induction false} AndAllOnes(x: nat, n: nat)
    requires x < Pow2(n)
    ensures And(x, Pow2(n) - 1) == x
  {
    if n > 0 {
      AndAllOnes(x / 2, n - 1);
      AndBits(x, x / 2, x % 2, Pow2(n) - 1, Pow2(n - 1) - 1, 1);
    }
  }

  /** Conjunction with `n - j` leading ones over `j` zeros clears the `j` low bits. */
  lemma {:induction false} AndHigh(x: nat, n: nat, j: nat)
    requires j <= n && x < Pow2(n)
    ensures Pow2(j) <= Pow2(n)
    ensures And(x, Pow2(n) - Pow2(j)) == x - x % Pow2(j)
  {
    Pow2Grows(j, n);
    if j == 0 {
      AndAllOnes(x, n);
    } else {
      AndHigh(x / 2, n - 1, j - 1);
      AndBits(x, x / 2, x % 2, Pow2(n) - Pow2(j), Pow2(n - 1) - Pow2(j - 1), 0);
      AppendDigit(2, x / 2, x % 2, Pow2(j - 1));
    }
  }

  lemma ByteAnd(x: Byte, k: nat)
    requires k <= 8
    ensures And(x, MaskByte(k)) == x - x % Pow2(8 - k)
  {
    Pow2Of8();
    AndHigh(x, 8, 8 - k);
  }

  /** The bytes of `a` with all but the first `len` bits cleared. */
  function Cleared(a: seq<Byte>, len: nat): (r: seq<Byte>)
    ensures |r| == |a|
  {
    seq(|a|, i requires 0 <= i < |a| => ClearedByte(a[i], BitsInByte(len, i)))
  }

  function ClearedByte(x: Byte, k: nat): Byte
    requires k <= 8
  {
    And(x, MaskByte(k))
  }

  /** Rounding down when the last byte is cut into. */
  lemma RoundLastByte(hi: nat, lo: Byte, k: nat)
    requires k <= 8
    ensures (256 * hi + lo) % Pow2(8 - k) == lo % Pow2(8 - k)
  {
    Pow2Of8();
    Pow2Add(8 - k, k);
    var p, q := Pow2(8 - k), Pow2(k);
    MulAssoc(p, q, hi);
    DropMultiple(p, q * hi, lo);
  }

  /** Rounding down when the last byte is dropped. */
  lemma RoundEarlierByte(hi: nat, lo: Byte, j: nat)
    ensures 256 * hi + lo - (256 * hi + lo) % Pow2(8 + j) == 256 * (hi - hi % Pow2(j))
  {
    Pow2Of8();
    Pow2Add(8, j);
    AppendDigit(256, hi, lo, Pow2(j));
  }

  lemma ClearedSplit(a: seq<Byte>, len: nat)
    requires a != []
    ensures Value(Cleared(a, len)) ==
            256 * Value(Cleared(Init(a), len)) + ClearedByte(Last(a), BitsInByte(len, |a| - 1))
  {
    var r := Cleared(a, len);
    assert Init(r) == Cleared(Init(a), len) && Last(r) == ClearedByte(Last(a), BitsInByte(len, |a| - 1));
  }

  /** The last byte of a cleared buffer when the prefix ends in it. */
  lemma ClearedInside(v: nat, lo: Byte, k: nat)
    requires k <= 8
    ensures 256 * v + ClearedByte(lo, k) == 256 * v + lo - (256 * v + lo) % Pow2(8 - k)
  {
    ByteAnd(lo, k);
    RoundLastByte(v, lo, k);
  }

  /** And when the prefix ends before it. */
  lemma ClearedBefore(v: nat, lo: Byte, j: nat)
    ensures 256 * (v - v % Pow2(j)) + ClearedByte(lo, 0) == 256 * v + lo - (256 * v + lo) % Pow2(8 + j)
  {
    ByteAnd(lo, 0);
    Pow2Of8();
    RoundEarlierByte(v, lo, j);
  }

  /** Clearing all but `len` leading bits rounds the value down to a block boundary. */
  lemma {:induction false} ClearedValue(a: seq<Byte>, len: nat)
    requires len <= 8 * |a|
    ensures Value(Cleared(a, len)) == Value(a) - Value(a) % Pow2(8 * |a| - len)
  {
    if a != [] {
      var init, lo, v := Init(a), Last(a), Value(Init(a));
      ClearedSplit(a, len);
      assert |init| == |a| - 1 && Value(a) == 256 * v + lo;
      if len <= 8 * |init| {
        var j := 8 * |init| - len;
        ClearedValue(init, len);
        ClearedBefore(v, lo, j);
        assert 8 + j == 8 * |a| - len;
      } else {
        var k := len - 8 * |init|;
        KeptWhole(init, len);
        ClearedInside(v, lo, k);
        assert 8 - k == 8 * |a| - len;
      }
    }
  }

  lemma KeptWhole(a: seq<Byte>, len: nat)
    requires len >= 8 * |a|
    ensures Cleared(a, len) == a
  {
    forall i | 0 <= i < |a| ensures Cleared(a, len)[i] == a[i] {
      ByteAnd(a[i], 8);
    }
  }

  lemma AgreeIsCleared(a: seq<Byte>, b: seq<Byte>, len: nat)
    requires |a| == |b|
    ensures Agree(a, b, PrefixMask(|a|, len)) <==> Cleared(a, len) == Cleared(b, len)
  {
    var m, ca, cb := PrefixMask(|a|, len), Cleared(a, len), Cleared(b, len);
    assert forall i :: 0 <= i < |a| ==> ca[i] == And(a[i], m[i]) && cb[i] == And(b[i], m[i]);
    if Agree(a, b, m) {
      assert forall i :: 0 <= i < |a| ==> ca[i] == cb[i];
    }
  }

  // ------------------------------------------------------------ blocks

  /** The number of addresses in a block of prefix length `len`. */
  function Size(len: nat): (r: nat)
    requires len <= 32
    ensures r > 0
  {
    Pow2(32 - len)
  }

  lemma RoundedSame(x: nat, y: nat, d: nat)
    requires d > 0
    ensures x - x % d == y - y % d <==> x / d == y / d
  {
    var q, q' := x / d, y / d;
    assert x == d * q + x % d && y == d * q' + y % d;
    if x - x % d == y - y % d {
      QuotientUnique(d * q, d, q, 0);
      QuotientUnique(d * q', d, q', 0);
    }
  }

  lemma RoundedInterval(x: nat, y: nat, d: nat)
    requires d > 0
    ensures (y - y % d) % d == 0
    ensures x / d == y / d <==> y - y % d <= x < y - y % d + d
  {
    var q, q' := x / d, y / d;
    assert x == d * q + x % d && y == d * q' + y % d;
    QuotientUnique(d * q', d, q', 0);
    if d * q' <= x < d * q' + d {
      QuotientUnique(x, d, q', x - d * q');
    }
  }

  /** Membership in a block is agreement of the values up to the block size. */
  lemma ContainsIsDivision(net: IPNet, len: nat, a: Ip)
    requires HasPrefix(net, len)
    ensures Contains(net, a) <==> Value(a) / Size(len) == Value(net.ip) / Size(len)
  {
    var b := net.ip;
    assert PrefixMask(|a|, len) == net.mask;
    AgreeIsCleared(a, b, len);
    ClearedValue(a, len);
    ClearedValue(b, len);
    RoundedSame(Value(a), Value(b), Size(len));
    if Value(Cleared(a, len)) == Value(Cleared(b, len)) {
      ValueInjective(Cleared(a, len), Cleared(b, len));
    }
  }

  lemma MaskedIsCleared(net: IPNet, len: nat)
    requires HasPrefix(net, len)
    ensures Masked(net.ip, net.mask) == Cleared(net.ip, len)
  {
    forall i | 0 <= i < 4 ensures Masked(net.ip, net.mask)[i] == Cleared(net.ip, len)[i] {
      assert net.mask[i] == MaskByte(BitsInByte(len, i));
    }
  }

  /** A block is the interval of Size(len) addresses that starts at its masked base. */
  lemma ContainsIsInterval(net: IPNet, len: nat, a: Ip)
    requires HasPrefix(net, len)
    ensures Value(Masked(net.ip, net.mask)) % Size(len) == 0
    ensures Contains(net, a) <==>
            Value(Masked(net.ip, net.mask)) <= Value(a) < Value(Masked(net.ip, net.mask)) + Size(len)
  {
    ContainsIsDivision(net, len, a);
    MaskedIsCleared(net, len);
    ClearedValue(net.ip, len);
    RoundedInterval(Value(a), Value(net.ip), Size(len));
  }

  /** Agreeing on a long prefix implies agreeing on every shorter one. */
  lemma {:induction false} CoarserDivision(x: nat, y: nat, i: nat, j: nat)
    requires i <= j && x / Pow2(i) == y / Pow2(i)
    ensures x / Pow2(j) == y / Pow2(j)
    decreases j - i
  {
    if i < j {
      HalfDivision(x, Pow2(i));
      HalfDivision(y, Pow2(i));
      CoarserDivision(x, y, i + 1, j);
    }
  }

  lemma HalfDivision(x: nat, d: nat)
    requires d > 0
    ensures x / (2 * d) == (x / d) / 2
  {
    var q, r := x / d, x % d;
    var h, b := q / 2, q % 2;
    assert q == 2 * h + b && x == d * q + r;
    MulDist(d, 2 * h, b);
    assert x == (2 * d) * h + (d * b + r);
    QuotientUnique(x, 2 * d, h, d * b + r);
  }

  /** An address of a block agrees with its base on every shorter prefix. */
  lemma AddressAgrees(p: IPNet, m: nat, a: Ip, k: nat)
    requires HasPrefix(p, m) && Contains(p, a) && k <= m
    ensures Value(p.ip) / Size(k) == Value(a) / Size(k)
  {
    ContainsIsDivision(p, m, a);
    CoarserDivision(Value(a), Value(p.ip), 32 - m, 32 - k);
  }

  lemma NestedBlocks(p: IPNet, m: nat, q: IPNet, n: nat)
    requires HasPrefix(p, m) && HasPrefix(q, n) && m <= n
    requires Value(p.ip) / Size(m) == Value(q.ip) / Size(m)
    ensures Contains(p, q.ip) && Contains(q, q.ip)
  {
    ContainsIsDivision(p, m, q.ip);
  }

  function Shorter(m: nat, n: nat): nat {
    if m <= n then m else n
  }

  /** Blocks nest or are disjoint: two blocks share an address iff their bases agree on the
      shorter of the two prefixes. */
  lemma OverlapIsPrefixTest(p: IPNet, m: nat, q: IPNet, n: nat)
    requires HasPrefix(p, m) && HasPrefix(q, n)
    ensures Overlap(p, q) <==> Value(p.ip) / Size(Shorter(m, n)) == Value(q.ip) / Size(Shorter(m, n))
  {
    if Overlap(p, q) {
      var a: Ip :| Contains(p, a) && Contains(q, a);
      AddressAgrees(p, m, a, Shorter(m, n));
      AddressAgrees(q, n, a, Shorter(m, n));
    } else if Value(p.ip) / Size(Shorter(m, n)) == Value(q.ip) / Size(Shorter(m, n)) {
      if m <= n {
        NestedBlocks(p, m, q, n);
      } else {
        NestedBlocks(q, n, p, m);
      }
    }
  }
}
