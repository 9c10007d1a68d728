/** The protected-subnet test: a walk over every address of every protected block. */
module Protection {
  import opened Ipv4
  import opened Optional

  // ------------------------------------------------------------ incrementing a buffer

  /** The buffer after one increment with carry, dropping the carry out of the top byte. */
  function Incremented(s: seq<Byte>): (r: seq<Byte>)
    ensures |r| == |s|
  {
    if s == [] then []
    else if Last(s) == 255 then Incremented(Init(s)) + [0]
    else Init(s) + [Last(s) + 1]
  }

  /** Incrementing adds one modulo 256^n, for buffers of every length n. */
  lemma {:induction false} IncrementAddsOne(s: seq<Byte>)
    ensures Value(Incremented(s)) == (Value(s) + 1) % Pow256(|s|)
  {
    ValueBound(s);
    if s == [] {
    } else {
      var i, r := Init(s), Incremented(s);
      ValueBound(i);
      if Last(s) == 255 {
        IncrementAddsOne(i);
        assert Init(r) == Incremented(i) && Last(r) == 0;
        if Value(i) + 1 == Pow256(|i|) {
          QuotientUnique(Value(s) + 1, Pow256(|s|), 1, 0);
          QuotientUnique(Value(i) + 1, Pow256(|i|), 1, 0);
        } else {
          QuotientUnique(Value(s) + 1, Pow256(|s|), 0, Value(s) + 1);
          QuotientUnique(Value(i) + 1, Pow256(|i|), 0, Value(i) + 1);
        }
      } else {
        assert Init(r) == i && Last(r) == Last(s) + 1;
        QuotientUnique(Value(s) + 1, Pow256(|s|), 0, Value(s) + 1);
      }
    }
  }

  lemma {:induction false} IncrementCarry(s: seq<Byte>, i: nat)
    requires i < |s| && forall j :: i < j < |s| ==> s[j] == 255
    requires s[i] != 255
    ensures Incremented(s) == s[..i] + [s[i] + 1] + seq(|s| - i - 1, _ => 0)
  {
    if i == |s| - 1 {
      assert seq(0, _ => 0) == [];
    } else {
      IncrementCarry(Init(s), i);
      assert seq(|s| - i - 2, _ => 0) + [0] == seq(|s| - i - 1, _ => 0);
    }
  }

  lemma {:induction false} IncrementWraps(s: seq<Byte>)
    requires forall j :: 0 <= j < |s| ==> s[j] == 255
    ensures Incremented(s) == seq(|s|, _ => 0)
  {
    if s != [] {
      IncrementWraps(Init(s));
    }
  }

  /** The increment, in place, from the last byte towards the first while bytes wrap to 0. */
  method Inc(ip: array<Byte>)
    modifies ip
    ensures ip[..] == Incremented(old(ip[..]))
    ensures Value(ip[..]) == (Value(old(ip[..])) + 1) % Pow256(ip.Length)
  {
    ghost var was := ip[..];
    var i := ip.Length - 1;
    while i >= 0
      invariant -1 <= i < ip.Length
      invariant forall j :: 0 <= j <= i ==> ip[j] == was[j]
      invariant forall j :: i < j < ip.Length ==> was[j] == 255 && ip[j] == 0
    {
      ip[i] := if ip[i] == 255 then 0 else ip[i] + 1;
      if ip[i] > 0 {
        IncrementCarry(was, i);
        assert ip[..] == Incremented(was);
        break;
      }
      i := i - 1;
    }
    if i < 0 {
      IncrementWraps(was);
      assert ip[..] == Incremented(was);
    }
    IncrementAddsOne(was);
  }

  // ------------------------------------------------------------ the walk

  /** A protected block as the operator holds it: two byte buffers. */
  class Block {
    const ip: array<Byte>
    const mask: array<Byte>

    constructor (ip: array<Byte>, mask: array<Byte>)
      requires ip.Length == 4 && mask.Length == 4
      ensures this.ip == ip && this.mask == mask
    {
      this.ip, this.mask := ip, mask;
    }

    predicate Valid()
      reads ip, mask
    {
      ip.Length == 4 && mask.Length == 4
    }

    function Net(): IPNet
      requires Valid()
      reads ip, mask
    {
      IPNet(ip[..], mask[..])
    }
  }

  /** net.IP.Mask: the masked address in a buffer of its own. */
  method MaskBuffer(block: Block) returns (r: array<Byte>)
    requires block.Valid()
    ensures fresh(r) && r.Length == 4 && r[..] == Masked(block.Net().ip, block.Net().mask)
  {
    r := new Byte[4];
    r[0], r[1] := And(block.ip[0], block.mask[0]), And(block.ip[1], block.mask[1]);
    r[2], r[3] := And(block.ip[2], block.mask[2]), And(block.ip[3], block.mask[3]);
  }

  lemma AddressSpace()
    ensures Pow256(4) == Pow2(32)
  {
    Pow2Of8();
    Pow2Add(8, 24);
    Pow2Add(8, 16);
    Pow2Add(8, 8);
    assert Pow256(0) == 1 && Pow256(1) == 256;
  }

  function Base(p: IPNet): nat {
    Value(Masked(p.ip, p.mask))
  }

  lemma MultipleFits(x: nat, d: nat, e: nat)
    requires d > 0 && x % d == 0 && x < d * e
    ensures x + d <= d * e
  {
    var q := x / d;
    assert x == d * q;
    if q < e {
      MulStep(d, q, e);
    } else if e < q {
      MulStep(d, e, q);
    }
  }

  /** No block reaches past the end of the address space. */
  lemma BlockFits(p: IPNet, len: nat)
    requires HasPrefix(p, len)
    ensures Base(p) + Size(len) <= Pow256(4)
  {
    AddressSpace();
    ContainsIsInterval(p, len, p.ip);
    ValueBound(Masked(p.ip, p.mask));
    Pow2Add(32 - len, len);
    MultipleFits(Base(p), Size(len), Pow2(len));
  }

  /** After `k` increments none of the addresses passed lies in the subnet. */
  ghost predicate Passed(p: IPNet, subnet: IPNet, k: nat) {
    forall a: Ip :: Base(p) <= Value(a) < Base(p) + k ==> !Contains(subnet, a)
  }

  /** The position of a walk of `k` steps from `b` through `size` of `n` addresses. */
  lemma WalkPosition(b: nat, size: nat, n: nat, k: nat, v: nat)
    requires 0 < size && b + size <= n && k <= size && v == (b + k) % n
    ensures k < size ==> v == b + k
    ensures k == size && size < n ==> !(b <= v < b + size)
  {
    if b + k < n {
      QuotientUnique(b + k, n, 0, b + k);
    } else {
      QuotientUnique(b + k, n, 1, 0);
    }
  }

  /** While the walk is inside the block it has not used up the block: past a longer prefix
      the increment has left the block, even when it wrapped, and a block of prefix length 0,
      which is never left, has met the subnet first. */
  lemma InsideMeansUnfinished(p: IPNet, len: nat, subnet: IPNet, k: nat, ip: Ip)
    requires HasPrefix(p, len) && k <= Size(len)
    requires Value(ip) == (Base(p) + k) % Pow256(4)
    requires Passed(p, subnet, k)
    ensures Contains(p, ip) <==> k < Size(len)
    ensures k < Size(len) ==> Value(ip) == Base(p) + k
  {
    BlockFits(p, len);
    ContainsIsInterval(p, len, ip);
    WalkPosition(Base(p), Size(len), Pow256(4), k, Value(ip));
    if k == Size(len) == Pow256(4) {
      WholeSpaceMeetsSubnet(p, subnet);
    }
  }

  lemma WholeSpaceMeetsSubnet(p: IPNet, subnet: IPNet)
    requires Base(p) == 0
    ensures !Passed(p, subnet, Pow256(4))
  {
    ValueBound(subnet.ip);
    assert Contains(subnet, subnet.ip);
  }

  lemma WalkStep(p: IPNet, subnet: IPNet, k: nat, ip: Ip)
    requires Passed(p, subnet, k) && Value(ip) == Base(p) + k && !Contains(subnet, ip)
    ensures Passed(p, subnet, k + 1)
  {
    forall a: Ip | Base(p) <= Value(a) < Base(p) + k + 1 ensures !Contains(subnet, a) {
      if Value(a) == Value(ip) {
        ValueInjective(a, ip);
      }
    }
  }

  /** A finished walk has seen the whole block. */
  lemma WalkDone(p: IPNet, len: nat, subnet: IPNet)
    requires HasPrefix(p, len) && Passed(p, subnet, Size(len))
    ensures !Overlap(p, subnet)
  {
    forall a: Ip ensures !(Contains(p, a) && Contains(subnet, a)) {
      ContainsIsInterval(p, len, a);
    }
  }

  /** What isProtected promises: the subnet shares an address with a protected block.
      A subnet that does not parse is never protected. */
  ghost predicate Protected(subnet: Option<IPNet>, protecteds: seq<IPNet>) {
    subnet.Some? && exists i :: 0 <= i < |protecteds| && Overlap(protecteds[i], subnet.value)
  }

  function Nets(blocks: seq<Block>): (r: seq<IPNet>)
    requires forall b :: b in blocks ==> b.Valid()
    reads set b: Block | b in blocks :: b.ip
    reads set b: Block | b in blocks :: b.mask
    ensures |r| == |blocks|
  {
    if blocks == [] then [] else [blocks[0].Net()] + Nets(blocks[1..])
  }

  lemma {:induction false} NetsAt(blocks: seq<Block>, i: nat)
    requires forall b :: b in blocks ==> b.Valid()
    requires i < |blocks|
    ensures Nets(blocks)[i] == blocks[i].Net()
  {
    if i > 0 {
      NetsAt(blocks[1..], i - 1);
    }
  }

  /** isProtected: exact, terminating, and without effect on the protected blocks. */
  method IsProtected(subnet: Option<IPNet>, blocks: seq<Block>) returns (r: bool)
    requires forall b :: b in blocks ==> b.Valid() && Contiguous(b.Net())
    ensures r <==> Protected(subnet, Nets(blocks))
  {
    if subnet.None? {
      return false;
    }
    var net := subnet.value;
    for i := 0 to |blocks|
      invariant forall j :: 0 <= j < i ==> !Overlap(Nets(blocks)[j], net)
    {
      NetsAt(blocks, i);
      var hit := WalkBlock(blocks[i], net);
      if hit {
        return true;
      }
    }
    return false;
  }

  /** The state of a walk that has made `k` increments. */
  ghost predicate Walking(p: IPNet, len: nat, subnet: IPNet, k: nat, ip: Ip)
    requires HasPrefix(p, len)
  {
    k <= Size(len) && Value(ip) == (Base(p) + k) % Pow256(4) && Passed(p, subnet, k)
  }

  lemma WalkStarts(p: IPNet, len: nat, subnet: IPNet)
    requires HasPrefix(p, len)
    ensures Walking(p, len, subnet, 0, Masked(p.ip, p.mask))
  {
    ValueBound(Masked(p.ip, p.mask));
    QuotientUnique(Base(p), Pow256(4), 0, Base(p));
  }

  lemma WalkContinues(p: IPNet, len: nat, subnet: IPNet, k: nat, ip: Ip, next: Ip)
    requires HasPrefix(p, len) && Walking(p, len, subnet, k, ip)
    requires k < Size(len) && !Contains(subnet, ip)
    requires Value(next) == (Value(ip) + 1) % Pow256(4)
    ensures Walking(p, len, subnet, k + 1, next)
  {
    InsideMeansUnfinished(p, len, subnet, k, ip);
    WalkStep(p, subnet, k, ip);
  }

  lemma WalkHits(p: IPNet, len: nat, subnet: IPNet, k: nat, ip: Ip)
    requires HasPrefix(p, len) && Walking(p, len, subnet, k, ip) && k < Size(len) && Contains(subnet, ip)
    ensures Overlap(p, subnet)
  {
    InsideMeansUnfinished(p, len, subnet, k, ip);
  }

  /** The loop guard: the walk is still inside the block. */
  method InBlock(block: Block, ip: array<Byte>, ghost p: IPNet, ghost len: nat, ghost subnet: IPNet, ghost k: nat)
    returns (inside: bool)
    requires block.Valid() && block.Net() == p && ip.Length == 4
    requires HasPrefix(p, len) && Walking(p, len, subnet, k, ip[..])
    ensures inside <==> Contains(p, ip[..])
    ensures inside <==> k < Size(len)
  {
    InsideMeansUnfinished(p, len, subnet, k, ip[..]);
    inside := Contains(IPNet(block.ip[..], block.mask[..]), ip[..]);
  }

  /** The next address of the walk, after one that is not in the subnet. */
  method NextAddress(ip: array<Byte>, ghost p: IPNet, ghost len: nat, ghost subnet: IPNet, ghost k: nat)
    requires ip.Length == 4 && HasPrefix(p, len) && Walking(p, len, subnet, k, ip[..])
    requires k < Size(len) && !Contains(subnet, ip[..])
    modifies ip
    ensures Walking(p, len, subnet, k + 1, ip[..])
  {
    ghost var here: Ip := ip[..];
    Inc(ip);
    WalkContinues(p, len, subnet, k, here, ip[..]);
  }

  /** One round of the outer loop: walk a fresh buffer through the block. */
  method WalkBlock(block: Block, subnet: IPNet) returns (hit: bool)
    requires block.Valid() && Contiguous(block.Net())
    ensures hit <==> Overlap(block.Net(), subnet)
  {
    ghost var p := block.Net();
    ghost var len: nat :| HasPrefix(p, len);
    ghost var k: nat := 0;
    var ip := MaskBuffer(block);
    WalkStarts(p, len, subnet);
    var inside := InBlock(block, ip, p, len, subnet, k);
    while inside
      invariant fresh(ip) && ip.Length == 4 && block.Net() == p
      invariant Walking(p, len, subnet, k, ip[..]) && (inside <==> k < Size(len))
      decreases Size(len) - k, inside
    {
      hit := Contains(subnet, ip[..]);
      if hit {
        WalkHits(p, len, subnet, k, ip[..]);
        return;
      }
      NextAddress(ip, p, len, subnet, k);
      k := k + 1;
      inside := InBlock(block, ip, p, len, subnet, k);
    }
    WalkDone(p, len, subnet);
    return false;
  }

  /** The walk decides the constant-time test: the subnet is protected iff, for some block,
      the two bases agree on the shorter of the two prefixes. */
  lemma ProtectedIsPrefixTest(subnet: IPNet, n: nat, protecteds: seq<IPNet>, lens: seq<nat>)
    requires HasPrefix(subnet, n) && |lens| == |protecteds|
    requires forall i :: 0 <= i < |lens| ==> HasPrefix(protecteds[i], lens[i])
    ensures Protected(Some(subnet), protecteds) <==>
            exists i :: 0 <= i < |lens| &&
              Value(protecteds[i].ip) / Size(Shorter(lens[i], n)) == Value(subnet.ip) / Size(Shorter(lens[i], n))
  {
    forall i | 0 <= i < |lens|
      ensures Overlap(protecteds[i], subnet) <==>
              Value(protecteds[i].ip) / Size(Shorter(lens[i], n)) == Value(subnet.ip) / Size(Shorter(lens[i], n))
    {
      OverlapIsPrefixTest(protecteds[i], lens[i], subnet, n);
    }
  }
}
