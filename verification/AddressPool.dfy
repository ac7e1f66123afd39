/** IPv4 address candidates of a subnet.

    Addresses are 32-bit numbers; the prefix notation is that of section 3.1 of RFC 4632. */
module AddressPool {

  const LIMIT: nat := 0x1_0000_0000
  type Address = n: nat | n < 0x1_0000_0000

  // ---------------------------------------------------------------- bits

  function Pow2(n: nat): (r: nat)
    ensures r >= 1
  {
    if n == 0 then 1 else 2 * Pow2(n - 1)
  }

  /** Bitwise or. */
  function Or(a: nat, b: nat): nat {
    if a == 0 && b == 0 then 0 else 2 * Or(a / 2, b / 2) + (if a % 2 == 1 || b % 2 == 1 then 1 else 0)
  }

  function Bit(a: nat, i: nat): bool {
    if i == 0 then a % 2 == 1 else Bit(a / 2, i - 1)
  }

  /** Or is the bitwise or, bit by bit. */
  lemma {:induction false} OrIsBitwise(a: nat, b: nat, i: nat)
    ensures Bit(Or(a, b), i) <==> Bit(a, i) || Bit(b, i)
    decreases i
  {
    if a == 0 && b == 0 {
      if i > 0 {
        OrIsBitwise(0, 0, i - 1);
      }
    } else if i > 0 {
      OrIsBitwise(a / 2, b / 2, i - 1);
    }
  }

  lemma {:induction false} OrWithZero(a: nat)
    ensures Or(a, 0) == a
  {
    if a != 0 {
      OrWithZero(a / 2);
    }
  }

  /** Or-ing the host mask onto a network address adds it. */
  lemma {:induction false} OrFillsHostBits(k: nat, h: nat)
    ensures Or(k * Pow2(h), Pow2(h) - 1) == k * Pow2(h) + Pow2(h) - 1
  {
    if h == 0 {
      OrWithZero(k);
    } else {
      var a, b := k * Pow2(h), Pow2(h) - 1;
      assert a == 2 * (k * Pow2(h - 1));
      assert a / 2 == k * Pow2(h - 1) && a % 2 == 0;
      assert b / 2 == Pow2(h - 1) - 1 && b % 2 == 1;
      OrFillsHostBits(k, h - 1);
    }
  }

  // ---------------------------------------------------------------- prefixes

  /** A masked prefix: the network address is a multiple of the block size. */
  datatype Prefix = Prefix(network: Address, bits: nat)

  function HostBits(p: Prefix): nat
    requires p.bits <= 32
  {
    32 - p.bits
  }

  predicate Masked(p: Prefix) {
    p.bits <= 32 && p.network % Pow2(HostBits(p)) == 0
  }

  predicate Contains(p: Prefix, a: Address)
    requires p.bits <= 32
  {
    a / Pow2(HostBits(p)) == p.network / Pow2(HostBits(p))
  }

  /** provisionSubnetBounds. */
  function Bounds(p: Prefix): (nat, nat)
    requires p.bits <= 32
  {
    if HostBits(p) == 32 then (p.network, LIMIT - 1) else (p.network, Or(p.network, Pow2(HostBits(p)) - 1))
  }

  lemma MulMono(x: nat, y: nat, size: nat)
    requires x <= y
    ensures x * size <= y * size
  {
  }

  lemma BlockStart(p: Prefix)
    requires Masked(p)
    ensures p.network == p.network / Pow2(HostBits(p)) * Pow2(HostBits(p))
  {
    ExactDivision(p.network, Pow2(HostBits(p)));
  }

  lemma ExactDivision(n: nat, size: nat)
    requires size >= 1 && n % size == 0
    ensures n == n / size * size
  {
  }

  lemma MultipleFits(k: nat, size: nat, count: nat)
    requires k * size < count * size
    ensures k * size + size <= count * size
  {
    if k >= count {
      MulMono(count, k, size);
    } else {
      MulMono(k + 1, count, size);
    }
  }

  lemma SpaceIsBlocks(p: Prefix)
    requires p.bits <= 32
    ensures Pow2(p.bits) * Pow2(HostBits(p)) == LIMIT
  {
    Pow2Splits(p.bits, HostBits(p));
    Pow2Limit();
  }

  /** A block of a masked prefix does not run over the end of the address space. */
  lemma BlocksFit(p: Prefix)
    requires Masked(p)
    ensures p.network + Pow2(HostBits(p)) <= LIMIT
  {
    SpaceIsBlocks(p);
    BlockStart(p);
    MultipleFits(p.network / Pow2(HostBits(p)), Pow2(HostBits(p)), Pow2(p.bits));
  }

  lemma {:induction false} Pow2Splits(a: nat, b: nat)
    ensures Pow2(a + b) == Pow2(a) * Pow2(b)
    decreases a
  {
    if a > 0 {
      Pow2Splits(a - 1, b);
    }
  }

  lemma Pow2Limit()
    ensures Pow2(32) == LIMIT
  {
    assert Pow2(4) == 16;
    Pow2Splits(4, 4);
    Pow2Splits(8, 8);
    Pow2Splits(16, 16);
  }

  /** Main result on bounds: for every prefix length the OR-based bounds are the first and the last address
      of the block, and exactly the addresses between them are in the prefix. */
  lemma BoundsAreTheBlock(p: Prefix)
    requires Masked(p)
    ensures Bounds(p) == (p.network, p.network + Pow2(HostBits(p)) - 1) && Bounds(p).1 < LIMIT
    ensures forall a: Address :: Contains(p, a) <==> Bounds(p).0 <= a <= Bounds(p).1
  {
    var h := HostBits(p);
    var k := p.network / Pow2(h);
    assert p.network == k * Pow2(h);
    BlocksFit(p);
    Pow2Limit();
    OrFillsHostBits(k, h);
    forall a: Address ensures Contains(p, a) <==> p.network <= a <= p.network + Pow2(h) - 1 {
      SameBlock(a, k, Pow2(h));
    }
  }

  lemma SameBlock(a: nat, k: nat, size: nat)
    requires size >= 1
    ensures a / size == k <==> k * size <= a < k * size + size
  {
    var q := a / size;
    assert a == q * size + a % size;
    if q < k {
      MulMono(q + 1, k, size);
      assert (q + 1) * size == q * size + size;
    } else if k < q {
      MulMono(k + 1, q, size);
      assert (k + 1) * size == k * size + size;
    }
  }
}
