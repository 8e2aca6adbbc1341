/** Integer facts behind the index arithmetic of src/buffer.c. */
module Arithmetic {

  /** `2` to the power `e`. */
  function Pow2(e: nat): (r: nat)
    ensures r >= 1
  {
    if e == 0 then 1 else 2 * Pow2(e - 1)
  }

  /** The integer form of `ceil(log2(c))`. */
  function CeilLog2(c: nat): nat {
    if c <= 1 then 0 else 1 + CeilLog2((c + 1) / 2)
  }

  /** `CeilLog2(c)` is the least exponent whose power of two reaches `c`. */
  lemma {:induction false} CeilLog2IsLeast(c: nat)
    requires c >= 1
    ensures Pow2(CeilLog2(c)) >= c
    ensures c > 1 ==> CeilLog2(c) > 0 && Pow2(CeilLog2(c) - 1) < c
  {
    if c > 1 {
      CeilLog2IsLeast((c + 1) / 2);
    }
  }

  ghost predicate IsPow2(c: nat) {
    exists e: nat :: c == Pow2(e)
  }

  lemma {:induction false} CeilLog2OfPow2(e: nat)
    ensures CeilLog2(Pow2(e)) == e
  {
    if e > 0 {
      CeilLog2OfPow2(e - 1);
      assert (Pow2(e) + 1) / 2 == Pow2(e - 1);
    }
  }

  /** The capacity the block vector grows to: `2^(1 + ceil(log2(c)))`, src/buffer.c:301. */
  function GrownCapacity(c: nat): nat {
    Pow2(1 + CeilLog2(c))
  }

  /** Growing a power of two doubles it, and gives a power of two again. */
  lemma GrowthDoubles(c: nat)
    requires IsPow2(c)
    ensures GrownCapacity(c) == 2 * c
    ensures IsPow2(GrownCapacity(c))
  {
    var e: nat :| c == Pow2(e);
    CeilLog2OfPow2(e);
    assert GrownCapacity(c) == Pow2(e + 1);
  }

  /** Every slot number is a block number and an offset in that block. */
  lemma SplitSlot(k: nat, b: nat)
    requires b > 0
    ensures k == (k / b) * b + k % b
    ensures 0 <= k % b < b
    ensures k / b >= 0
  {
  }

  lemma MulMono(x: nat, y: nat, b: nat)
    requires x <= y
    ensures x * b <= y * b
  {
  }

  lemma NextBlock(n: nat, b: nat)
    ensures (n + 1) * b == n * b + b
  {
  }

  /** A block number and an offset determine the slot number, and the other way round. */
  lemma JoinSlot(q: nat, r: nat, b: nat)
    requires r < b
    ensures (q * b + r) / b == q
    ensures (q * b + r) % b == r
  {
    var k := q * b + r;
    SplitSlot(k, b);
    if k / b < q {
      MulMono(k / b + 1, q, b);
    } else if k / b > q {
      MulMono(q + 1, k / b, b);
    }
  }

  /** A slot below `n * b` lies in one of the first `n` blocks. */
  lemma BlockBound(k: nat, n: nat, b: nat)
    requires b > 0 && k < n * b
    ensures k / b < n
  {
    SplitSlot(k, b);
    if k / b >= n {
      MulMono(n, k / b, b);
    }
  }

  /** A slot from `m * b` on lies in block `m` or a later one. */
  lemma BlockAtLeast(k: nat, m: nat, b: nat)
    requires b > 0 && k >= m * b
    ensures k / b >= m
  {
    SplitSlot(k, b);
    if k / b < m {
      MulMono(k / b + 1, m, b);
    }
  }
}
