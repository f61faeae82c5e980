/** Word-level helpers over 32-bit unsigned words (`unsigned int` in the
    original code): bit selection, low-bit masks, and the two external
    primitives the generator consumes — the binary dot product
    (`liquid_bdotprod`) and the most-significant-bit index
    (`liquid_msb_index`) — given here as specified functions.

    Bit positions are themselves `bv32` values so that every fact below
    stays inside bit-vector arithmetic. */
module Bits {

  /** Bit `i` of `x`, counted from the least-significant bit. */
  predicate BitSet(x: bv32, i: bv32)
    requires i < 32
  {
    (x >> i) & 1 == 1
  }

  /** The word whose low `k` bits are set, `(1 << k) - 1`. */
  function LowMask(k: bv32): (r: bv32)
    requires k <= 32
    ensures forall i: bv32 :: i < 32 ==> (BitSet(r, i) <==> i < k)
    ensures k < 32 ==> r >> k == 0 && (k == 0 || r >> (k - 1) == 1)
  {
    (1 << k) - 1
  }

  /** Shifting a word `w` up by one place and putting a bit `c` in the
      vacated low position (the result `s`) moves every bit up by one and
      loses bit 31. */
  lemma ShiftInBits(w: bv32, c: bv32, s: bv32)
    requires c <= 1 && s == (w << 1) | c
    ensures BitSet(s, 0) <==> c == 1
    ensures forall i: bv32 :: 0 < i < 32 ==> (BitSet(s, i) <==> BitSet(w, i - 1))
  {
    forall i: bv32 | 0 < i < 32
      ensures BitSet(s, i) <==> BitSet(w, i - 1)
    {
      ShiftInBit(w, c, i);
    }
  }

  lemma ShiftInBit(w: bv32, c: bv32, i: bv32)
    requires c <= 1 && 0 < i < 32
    ensures BitSet((w << 1) | c, i) <==> BitSet(w, i - 1)
  {
  }

  /** XOR-reduction of the bits of `x`: true when an odd number are set. */
  predicate Parity(x: bv32)
    decreases x
  {
    if x == 0 then false else (x & 1 == 1) != Parity(x >> 1)
  }

  /** Number of set bits of `x`. */
  function Popcount(x: bv32): nat
    decreases x
  {
    if x == 0 then 0 else (if x & 1 == 1 then 1 else 0) + Popcount(x >> 1)
  }

  lemma ParityPopcountStep(x: bv32)
    requires x != 0
    requires Parity(x >> 1) == (Popcount(x >> 1) % 2 == 1)
    ensures Parity(x) == (Popcount(x) % 2 == 1)
  {
  }

  /** The XOR-reduction of a word is the parity of its population count. */
  lemma {:induction false} ParityIsOddPopcount(x: bv32)
    ensures Parity(x) == (Popcount(x) % 2 == 1)
    decreases x
  {
    if x != 0 {
      ParityIsOddPopcount(x >> 1);
      ParityPopcountStep(x);
    }
  }

  lemma ParityXorStep(x: bv32, y: bv32)
    requires x != 0
    requires Parity((x >> 1) ^ (y >> 1)) == (Parity(x >> 1) != Parity(y >> 1))
    ensures Parity(x ^ y) == (Parity(x) != Parity(y))
  {
  }

  /** XOR-reduction distributes over `^`. */
  lemma {:induction false} ParityXor(x: bv32, y: bv32)
    ensures Parity(x ^ y) == (Parity(x) != Parity(y))
    decreases x
  {
    if x != 0 {
      ParityXor(x >> 1, y >> 1);
      ParityXorStep(x, y);
    } else {
      assert x ^ y == y;
    }
  }

  /** 1 for true, 0 for false. */
  function BitOf(c: bool): bv32
  {
    if c then 1 else 0
  }

  /** The binary dot product of two words (`liquid_bdotprod`): the
      XOR-reduction of their bitwise AND, as 0 or 1. */
  function BDotProd(x: bv32, y: bv32): (r: bv32)
    ensures r == 0 || r == 1
    ensures x & y == 0 ==> r == 0
  {
    BitOf(Parity(x & y))
  }

  /** The binary dot product is the parity of the number of positions at
      which both words hold a 1 bit, whichever order the words come in. */
  lemma BDotProdIsPopcountParity(x: bv32, y: bv32)
    ensures BDotProd(x, y) == 1 <==> Popcount(x & y) % 2 == 1
    ensures BDotProd(x, y) == BDotProd(y, x)
  {
    ParityIsOddPopcount(x & y);
    assert x & y == y & x;
  }

  lemma BDotProdLinearStep(x: bv32, z: bv32, y: bv32)
    requires Parity((x & y) ^ (z & y)) == (Parity(x & y) != Parity(z & y))
    ensures BDotProd(x ^ z, y) == BDotProd(x, y) ^ BDotProd(z, y)
  {
    assert (x ^ z) & y == (x & y) ^ (z & y);
  }

  /** The binary dot product is linear over GF(2) in its first argument. */
  lemma BDotProdLinear(x: bv32, z: bv32, y: bv32)
    ensures BDotProd(x ^ z, y) == BDotProd(x, y) ^ BDotProd(z, y)
  {
    ParityXor(x & y, z & y);
    BDotProdLinearStep(x, z, y);
  }

  /** The XOR-reduction of `p` onto its lowest bit, computed branch-free
      by folding the word onto itself five times. */
  function XorFold(p: bv32): (r: bv32)
    ensures r == 0 || r == 1
  {
    var p1 := p ^ (p >> 16);
    var p2 := p1 ^ (p1 >> 8);
    var p3 := p2 ^ (p2 >> 4);
    var p4 := p3 ^ (p3 >> 2);
    var p5 := p4 ^ (p4 >> 1);
    p5 & 1
  }

  lemma XorFoldStep(p: bv32)
    ensures XorFold(p) == (p & 1) ^ XorFold(p >> 1)
  {
  }

  lemma XorFoldParityStep(p: bv32)
    requires p != 0
    requires XorFold(p >> 1) == BitOf(Parity(p >> 1))
    ensures XorFold(p) == BitOf(Parity(p))
  {
    XorFoldStep(p);
  }

  /** The constant-time fold computes the bit-by-bit XOR-reduction, so the
      dot product can be evaluated without recursion. */
  lemma {:induction false} XorFoldIsParity(p: bv32)
    ensures XorFold(p) == BitOf(Parity(p))
    decreases p
  {
    if p != 0 {
      XorFoldIsParity(p >> 1);
      XorFoldParityStep(p);
    }
  }

  /** 1-based index of the most-significant set bit of `x`, or 0 when
      `x` is 0 (`liquid_msb_index`). */
  function MsbIndex(x: bv32): (r: bv32)
    ensures r <= 32
    ensures r == 0 <==> x == 0
    ensures r != 0 ==> x >> (r - 1) == 1
    decreases x
  {
    if x == 0 then 0 else 1 + MsbIndex(x >> 1)
  }

  lemma TopBitStep(x: bv32, d: bv32)
    requires 0 < d < 32 && x >> d == 1
    ensures x != 0 && (x >> 1) >> (d - 1) == 1
  {
  }

  /** The highest set bit determines `MsbIndex`: a word of degree `d`
      (bit `d` set, nothing above it) has index `d + 1`. */
  lemma {:induction false} MsbIndexOfDegree(x: bv32, d: bv32)
    requires d < 32 && x >> d == 1
    ensures MsbIndex(x) == d + 1
    decreases d
  {
    if d == 0 {
      assert x == 1;
      assert MsbIndex(x >> 1) == 0;
    } else {
      TopBitStep(x, d);
      MsbIndexOfDegree(x >> 1, d - 1);
    }
  }

  /** The value of an unsigned loop bound as a natural number: how many
      times a loop `for (i = 0; i < k; i++)` runs. */
  function ToNat(k: bv32): nat
    decreases k
  {
    if k == 0 then 0 else ToNat(k - 1) + 1
  }
}
