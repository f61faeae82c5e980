/** Properties of the three constructors: the seed reversal, the derived
    construction from a polynomial, and the default table. */
module Construction {
  import opened Bits
  import opened Wrappers
  import opened MSequence

  lemma LowBitsStep(x: bv32, y: bv32, k: bv32)
    requires 0 < k <= 32 && x & LowMask(k) == y & LowMask(k)
    ensures x & LowMask(k - 1) == y & LowMask(k - 1)
    ensures (x >> (k - 1)) & 1 == (y >> (k - 1)) & 1
  {
  }

  /** The reversal of `k` bits reads only those `k` bits. */
  lemma {:induction false} ReverseReadsLowBits(x: bv32, y: bv32, k: bv32)
    requires k <= 32 && x & LowMask(k) == y & LowMask(k)
    ensures ReverseLow(x, k) == ReverseLow(y, k)
    decreases k
  {
    if k != 0 {
      LowBitsStep(x, y, k);
      ReverseReadsLowBits(x, y, k - 1);
      ReverseStepAgrees(x, y, k);
    }
  }

  lemma ReverseStepAgrees(x: bv32, y: bv32, k: bv32)
    requires 0 < k <= 32 && ReverseLow(x, k - 1) == ReverseLow(y, k - 1)
    requires (x >> (k - 1)) & 1 == (y >> (k - 1)) & 1
    ensures ReverseLow(x, k) == ReverseLow(y, k)
  {
  }

  /** Explicit construction ignores the bits of the seed above position
      `m - 1`: two seeds that agree on their low `m` bits give the same
      generator (and an out-of-range `m` fails for both). */
  lemma CreateIgnoresHighSeedBits(m: bv32, g: bv32, a: bv32, b: bv32)
    requires m < MinM || MaxM < m || a & LowMask(m) == b & LowMask(m)
    ensures Create(m, g, a) == Create(m, g, b)
  {
    if MinM <= m <= MaxM {
      ReverseReadsLowBits(a, b, m);
    }
  }

  lemma ReverseOfOneStep(k: bv32)
    requires 1 < k <= 32
    ensures ((1 as bv32 << (k - 2)) << 1) | ((1 as bv32 >> (k - 1)) & 1) == 1 << (k - 1)
  {
  }

  /** The seed 1 (`000...001`) reverses to the top register bit
      (`100...000`). */
  lemma {:induction false} ReverseOfOne(k: bv32)
    requires 1 <= k <= 32
    ensures ReverseLow(1, k) == 1 << (k - 1)
    decreases k
  {
    if k != 1 {
      ReverseOfOne(k - 1);
      ReverseOfOneStep(k);
    }
  }

  /** The register-length-4 example of the reversal: `0001` becomes `1000`,
      and `0011` becomes `1100`. */
  lemma ReverseExamples()
    ensures ReverseLow(0x1, 4) == 0x8
    ensures ReverseLow(0x3, 4) == 0xC
  {
    ReverseOfOne(4);
    assert ReverseLow(0x3, 1) == 0x1;
    assert ReverseLow(0x3, 2) == 0x3;
    assert ReverseLow(0x3, 3) == 0x6;
  }

  lemma StoredPolyTapsTop(g: bv32, m: bv32)
    requires 0 < m < 32 && g >> m == 1
    ensures (g >> 1) >> (m - 1) == 1
  {
  }

  /** Derived construction from a polynomial `g` of degree `m >= 2` (bit
      `m` its highest set bit): the register has length `m`, the stored
      polynomial is `g` without its constant term and keeps the degree-`m`
      coefficient as its top bit, and the seed 1 reversed puts the register
      in state `100...0`. */
  lemma GenPolyShape(g: bv32, m: bv32)
    requires MinM <= m <= MaxM && g >> m == 1
    ensures CreateGenPoly(g) == Success(MSequence(m, g >> 1, 1 << (m - 1), LowMask(m), 1 << (m - 1), 0))
    ensures (g >> 1) >> (m - 1) == 1
  {
    MsbIndexOfDegree(g, m);
    ReverseOfOne(m);
    StoredPolyTapsTop(g, m);
  }

  /** Derived construction succeeds exactly for polynomials of degree at
      least 2 (`g >= 4`); degree 0 is rejected as an invalid polynomial and
      degree 1 by the register-length check of explicit construction. */
  lemma GenPolyOutcome(g: bv32)
    ensures g < 2 ==> CreateGenPoly(g) == Failure(InvalidGenPoly(g))
    ensures 2 <= g < 4 ==> CreateGenPoly(g) == Failure(MNotInRange)
    ensures 4 <= g ==> CreateGenPoly(g).Success?
  {
    if g < 4 {
      assert MsbIndex(0) == 0;
      assert MsbIndex(1) == 1 + MsbIndex(0);
      assert MsbIndex(2) == 1 + MsbIndex(1);
      assert MsbIndex(3) == 1 + MsbIndex(1);
    } else {
      assert MsbIndex(g) == 1 + MsbIndex(g >> 1);
      assert MsbIndex(g >> 1) == 1 + MsbIndex((g >> 1) >> 1);
      assert (g >> 1) >> 1 != 0;
    }
  }

  lemma AppendConstantTerm(h: bv32, m: bv32)
    requires 0 < m < 32 && h >> (m - 1) == 1
    ensures ((h << 1) | 1) >> m == 1 && ((h << 1) | 1) >> 1 == h
  {
  }

  /** A generator with register length `m`, stored polynomial `h` whose top
      bit is the degree-`m` coefficient, register and seed `100...0` and
      output bit 0 is exactly what derived construction makes of the full
      polynomial `(h << 1) | 1`. */
  lemma GenPolyOfStored(h: bv32, m: bv32)
    requires MinM <= m <= MaxM && h >> (m - 1) == 1
    ensures CreateGenPoly((h << 1) | 1) == Success(MSequence(m, h, 1 << (m - 1), LowMask(m), 1 << (m - 1), 0))
  {
    AppendConstantTerm(h, m);
    GenPolyShape((h << 1) | 1, m);
  }

  lemma DefaultRowFromStored(m: bv32, h: bv32)
    requires MinM <= m <= MaxDefaultM && h >> (m - 1) == 1
    requires DefaultTable[m] == MSequence(m, h, 1 << (m - 1), LowMask(m), 1 << (m - 1), 0)
    ensures CreateDefault(m) == Success(DefaultTable[m])
    ensures CreateGenPoly((h << 1) | 1) == CreateDefault(m)
  {
    GenPolyOfStored(h, m);
  }

  /** Every default row `m` (2 to 15) is what derived construction makes of
      its polynomial with the constant term put back: a valid generator of
      register length `m` whose stored polynomial taps the top register
      bit, started in state `100...0` (the reversal of seed 1) with output
      bit 0. */
  lemma DefaultRowsAreGenPoly(m: bv32)
    requires MinM <= m <= MaxDefaultM
    ensures CreateDefault(m).Success?
    ensures CreateGenPoly((CreateDefault(m).value.g << 1) | 1) == CreateDefault(m)
    ensures var row := CreateDefault(m).value;
            && Valid(row) && row.m == m && row.g >> (m - 1) == 1
            && row.a == 1 << (m - 1) && row.v == row.a && row.b == 0
  {
    if m == 2 {
      DefaultRowFromStored(m, 0x0003);
    } else if m == 3 {
      DefaultRowFromStored(m, 0x0005);
    } else if m == 4 {
      DefaultRowFromStored(m, 0x0009);
    } else if m == 5 {
      DefaultRowFromStored(m, 0x0012);
    } else if m == 6 {
      DefaultRowFromStored(m, 0x0021);
    } else if m == 7 {
      DefaultRowFromStored(m, 0x0044);
    } else if m == 8 {
      DefaultRowFromStored(m, 0x008E);
    } else if m == 9 {
      DefaultRowFromStored(m, 0x0108);
    } else if m == 10 {
      DefaultRowFromStored(m, 0x0204);
    } else if m == 11 {
      DefaultRowFromStored(m, 0x0402);
    } else if m == 12 {
      DefaultRowFromStored(m, 0x0829);
    } else if m == 13 {
      DefaultRowFromStored(m, 0x100d);
    } else if m == 14 {
      DefaultRowFromStored(m, 0x2015);
    } else {
      DefaultRowFromStored(m, 0x4001);
    }
  }
}
