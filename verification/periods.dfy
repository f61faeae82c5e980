/** The smallest default generators, stepped through by hand: for register
    lengths 2, 3 and 4 a full-period fill returns the generator to exactly
    where it started, no shorter run of advances brings the register back
    to its seed, and the fill holds the expected bit pattern. */
module Periods {
  import opened Bits
  import opened MSequence

  /** The feedback bit, computed by the branch-free fold. */
  lemma FeedbackByFold(v: bv32, g: bv32)
    ensures BDotProd(v, g) == XorFold(v & g)
  {
    XorFoldIsParity(v & g);
  }

  /** The `(k + 1)`-th advance, given the generator after `k` advances and
      the register and bit the fold computes from it. */
  lemma IterateStep(ms: MSequence, k: nat, s: MSequence, v: bv32, b: bv32)
    requires Iterate(ms, k) == s
    requires b == XorFold(s.v & s.g) && v == ((s.v << 1) | b) & s.n
    ensures Iterate(ms, k + 1) == s.(v := v, b := b)
  {
    FeedbackByFold(s.v, s.g);
  }

  /** A fill is determined by the outputs it collects and the generator it
      ends with. */
  lemma FillFromOutputs(ms: MSequence, bits: seq<bool>, last: MSequence)
    requires |bits| == ToNat(ms.n) && Iterate(ms, |bits|) == last
    requires forall i :: 0 <= i < |bits| ==> (bits[i] <==> OutputBit(ms, i) == 1)
    ensures InitBSequence(ms) == Filled(last, bits)
  {
    var fill := InitBSequence(ms);
    assert |fill.bits| == |bits|;
    assert forall i :: 0 <= i < |bits| ==> fill.bits[i] == bits[i];
  }

  lemma SmallLoopCounts()
    ensures ToNat(3) == 3 && ToNat(7) == 7 && ToNat(15) == 15
  {
    assert ToNat(1) == 1;
    assert ToNat(2) == 2;
    assert ToNat(3) == 3;
    assert ToNat(4) == 4;
    assert ToNat(5) == 5;
    assert ToNat(6) == 6;
    assert ToNat(7) == 7;
    assert ToNat(8) == 8;
    assert ToNat(9) == 9;
    assert ToNat(10) == 10;
    assert ToNat(11) == 11;
    assert ToNat(12) == 12;
    assert ToNat(13) == 13;
    assert ToNat(14) == 14;
    assert ToNat(15) == 15;
  }

  /** The register states and output bits of the length-2 default row
      over one period. */
  lemma TrajectoryOfTwo(row: MSequence)
    requires row == MSequence(2, 0x3, 0x2, 0x3, 0x2, 0)
    ensures Iterate(row, 1) == row.(v := 0x1, b := 1)
         && Iterate(row, 2) == row.(v := 0x3, b := 1)
         && Iterate(row, 3) == row.(v := 0x2, b := 0)
  {
    IterateStep(row, 0, row.(v := 0x2, b := 0), 0x1, 1);
    IterateStep(row, 1, row.(v := 0x1, b := 1), 0x3, 1);
    IterateStep(row, 2, row.(v := 0x3, b := 1), 0x2, 0);
  }

  lemma FillOfTwo(row: MSequence)
    requires row == MSequence(2, 0x3, 0x2, 0x3, 0x2, 0)
    ensures InitBSequence(row) == Filled(row, [true, true, false])
  {
    TrajectoryOfTwo(row);
    SmallLoopCounts();
    FillFromOutputs(row, [true, true, false], row);
  }

  lemma SeedReturnsAfterTwo(row: MSequence)
    requires row == MSequence(2, 0x3, 0x2, 0x3, 0x2, 0)
    ensures forall k: nat :: 0 < k < 3 ==> Iterate(row, k).v != row.a
  {
    TrajectoryOfTwo(row);
  }

  /** Register length 2: period 3, output pattern 110. A full
      fill returns the generator to its initial value and no shorter run of
      advances brings the register back to the seed. */
  lemma PeriodOfTwo()
    ensures var row := DefaultTable[2];
            && InitBSequence(row) == Filled(row, [true, true, false])
            && forall k: nat :: 0 < k < 3 ==> Iterate(row, k).v != row.a
  {
    var row := DefaultTable[2];
    assert row == MSequence(2, 0x3, 0x2, 0x3, 0x2, 0);
    FillOfTwo(row);
    SeedReturnsAfterTwo(row);
  }

  /** The register states and output bits of the length-3 default row
      over one period. */
  lemma TrajectoryOfThree(row: MSequence)
    requires row == MSequence(3, 0x5, 0x4, 0x7, 0x4, 0)
    ensures Iterate(row, 1) == row.(v := 0x1, b := 1)
         && Iterate(row, 2) == row.(v := 0x3, b := 1)
         && Iterate(row, 3) == row.(v := 0x7, b := 1)
         && Iterate(row, 4) == row.(v := 0x6, b := 0)
         && Iterate(row, 5) == row.(v := 0x5, b := 1)
         && Iterate(row, 6) == row.(v := 0x2, b := 0)
         && Iterate(row, 7) == row.(v := 0x4, b := 0)
  {
    IterateStep(row, 0, row.(v := 0x4, b := 0), 0x1, 1);
    IterateStep(row, 1, row.(v := 0x1, b := 1), 0x3, 1);
    IterateStep(row, 2, row.(v := 0x3, b := 1), 0x7, 1);
    IterateStep(row, 3, row.(v := 0x7, b := 1), 0x6, 0);
    IterateStep(row, 4, row.(v := 0x6, b := 0), 0x5, 1);
    IterateStep(row, 5, row.(v := 0x5, b := 1), 0x2, 0);
    IterateStep(row, 6, row.(v := 0x2, b := 0), 0x4, 0);
  }

  lemma FillOfThree(row: MSequence)
    requires row == MSequence(3, 0x5, 0x4, 0x7, 0x4, 0)
    ensures InitBSequence(row) == Filled(row, [true, true, true, false, true, false, false])
  {
    TrajectoryOfThree(row);
    SmallLoopCounts();
    FillFromOutputs(row, [true, true, true, false, true, false, false], row);
  }

  lemma SeedReturnsAfterThree(row: MSequence)
    requires row == MSequence(3, 0x5, 0x4, 0x7, 0x4, 0)
    ensures forall k: nat :: 0 < k < 7 ==> Iterate(row, k).v != row.a
  {
    TrajectoryOfThree(row);
  }

  /** Register length 3: period 7, output pattern 1110100. A full
      fill returns the generator to its initial value and no shorter run of
      advances brings the register back to the seed. */
  lemma PeriodOfThree()
    ensures var row := DefaultTable[3];
            && InitBSequence(row) == Filled(row, [true, true, true, false, true, false, false])
            && forall k: nat :: 0 < k < 7 ==> Iterate(row, k).v != row.a
  {
    var row := DefaultTable[3];
    assert row == MSequence(3, 0x5, 0x4, 0x7, 0x4, 0);
    FillOfThree(row);
    SeedReturnsAfterThree(row);
  }

  lemma TrajectoryOfFourPart1(row: MSequence)
    requires row == MSequence(4, 0x9, 0x8, 0xf, 0x8, 0)
    ensures Iterate(row, 1) == row.(v := 0x1, b := 1)
         && Iterate(row, 2) == row.(v := 0x3, b := 1)
         && Iterate(row, 3) == row.(v := 0x7, b := 1)
         && Iterate(row, 4) == row.(v := 0xf, b := 1)
         && Iterate(row, 5) == row.(v := 0xe, b := 0)
  {
    IterateStep(row, 0, row.(v := 0x8, b := 0), 0x1, 1);
    IterateStep(row, 1, row.(v := 0x1, b := 1), 0x3, 1);
    IterateStep(row, 2, row.(v := 0x3, b := 1), 0x7, 1);
    IterateStep(row, 3, row.(v := 0x7, b := 1), 0xf, 1);
    IterateStep(row, 4, row.(v := 0xf, b := 1), 0xe, 0);
  }

  lemma TrajectoryOfFourPart2(row: MSequence)
    requires row == MSequence(4, 0x9, 0x8, 0xf, 0x8, 0)
    requires Iterate(row, 5) == row.(v := 0xe, b := 0)
    ensures Iterate(row, 6) == row.(v := 0xd, b := 1)
         && Iterate(row, 7) == row.(v := 0xa, b := 0)
         && Iterate(row, 8) == row.(v := 0x5, b := 1)
         && Iterate(row, 9) == row.(v := 0xb, b := 1)
         && Iterate(row, 10) == row.(v := 0x6, b := 0)
  {
    IterateStep(row, 5, row.(v := 0xe, b := 0), 0xd, 1);
    IterateStep(row, 6, row.(v := 0xd, b := 1), 0xa, 0);
    IterateStep(row, 7, row.(v := 0xa, b := 0), 0x5, 1);
    IterateStep(row, 8, row.(v := 0x5, b := 1), 0xb, 1);
    IterateStep(row, 9, row.(v := 0xb, b := 1), 0x6, 0);
  }

  lemma TrajectoryOfFourPart3(row: MSequence)
    requires row == MSequence(4, 0x9, 0x8, 0xf, 0x8, 0)
    requires Iterate(row, 10) == row.(v := 0x6, b := 0)
    ensures Iterate(row, 11) == row.(v := 0xc, b := 0)
         && Iterate(row, 12) == row.(v := 0x9, b := 1)
         && Iterate(row, 13) == row.(v := 0x2, b := 0)
         && Iterate(row, 14) == row.(v := 0x4, b := 0)
         && Iterate(row, 15) == row.(v := 0x8, b := 0)
  {
    IterateStep(row, 10, row.(v := 0x6, b := 0), 0xc, 0);
    IterateStep(row, 11, row.(v := 0xc, b := 0), 0x9, 1);
    IterateStep(row, 12, row.(v := 0x9, b := 1), 0x2, 0);
    IterateStep(row, 13, row.(v := 0x2, b := 0), 0x4, 0);
    IterateStep(row, 14, row.(v := 0x4, b := 0), 0x8, 0);
  }

  /** The register states and output bits of the length-4 default row
      over one period. */
  lemma TrajectoryOfFour(row: MSequence)
    requires row == MSequence(4, 0x9, 0x8, 0xf, 0x8, 0)
    ensures Iterate(row, 1) == row.(v := 0x1, b := 1)
         && Iterate(row, 2) == row.(v := 0x3, b := 1)
         && Iterate(row, 3) == row.(v := 0x7, b := 1)
         && Iterate(row, 4) == row.(v := 0xf, b := 1)
         && Iterate(row, 5) == row.(v := 0xe, b := 0)
         && Iterate(row, 6) == row.(v := 0xd, b := 1)
         && Iterate(row, 7) == row.(v := 0xa, b := 0)
         && Iterate(row, 8) == row.(v := 0x5, b := 1)
         && Iterate(row, 9) == row.(v := 0xb, b := 1)
         && Iterate(row, 10) == row.(v := 0x6, b := 0)
         && Iterate(row, 11) == row.(v := 0xc, b := 0)
         && Iterate(row, 12) == row.(v := 0x9, b := 1)
         && Iterate(row, 13) == row.(v := 0x2, b := 0)
         && Iterate(row, 14) == row.(v := 0x4, b := 0)
         && Iterate(row, 15) == row.(v := 0x8, b := 0)
  {
    TrajectoryOfFourPart1(row);
    TrajectoryOfFourPart2(row);
    TrajectoryOfFourPart3(row);
  }

  lemma FillOfFour(row: MSequence)
    requires row == MSequence(4, 0x9, 0x8, 0xf, 0x8, 0)
    ensures InitBSequence(row) == Filled(row, [true, true, true, true, false, true, false, true, true, false, false, true, false, false, false])
  {
    TrajectoryOfFour(row);
    SmallLoopCounts();
    FillFromOutputs(row, [true, true, true, true, false, true, false, true, true, false, false, true, false, false, false], row);
  }

  lemma SeedReturnsAfterFour(row: MSequence)
    requires row == MSequence(4, 0x9, 0x8, 0xf, 0x8, 0)
    ensures forall k: nat :: 0 < k < 15 ==> Iterate(row, k).v != row.a
  {
    TrajectoryOfFour(row);
  }

  /** Register length 4: period 15, output pattern 111101011001000. A full
      fill returns the generator to its initial value and no shorter run of
      advances brings the register back to the seed. */
  lemma PeriodOfFour()
    ensures var row := DefaultTable[4];
            && InitBSequence(row) == Filled(row, [true, true, true, true, false, true, false, true, true, false, false, true, false, false, false])
            && forall k: nat :: 0 < k < 15 ==> Iterate(row, k).v != row.a
  {
    var row := DefaultTable[4];
    assert row == MSequence(4, 0x9, 0x8, 0xf, 0x8, 0);
    FillOfFour(row);
    SeedReturnsAfterFour(row);
  }
}
