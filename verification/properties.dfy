/** Properties of the m-sequence generator that relate several operations:
    symbol accumulation, the fill, the zero state, linearity of the feedback,
    reset and the state accessors. */
module MSequenceProperties {
  import opened Bits
  import opened MSequence

  /** Every output bit is 0 or 1. */
  lemma OutputIsBit(ms: MSequence, i: nat)
    ensures OutputBit(ms, i) <= 1
  {
  }

  lemma ShiftInBound(w: bv32, c: bv32, k: bv32)
    requires c <= 1 && 0 < k < 32 && w >> (k - 1) == 0
    ensures ((w << 1) | c) >> k == 0
  {
  }

  lemma StreamValueFitsStep(ms: MSequence, k: bv32)
    requires 0 < k < 32 && StreamValue(ms, k - 1) >> (k - 1) == 0
    ensures StreamValue(ms, k) >> k == 0
  {
    OutputIsBit(ms, ToNat(k - 1));
    ShiftInBound(StreamValue(ms, k - 1), OutputBit(ms, ToNat(k - 1)), k);
  }

  /** A stream value of fewer than 32 outputs is below `2^k`. */
  lemma {:induction false} StreamValueFits(ms: MSequence, k: bv32)
    requires k < 32
    ensures StreamValue(ms, k) >> k == 0
    decreases k
  {
    if k != 0 {
      StreamValueFits(ms, k - 1);
      StreamValueFitsStep(ms, k);
    }
  }

  lemma ShiftInUndo(w: bv32, c: bv32, k: bv32)
    requires c <= 1 && k < 32 && w >> k == 0
    ensures ((w << 1) | c) >> 1 == w && ((w << 1) | c) & 1 == c
  {
  }

  /** Up to 32 outputs, the stream value is first-output-most-significant:
      its low bit is the latest output and shifting it right recovers the
      value of the shorter stream. */
  lemma StreamValueLatestLast(ms: MSequence, k: bv32)
    requires 0 < k <= 32
    ensures StreamValue(ms, k) & 1 == OutputBit(ms, ToNat(k - 1))
    ensures StreamValue(ms, k) >> 1 == StreamValue(ms, k - 1)
  {
    StreamValueFits(ms, k - 1);
    OutputIsBit(ms, ToNat(k - 1));
    ShiftInUndo(StreamValue(ms, k - 1), OutputBit(ms, ToNat(k - 1)), k - 1);
  }

  /** An advance leaves a configured generator valid, whatever word the
      register held before (`SetState` does not mask it). */
  lemma AdvanceRestoresValid(ms: MSequence)
    requires Configured(ms)
    ensures Valid(Advance(ms))
  {
  }

  /** The all-zero register is a fixed point: it outputs 0 and stays 0. */
  lemma AdvanceFromZero(ms: MSequence)
    requires ms.v == 0
    ensures Advance(ms).v == 0 && Advance(ms).b == 0
  {
    var r := Advance(ms);
    ShiftedInZero(ms.n, r.v);
  }

  lemma ShiftedInZero(n: bv32, w: bv32)
    requires ShiftedIn(0, 0, n, w)
    ensures w == 0
  {
  }

  /** A generator whose register is zero stays locked at zero and outputs
      only zeros, however often it is advanced. */
  lemma {:induction false} ZeroStateLocks(ms: MSequence, k: nat)
    requires ms.v == 0
    ensures Iterate(ms, k).v == 0
    ensures 0 < k ==> Iterate(ms, k).b == 0
    decreases k
  {
    if k != 0 {
      ZeroStateLocks(ms, k - 1);
      AdvanceFromZero(Iterate(ms, k - 1));
    }
  }

  lemma ParityOfPowerOfTwoStep(k: bv32)
    requires 0 < k < 32 && Parity(1 << (k - 1))
    ensures Parity(1 << k)
  {
    assert (1 as bv32 << k) >> 1 == 1 << (k - 1);
  }

  /** A word with exactly one bit set has odd parity. */
  lemma {:induction false} ParityOfPowerOfTwo(k: bv32)
    requires k < 32
    ensures Parity(1 << k)
    decreases k
  {
    if k != 0 {
      ParityOfPowerOfTwo(k - 1);
      ParityOfPowerOfTwoStep(k);
    }
  }

  /** A nonzero register whose bits below the top register bit are all
      clear holds the top bit alone. */
  lemma TopBitAlone(m: bv32, v: bv32)
    requires MinM <= m <= MaxM && v <= LowMask(m) && v != 0 && v & (LowMask(m) >> 1) == 0
    ensures v == 1 << (m - 1)
  {
  }

  lemma TapSelectsTop(m: bv32, v: bv32, g: bv32)
    requires 0 < m <= 32 && v == 1 << (m - 1) && BitSet(g, m - 1)
    ensures v & g == v
  {
  }

  /** The lone top register bit, tapped by the polynomial, feeds back a 1. */
  lemma TopBitFeedsBack(m: bv32, v: bv32, g: bv32)
    requires 0 < m <= 32 && v == 1 << (m - 1) && BitSet(g, m - 1)
    ensures BDotProd(v, g) == 1
  {
    TapSelectsTop(m, v, g);
    ParityOfPowerOfTwo(m - 1);
  }

  lemma LowMaskLowBit(m: bv32)
    requires 0 < m <= 32
    ensures LowMask(m) & 1 == 1
  {
    assert BitSet(LowMask(m), 0);
  }

  lemma ShiftedInKeepsLow(v: bv32, c: bv32, n: bv32, w: bv32)
    requires ShiftedIn(v, c, n, w) && v & (n >> 1) != 0
    ensures w != 0
  {
  }

  lemma ShiftedInOne(v: bv32, n: bv32, w: bv32)
    requires ShiftedIn(v, 1, n, w) && n & 1 == 1
    ensures w != 0
  {
  }

  lemma NonzeroShiftsToNonzero(m: bv32, n: bv32, g: bv32, v: bv32, c: bv32, w: bv32)
    requires MinM <= m <= MaxM && n == LowMask(m) && v <= n && v != 0 && BitSet(g, m - 1)
    requires c == BDotProd(v, g) && ShiftedIn(v, c, n, w)
    ensures w != 0
  {
    if v & (n >> 1) != 0 {
      ShiftedInKeepsLow(v, c, n, w);
    } else {
      TopBitAlone(m, v);
      TopBitFeedsBack(m, v, g);
      LowMaskLowBit(m);
      ShiftedInOne(v, n, w);
    }
  }

  /** When the polynomial taps the top register bit (every polynomial the
      derived and default constructors produce does), a nonzero register
      stays nonzero: the bit shifted out at the top is fed back in at the
      bottom. */
  lemma AdvanceKeepsNonzero(ms: MSequence)
    requires Valid(ms) && ms.v != 0 && BitSet(ms.g, ms.m - 1)
    ensures Advance(ms).v != 0
  {
    var r := Advance(ms);
    NonzeroShiftsToNonzero(ms.m, ms.n, ms.g, ms.v, r.b, r.v);
  }

  /** For a polynomial that taps the top register bit, the register is
      zero after an advance exactly when it was zero before. */
  lemma AdvanceZeroIff(ms: MSequence)
    requires Valid(ms) && BitSet(ms.g, ms.m - 1)
    ensures Advance(ms).v == 0 <==> ms.v == 0
  {
    if ms.v == 0 {
      AdvanceFromZero(ms);
    } else {
      AdvanceKeepsNonzero(ms);
    }
  }

  /** Advancing keeps a generator valid. */
  lemma IterateKeepsValid(ms: MSequence, k: nat)
    requires Valid(ms)
    ensures Valid(Iterate(ms, k))
  {
  }

  /** Started from a nonzero register, a generator whose polynomial taps
      the top register bit never reaches the locked all-zero state. */
  lemma {:induction false} NeverLocks(ms: MSequence, k: nat)
    requires Valid(ms) && ms.v != 0 && BitSet(ms.g, ms.m - 1)
    ensures Iterate(ms, k).v != 0
    decreases k
  {
    if k != 0 {
      NeverLocks(ms, k - 1);
      IterateKeepsValid(ms, k - 1);
      AdvanceKeepsNonzero(Iterate(ms, k - 1));
    }
  }

  /** Shifting in is linear over GF(2): shifting the XOR of two bits into
      the XOR of two registers gives the XOR of the two shifted registers.
      Together with `AdvanceOutputLinear` this makes one advance a linear
      map of the register state. */
  lemma ShiftedInXor(x: bv32, y: bv32, p: bv32, q: bv32, n: bv32, wx: bv32, wy: bv32, wz: bv32)
    requires ShiftedIn(x, p, n, wx) && ShiftedIn(y, q, n, wy) && ShiftedIn(x ^ y, p ^ q, n, wz)
    ensures wz == wx ^ wy
  {
  }

  /** The output bit is linear over GF(2) in the register state. */
  lemma AdvanceOutputLinear(ms: MSequence, x: bv32, y: bv32)
    ensures Advance(SetState(ms, x ^ y)).b == Advance(SetState(ms, x)).b ^ Advance(SetState(ms, y)).b
  {
    BDotProdLinear(x, y, ms.g);
  }

  /** The symbol generated from `bps < 32` advances is below `2^bps`. */
  lemma SymbolFits(ms: MSequence, bps: bv32)
    requires bps < 32
    ensures GenerateSymbol(ms, bps).symbol >> bps == 0
  {
    StreamValueFits(ms, bps);
  }

  /** Up to 32 bits per symbol, a symbol of `bps` bits is the one of
      `bps - 1` bits shifted up with the latest output bit in the lowest
      place, so the first output ends up most significant. */
  lemma SymbolLatestLast(ms: MSequence, bps: bv32)
    requires 0 < bps <= 32
    ensures GenerateSymbol(ms, bps).symbol & 1 == GenerateSymbol(ms, bps).ms.b
    ensures GenerateSymbol(ms, bps).symbol >> 1 == GenerateSymbol(ms, bps - 1).symbol
  {
    assert ToNat(bps) == ToNat(bps - 1) + 1;
    StreamValueLatestLast(ms, bps);
  }

  /** The register update never reads the previous output bit. */
  lemma AdvanceIgnoresOutputBit(ms: MSequence, c: bv32)
    ensures Advance(ms.(b := c)) == Advance(ms)
  {
  }

  /** After at least one advance, the initial output bit is forgotten. */
  lemma {:induction false} IterateIgnoresOutputBit(ms: MSequence, c: bv32, k: nat)
    ensures Iterate(ms.(b := c), k + 1) == Iterate(ms, k + 1)
    decreases k
  {
    if k == 0 {
      AdvanceIgnoresOutputBit(ms, c);
    } else {
      IterateIgnoresOutputBit(ms, c, k - 1);
    }
  }

  /** Reset restores the initial register without clearing the last output
      bit, yet every later output and state is the same as after resetting
      the generator before it ever advanced. */
  lemma ResetReplays(ms: MSequence, k: nat, j: nat)
    ensures Reset(Iterate(ms, k)).v == ms.a
    ensures Iterate(Reset(Iterate(ms, k)), j + 1) == Iterate(Reset(ms), j + 1)
  {
    var s := Iterate(ms, k);
    assert Reset(s) == Reset(ms).(b := s.b);
    IterateIgnoresOutputBit(Reset(ms), s.b, j);
  }

  lemma {:induction false} StreamValueIgnoresOutputBit(ms: MSequence, c: bv32, k: bv32)
    ensures StreamValue(ms.(b := c), k) == StreamValue(ms, k)
    decreases k
  {
    if k != 0 {
      StreamValueIgnoresOutputBit(ms, c, k - 1);
      IterateIgnoresOutputBit(ms, c, ToNat(k - 1));
    }
  }

  /** A symbol generated after a reset is the symbol the freshly reset
      generator produces, however far the generator had advanced, and it
      leaves the generator in the same state. */
  lemma ResetReproducesSymbol(ms: MSequence, k: nat, bps: bv32)
    ensures GenerateSymbol(Reset(Iterate(ms, k)), bps).symbol == GenerateSymbol(Reset(ms), bps).symbol
    ensures 0 < bps ==> GenerateSymbol(Reset(Iterate(ms, k)), bps).ms == GenerateSymbol(Reset(ms), bps).ms
  {
    var s := Iterate(ms, k);
    assert Reset(s) == Reset(ms).(b := s.b);
    StreamValueIgnoresOutputBit(Reset(ms), s.b, bps);
    if bps != 0 {
      IterateIgnoresOutputBit(Reset(ms), s.b, ToNat(bps) - 1);
    }
  }

  /** The state accessors round-trip, a later `SetState` overrides an
      earlier one, and reset is setting the state to the seed. */
  lemma StateRoundTrips(ms: MSequence, x: bv32, y: bv32)
    ensures GetState(SetState(ms, x)) == x
    ensures SetState(ms, GetState(ms)) == ms
    ensures SetState(SetState(ms, x), y) == SetState(ms, y)
    ensures Reset(ms) == SetState(ms, ms.a)
  {
  }

  /** The getters report the configuration, which no operation changes:
      not setting the state, resetting, advancing, generating a symbol or
      filling a buffer. */
  lemma GettersStable(ms: MSequence, x: bv32, k: nat, bps: bv32)
    ensures var s := SetState(ms, x);
            GenpolyLength(s) == GenpolyLength(ms) && Length(s) == Length(ms) && Genpoly(s) == Genpoly(ms)
    ensures var s := Reset(ms);
            GenpolyLength(s) == GenpolyLength(ms) && Length(s) == Length(ms) && Genpoly(s) == Genpoly(ms)
    ensures var s := Iterate(ms, k);
            GenpolyLength(s) == GenpolyLength(ms) && Length(s) == Length(ms) && Genpoly(s) == Genpoly(ms)
    ensures var s := GenerateSymbol(ms, bps).ms;
            GenpolyLength(s) == GenpolyLength(ms) && Length(s) == Length(ms) && Genpoly(s) == Genpoly(ms)
    ensures var s := InitBSequence(ms).ms;
            GenpolyLength(s) == GenpolyLength(ms) && Length(s) == Length(ms) && Genpoly(s) == Genpoly(ms)
  {
  }
}
