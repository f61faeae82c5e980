/** The maximal-length sequence (m-sequence) generator: a linear-feedback
    shift register packed into one 32-bit word.

    A generator is an immutable value here. Every C function that updates
    the object in place returns the updated value instead, together with
    what the C function returns. Construction failure (the C code reports a
    configuration error and returns its null sentinel) is a `Failure`. */
module MSequence {
  import opened Bits
  import opened Wrappers

  /** Register lengths accepted by explicit construction
      (LIQUID_MIN_MSEQUENCE_M and LIQUID_MAX_MSEQUENCE_M). */
  const MinM: bv32 := 2
  const MaxM: bv32 := 31

  /** Largest register length in the default table. */
  const MaxDefaultM: bv32 := 15

  /** The generator record (`struct msequence_s`). */
  datatype MSequence = MSequence(
    m: bv32,  // length of the generator polynomial and of the shift register
    g: bv32,  // generator polynomial, right-shifted by one bit
    a: bv32,  // initial shift register state
    n: bv32,  // sequence length 2^m - 1, also the register mask
    v: bv32,  // shift register
    b: bv32   // last output bit
  )

  /** The configuration errors the constructors report. */
  datatype ConfigError =
    | MNotInRange              // "m not in range"
    | InvalidGenPoly(g: bv32)  // "invalid generator polynomial"

  /** What every constructor establishes about the configuration fields:
      the register length is in range, the sequence length is `2^m - 1`,
      the seed fits the register and the output bit is a bit. */
  predicate Configured(ms: MSequence)
  {
    && MinM <= ms.m <= MaxM
    && ms.n == LowMask(ms.m)
    && ms.a <= ms.n
    && ms.b <= 1
  }

  /** A configured generator whose register also fits its `m` bits. */
  predicate Valid(ms: MSequence)
  {
    Configured(ms) && ms.v <= ms.n
  }

  /** The default polynomial table (`msequence_default`), indexed by `m`.
      Rows 0 and 1 are placeholders; rows 2..15 hold the register state a
      generator of that length starts in. */
  const DefaultTable: seq<MSequence> := [
    //         m,  g,      a,      n,              v,      b
    MSequence( 0,  0,      1,      0,              1,      0),  // placeholder
    MSequence( 0,  0,      1,      0,              1,      0),  // placeholder
    MSequence( 2,  0x0003, 0x0002, (1 <<  2) - 1,  0x0002, 0),
    MSequence( 3,  0x0005, 0x0004, (1 <<  3) - 1,  0x0004, 0),
    MSequence( 4,  0x0009, 0x0008, (1 <<  4) - 1,  0x0008, 0),
    MSequence( 5,  0x0012, 0x0010, (1 <<  5) - 1,  0x0010, 0),
    MSequence( 6,  0x0021, 0x0020, (1 <<  6) - 1,  0x0020, 0),
    MSequence( 7,  0x0044, 0x0040, (1 <<  7) - 1,  0x0040, 0),
    MSequence( 8,  0x008E, 0x0080, (1 <<  8) - 1,  0x0080, 0),
    MSequence( 9,  0x0108, 0x0100, (1 <<  9) - 1,  0x0100, 0),
    MSequence(10,  0x0204, 0x0200, (1 << 10) - 1,  0x0200, 0),
    MSequence(11,  0x0402, 0x0400, (1 << 11) - 1,  0x0400, 0),
    MSequence(12,  0x0829, 0x0800, (1 << 12) - 1,  0x0800, 0),
    MSequence(13,  0x100d, 0x1000, (1 << 13) - 1,  0x1000, 0),
    MSequence(14,  0x2015, 0x2000, (1 << 14) - 1,  0x2000, 0),
    MSequence(15,  0x4001, 0x4000, (1 << 15) - 1,  0x4000, 0)
  ]

  /** The seed-reversal loop of explicit construction after `k` rounds:
      each round shifts the accumulator up and appends the next bit of `x`,
      lowest bit first, so bit `i` of `x` ends at position `k - 1 - i`. */
  function ReverseLow(x: bv32, k: bv32): (r: bv32)
    requires k <= 32
    ensures forall i: bv32 :: i < 32 ==> (BitSet(r, i) <==> i < k && BitSet(x, k - 1 - i))
    ensures k < 32 ==> r >> k == 0
    decreases k
  {
    if k == 0 then 0
    else
      var acc := ReverseLow(x, k - 1);
      var c := (x >> (k - 1)) & 1;
      var r := (acc << 1) | c;
      ShiftInBits(acc, c, r);
      r
  }

  /** Explicit construction (`msequence_create`): register length `m`, raw
      polynomial `g` whose lowest bit is dropped, and seed `a` whose low `m`
      bits are stored in reverse order. */
  function Create(m: bv32, g: bv32, a: bv32): (r: Result<MSequence, ConfigError>)
    ensures r.Failure? <==> m < MinM || MaxM < m
    ensures r.Failure? ==> r.error == MNotInRange
    ensures r.Success? ==>
              && Valid(r.value)
              && r.value.m == m
              && r.value.g == g >> 1
              && r.value.v == r.value.a
              && r.value.b == 0
    ensures r.Success? ==>
              forall i: bv32 :: i < 32 ==> (BitSet(r.value.a, i) <==> i < m && BitSet(a, m - 1 - i))
  {
    if m > MaxM || m < MinM then
      Failure(MNotInRange)
    else
      var seed := ReverseLow(a, m);
      assert seed <= LowMask(m);
      Success(MSequence(m, g >> 1, seed, LowMask(m), seed, 0))
  }

  /** Derived construction (`msequence_create_genpoly`): the register length
      is one less than the 1-based index of the polynomial's top bit, and
      the seed is 1. */
  function CreateGenPoly(g: bv32): (r: Result<MSequence, ConfigError>)
    ensures MsbIndex(g) < 2 ==> r == Failure(InvalidGenPoly(g))
    ensures MsbIndex(g) == 2 ==> r == Failure(MNotInRange)
    ensures 2 < MsbIndex(g) ==> r.Success? && Valid(r.value) && r.value.m + 1 == MsbIndex(g)
  {
    var t := MsbIndex(g);
    if t < 2 then Failure(InvalidGenPoly(g)) else Create(t - 1, g, 1)
  }

  /** Default-table construction (`msequence_create_default`): a copy of
      row `m`. */
  function CreateDefault(m: bv32): (r: Result<MSequence, ConfigError>)
    ensures r.Failure? <==> m < MinM || MaxDefaultM < m
    ensures r.Failure? ==> r.error == MNotInRange
    ensures r.Success? ==> r.value == DefaultTable[m]
  {
    if m < MinM || m > MaxDefaultM then Failure(MNotInRange) else Success(DefaultTable[m])
  }

  /** `w` is register `v` with bit `c` shifted in at the bottom under mask
      `n`: `w` fits the mask, shifting `w` back down recovers `v` below the
      mask's top bit, and the low bit of `w` is `c` whenever the mask keeps
      that bit. */
  predicate ShiftedIn(v: bv32, c: bv32, n: bv32, w: bv32)
  {
    w <= n && w >> 1 == v & (n >> 1) && w & 1 == c & n
  }

  lemma ShiftInMasked(v: bv32, c: bv32, n: bv32)
    requires c <= 1
    ensures ShiftedIn(v, c, n, ((v << 1) | c) & n)
  {
  }

  /** One step of the shift register (`msequence_advance`): the output bit
      is the dot product of register and polynomial, and it is shifted into
      the register under the mask `n`. The configuration is untouched. */
  function Advance(ms: MSequence): (r: MSequence)
    ensures r.b == BDotProd(ms.v, ms.g)
    ensures ShiftedIn(ms.v, r.b, ms.n, r.v)
    ensures r.m == ms.m && r.g == ms.g && r.a == ms.a && r.n == ms.n
  {
    var bit := BDotProd(ms.v, ms.g);
    ShiftInMasked(ms.v, bit, ms.n);
    ms.(v := ((ms.v << 1) | bit) & ms.n, b := bit)
  }

  /** The generator after `k` calls of `Advance`. */
  function Iterate(ms: MSequence, k: nat): (r: MSequence)
    ensures r.m == ms.m && r.g == ms.g && r.a == ms.a && r.n == ms.n
    ensures 0 < k ==> r.v <= ms.n && r.b <= 1
    decreases k
  {
    if k == 0 then ms else Advance(Iterate(ms, k - 1))
  }

  /** The bit returned by the `(i + 1)`-th call of `Advance`. */
  function OutputBit(ms: MSequence, i: nat): bv32
  {
    Iterate(ms, i + 1).b
  }

  /** A generated symbol together with the generator that produced it. */
  datatype Generated = Generated(ms: MSequence, symbol: bv32)

  /** The first `k` output bits of the generator read as a binary number,
      the first bit most significant (only the last 32 survive in a word). */
  function StreamValue(ms: MSequence, k: bv32): bv32
    decreases k
  {
    if k == 0 then 0 else (StreamValue(ms, k - 1) << 1) | OutputBit(ms, ToNat(k - 1))
  }

  /** Symbol generation (`msequence_generate_symbol`): `bps` advances whose
      output bits are shifted into the symbol from the bottom. */
  function GenerateSymbol(ms: MSequence, bps: bv32): (r: Generated)
    ensures r.ms == Iterate(ms, ToNat(bps))
    ensures r.symbol == StreamValue(ms, bps)
    decreases bps
  {
    if bps == 0 then Generated(ms, 0)
    else
      var prev := GenerateSymbol(ms, bps - 1);
      var next := Advance(prev.ms);
      Generated(next, (prev.symbol << 1) | next.b)
  }

  /** `msequence_reset`: the register goes back to the initial state. */
  function Reset(ms: MSequence): MSequence
  {
    ms.(v := ms.a)
  }

  /** `msequence_get_genpoly_length`. */
  function GenpolyLength(ms: MSequence): bv32
  {
    ms.m
  }

  /** `msequence_get_length`. */
  function Length(ms: MSequence): bv32
  {
    ms.n
  }

  /** `msequence_get_genpoly`. */
  function Genpoly(ms: MSequence): bv32
  {
    ms.g
  }

  /** `msequence_get_state`. */
  function GetState(ms: MSequence): bv32
  {
    ms.v
  }

  /** `msequence_set_state`: any word is accepted, even one wider than the
      register or the all-zero state. */
  function SetState(ms: MSequence, x: bv32): MSequence
  {
    ms.(v := x)
  }

  /** A bit buffer together with the generator that filled it. */
  datatype Filled = Filled(ms: MSequence, bits: seq<bool>)

  /** `k` rounds of the fill loop: each pushes the output of one advance. */
  function PushAdvances(ms: MSequence, k: bv32): (r: Filled)
    ensures |r.bits| == ToNat(k)
    ensures r.ms == Iterate(ms, ToNat(k))
    ensures forall i :: 0 <= i < |r.bits| ==> (r.bits[i] <==> OutputBit(ms, i) == 1)
    decreases k
  {
    if k == 0 then Filled(ms, [])
    else
      var prev := PushAdvances(ms, k - 1);
      var next := Advance(prev.ms);
      Filled(next, prev.bits + [next.b == 1])
  }

  /** `bsequence_init_msequence`: the buffer is emptied and then receives
      the outputs of `n` advances, one full period. */
  function InitBSequence(ms: MSequence): (r: Filled)
    ensures |r.bits| == ToNat(ms.n)
    ensures r.ms == Iterate(ms, ToNat(ms.n))
    ensures forall i :: 0 <= i < |r.bits| ==> (r.bits[i] <==> OutputBit(ms, i) == 1)
  {
    PushAdvances(ms, ms.n)
  }
}
