# m-sequence generator (liquid-dsp `msequence`)

A Dafny model of liquid-dsp's maximal-length sequence generator. The generator is a
linear-feedback shift register packed into one 32-bit word.

A generator is the record `MSequence(m, g, a, n, v, b)`:
- `m` is the register length.
- `g` is the generator polynomial without its constant term.
- `a` is the seed.
- `n` is both the sequence length `2^m - 1` and the register mask.
- `v` is the register.
- `b` is the last output bit.

Every word is a `bv32`, matching C's `unsigned int`. Bit positions are `bv32` too. Loop counts that must meet sequence lengths go through `Bits.ToNat`.

The C functions update the object in place. Here each one is a pure function that returns the updated generator together with what the C function returns. A constructor that the C code makes report a configuration error returns `Failure`.

Files:
- `wrappers.dfy`: the `Result` type.
- `bits.dfy`: bit selection and low masks. It also gives the two external primitives as specified functions:
  - the binary dot product (`liquid_bdotprod`) is the XOR-reduction of `x & y`;
  - the most-significant-bit index (`liquid_msb_index`) is 1-based, with 0 for input 0.
- `msequence.dfy`: the record and the default table. It also holds the three constructors (`Create`, `CreateGenPoly`, `CreateDefault`) and the single-step rule `Advance` with its iterate `Iterate`. The remaining operations are:
  - symbol generation (`GenerateSymbol`);
  - reset;
  - the getters and `GetState`/`SetState`;
  - the full-period fill of a bit buffer (`InitBSequence`).
- `construction.dfy`: facts about the three constructors:
  - the seed reversal;
  - the degree of the polynomial fixes the outcome of derived construction;
  - every default row is what derived construction makes of its polynomial.
- `properties.dfy`: facts relating several operations:
  - the MSB-first shape and bound of symbols;
  - the zero state is a fixed point, and a nonzero register never reaches it;
  - the register update is linear over GF(2);
  - reset replays the sequence;
  - the state accessors round-trip;
  - the configuration never changes.
- `periods.dfy`: the default rows for register lengths 2, 3 and 4, stepped through one full period.

Behaviour of the code, stated where a reader might expect otherwise:
- `Create` stores `g >> 1`. This drops the constant term (bit 0) of the polynomial, not its top bit as the comment beside it says. The table rows store polynomials in the same form. `Construction.DefaultRowsAreGenPoly` shows each row equals `CreateGenPoly((g << 1) | 1)`.
- `CreateGenPoly` rejects only polynomials whose top bit has index below 2. A polynomial of index 2 (`g` is 2 or 3) goes on to explicit construction with `m = 1`, which then fails with the register-length error.
- Reset restores `v` only. The last output bit `b` survives, but no later output or state depends on it (`ResetReplays`).
- `SetState` accepts any word. A register wider than `n` or equal to 0 is allowed. The invariant `v <= n` holds only after an advance (`AdvanceRestoresValid`).

## Model

| member | source | states |
|---|---|---|
| MSequence.ReverseLow | src/sequence/src/msequence.c:90-98 | after `k` rounds of the reversal loop, bit `i` of the accumulator is bit `k-1-i` of the input for `i < k`, and every bit from `k` up is clear |
| MSequence.Create | src/sequence/src/msequence.c:75-105 | fails with the range error exactly when `m` is outside [2, 31]. Otherwise the generator is valid and has the given `m`, `g >> 1`, `v == a` and `b == 0`. Its seed holds the low `m` bits of `_a` in reverse order and nothing above them |
| MSequence.CreateGenPoly | src/sequence/src/msequence.c:109-123 | a polynomial with most-significant-bit index below 2 fails as an invalid polynomial. Index 2 fails with the range error. A larger index gives a valid generator with `m` one less than the index |
| MSequence.CreateDefault | src/sequence/src/msequence.c:126-140 | fails with the range error exactly when `m` is outside [2, 15], and otherwise returns table row `m` unchanged |
| MSequence.Advance | src/sequence/src/msequence.c:171-182 | the output bit is the dot product of register and polynomial. The new register is the old one shifted up with that bit below it, under the mask: it fits the mask, shifting it down gives back the old register below the top bit, and its low bit is the output bit. `m`, `g`, `a` and `n` are unchanged |
| MSequence.Iterate | src/sequence/src/msequence.c:171-182 | repeated advances keep the configuration. After at least one advance the register fits `n` and the output is a bit |
| MSequence.GenerateSymbol | src/sequence/src/msequence.c:188-198 | the generator after a symbol of `bps` bits equals `bps` single advances. The symbol is the first `bps` outputs read most-significant-first |
| MSequence.PushAdvances | src/sequence/src/msequence.c:216-218 | `k` rounds of the fill loop push exactly `k` bits. Bit `i` is set exactly when the `(i+1)`-th advance outputs 1, and the generator ends after `k` advances |
| MSequence.InitBSequence | src/sequence/src/msequence.c:210-220 | the fill holds exactly `n` bits, equal to the outputs of `n` successive advances, and leaves the generator advanced `n` times |
| Bits.LowMask | src/sequence/src/msequence.c:100 | `(1 << k) - 1` has exactly bits `0..k-1` set, and for `k < 32` its top set bit is bit `k-1` |
| Bits.BDotProd | src/sequence/src/msequence.c:175 | the dot product is 0 or 1, and 0 when the words share no set bit |
| Bits.BDotProdIsPopcountParity | src/sequence/src/msequence.c:175 | the dot product is 1 exactly when the number of common set bits is odd, and it is symmetric |
| Bits.BDotProdLinear | src/sequence/src/msequence.c:175 | the dot product is linear over GF(2) in its first argument |
| Bits.ParityIsOddPopcount | src/sequence/src/msequence.c:175 | bitwise XOR-reduction equals odd population count |
| Bits.ParityXor | src/sequence/src/msequence.c:175 | XOR-reduction distributes over XOR |
| Bits.XorFoldIsParity | src/sequence/src/msequence.c:175 | the five-step branch-free fold computes the XOR-reduction |
| Bits.MsbIndex | src/sequence/src/msequence.c:111 | the index is at most 32, is 0 exactly for 0, and otherwise names the highest set bit (nothing above it is set) |
| Bits.MsbIndexOfDegree | src/sequence/src/msequence.c:111 | a word whose highest set bit is bit `d` has index `d + 1` |
| Construction.ReverseReadsLowBits | src/sequence/src/msequence.c:90-98 | the reversal of `k` bits depends only on the low `k` bits of its input |
| Construction.CreateIgnoresHighSeedBits | src/sequence/src/msequence.c:90-98 | two seeds that agree on their low `m` bits give the same generator |
| Construction.ReverseOfOne | src/sequence/src/msequence.c:90-98 | seed 1 (`00..01`) reverses to the top register bit (`10..00`) |
| Construction.ReverseExamples | src/sequence/src/msequence.c:90-91 | for `m = 4`, `0001` becomes `1000` and `0011` becomes `1100` |
| Construction.GenPolyShape | src/sequence/src/msequence.c:109-123 | a polynomial of degree `m` in [2, 31] gives `m`, `g >> 1`, mask `2^m - 1`, and register and seed `1 << (m-1)` with output bit 0. The stored polynomial taps the top register bit |
| Construction.GenPolyOutcome | src/sequence/src/msequence.c:111-122 | `g < 2` is an invalid polynomial, `g` of 2 or 3 is a range error, and every `g >= 4` succeeds |
| Construction.GenPolyOfStored | src/sequence/src/msequence.c:109-123 | the stored polynomial `h` with its constant term put back is rebuilt by derived construction into exactly that generator |
| Construction.DefaultRowsAreGenPoly | src/sequence/src/msequence.c:50-67 | every row 2..15 is what derived construction makes of its polynomial. Each row is valid with `n = 2^m - 1`, `v = a = 2^(m-1)` and `b = 0`, and its polynomial taps the top register bit |
| MSequenceProperties.OutputIsBit | src/sequence/src/msequence.c:175-181 | every output is 0 or 1 |
| MSequenceProperties.StreamValueFits | src/sequence/src/msequence.c:188-198 | the first `k < 32` outputs read as a number are below `2^k` |
| MSequenceProperties.StreamValueLatestLast | src/sequence/src/msequence.c:192-196 | up to 32 outputs, the lowest bit is the latest output and shifting right gives the value of one output fewer |
| MSequenceProperties.SymbolFits | src/sequence/src/msequence.c:188-198 | a symbol of `bps < 32` bits is below `2^bps` |
| MSequenceProperties.SymbolLatestLast | src/sequence/src/msequence.c:192-196 | a symbol of `bps <= 32` bits ends in the last output bit and, shifted right, is the symbol of `bps - 1` bits |
| MSequenceProperties.AdvanceRestoresValid | src/sequence/src/msequence.c:175-181 | from a configured generator holding any register word, even one wider than the mask, one advance gives a valid generator |
| MSequenceProperties.AdvanceFromZero | src/sequence/src/msequence.c:175-179 | the all-zero register outputs 0 and stays 0 |
| MSequenceProperties.ZeroStateLocks | src/sequence/src/msequence.c:251-252 | a generator set to the zero state stays there and outputs only zeros for any number of advances |
| MSequenceProperties.TopBitFeedsBack | src/sequence/src/msequence.c:175 | a register holding only its top bit, under a polynomial that taps that bit, outputs 1 |
| MSequenceProperties.AdvanceKeepsNonzero | src/sequence/src/msequence.c:175-181 | under a polynomial that taps the top register bit, a valid nonzero register stays nonzero after an advance |
| MSequenceProperties.AdvanceZeroIff | src/sequence/src/msequence.c:175-181 | under such a polynomial, the register is zero after an advance exactly when it was zero before |
| MSequenceProperties.IterateKeepsValid | src/sequence/src/msequence.c:175-181 | advancing preserves validity |
| MSequenceProperties.NeverLocks | src/sequence/src/msequence.c:175-181 | started nonzero under such a polynomial, no number of advances reaches the zero state |
| MSequenceProperties.ShiftedInXor | src/sequence/src/msequence.c:178-180 | shifting in is linear over GF(2): the XOR of two registers with the XOR of two bits shifted in is the XOR of the two results |
| MSequenceProperties.AdvanceOutputLinear | src/sequence/src/msequence.c:175 | the output of an advance is linear over GF(2) in the register state |
| MSequenceProperties.AdvanceIgnoresOutputBit | src/sequence/src/msequence.c:175-181 | an advance does not depend on the previous output bit |
| MSequenceProperties.IterateIgnoresOutputBit | src/sequence/src/msequence.c:175-181 | after at least one advance, the initial output bit is forgotten |
| MSequenceProperties.ResetReplays | src/sequence/src/msequence.c:201-205 | reset puts the seed back. However far the generator had run, every state after one or more further advances is what the freshly reset generator reaches |
| MSequenceProperties.ResetReproducesSymbol | src/sequence/src/msequence.c:201-205 | after a reset, the next symbol equals that of the freshly reset generator, and so does the generator it leaves when the symbol has at least one bit |
| MSequenceProperties.StateRoundTrips | src/sequence/src/msequence.c:241-255 | reading the state after setting `x` gives `x`, and setting the state to what was read changes nothing. A second set overrides the first, and reset is setting the state to the seed |
| MSequenceProperties.GettersStable | src/sequence/src/msequence.c:223-238 | polynomial length, sequence length and polynomial are the same after setting the state, resetting, advancing, generating a symbol or filling a buffer |
| Periods.IterateStep | src/sequence/src/msequence.c:171-182 | one advance computed with the branch-free fold of `v & g` |
| Periods.FillFromOutputs | src/sequence/src/msequence.c:210-220 | a fill is fixed by its `n` output bits and its final generator |
| Periods.PeriodOfTwo | src/sequence/src/msequence.c:54 | for row 2, a full fill outputs `110` and returns the generator to where it started, and no shorter run brings the register back to the seed |
| Periods.PeriodOfThree | src/sequence/src/msequence.c:55 | for row 3, a full fill outputs `1110100` and returns the generator to where it started, with period exactly 7 |
| Periods.PeriodOfFour | src/sequence/src/msequence.c:56 | for row 4, a full fill outputs `111101011001000` and returns the generator to where it started, with period exactly 15 |

## Left out

- `msequence_print` (console output only) and `msequence_destroy` with `malloc`/`free`. A generator is a value, and a failed construction is a `Failure` in place of the error report and null return.
- The bit buffer of `bsequence_init_msequence` is a `seq<bool>` that is emptied and then appended to. The internals of the `bsequence` object are not part of this model.
- `liquid_bdotprod` and `liquid_msb_index` are defined here by what they compute. Their own source is not part of this model.
- MSequence.Create: for `m = 31` the C expression `(1<<_m)-1` overflows a signed `int`, which is undefined behaviour. The model gives `n` the intended value `2^31 - 1` (`0x7FFFFFFF`).
- MSequence.GenerateSymbol: for `bps > 32`, only the last 32 outputs survive in the word. The model computes that word, but the bound and MSB-first lemmas are stated only for `bps <= 32`.
- General maximal-length and balance theorems for arbitrary primitive polynomials need finite-field theory. Periods are checked only for the table rows with `m` = 2, 3 and 4. For the other rows only "never reaches zero" (`NeverLocks`) is proved.
- MSequenceProperties.AdvanceOutputLinear: linearity of a whole advance is stated in two parts. This lemma covers the output bit, and `ShiftedInXor` covers the register. There is no single equation over generator values.
- The getters (`GenpolyLength`, `Length`, `Genpoly`, `GetState`) are plain field reads without contracts of their own. `GettersStable` and `StateRoundTrips` state their properties.
