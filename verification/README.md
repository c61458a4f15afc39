# Taus88 in Dafny

This project models the `nova-taus88` crate. The crate implements L'Ecuyer's
Taus88 combined Tausworthe generator twice:

- a scalar engine, which keeps three `u32` words and updates them in place;
- a vector engine, which packs the same three words into a 4-lane `u32x4`,
  with lane 3 as padding.

A cargo feature chooses which engine is compiled.

The model has seven modules.

- `Encoding`: the little-endian word encoding, the 64-bit composition of two
  draws, and the chunk arithmetic of `fill_bytes`.
- `Recurrence`: the three shift/xor/mask recurrences as pure functions on
  `bv32`, plus the spec functions both engines are proved against. These are
  the state after n steps (`Advance`), the k-th draw (`Draw`), the list of
  draws (`Draws`) and the bytes a buffer receives (`FillSpec`).
- `Seeding`: the checking constructor `new`, with its three `assert!`s and
  their messages, and `from_seed`'s decoding and promotion.
- `Scalar`: the class `Taus88Scalar`, with fields `z1`, `z2`, `z3` and the
  methods `New`, `FromSeed`, `NextU32`, `NextU64` and `FillBytes`.
- `Simd`: the `U32x4` lane datatype with lane-wise `&`, `^`, `<<` and `>>`,
  the vector transition, and the class `Taus88Simd` with the same methods.
- `Equivalence`: both engines run from one seed and compared, and a 64-bit
  draw compared with two 32-bit draws.
- `KnownAnswers`: the fixed seeds of the crate's tests, with their outputs.

Both `fill_bytes` methods loop over an `array<bv8>`. Each pass of the loop
(`FillNextChunk`) draws once and copies the draw's low-order bytes into the
next chunk. The loop invariant ties the bytes written so far to the pure
stream `Bytes(s, k)`.

## Model

| member | source | states |
|---|---|---|
| Encoding.LeWordOfLeBytes | src/scalar.rs:64-66 | decoding a word's little-endian bytes gives the word back |
| Encoding.LeBytesOfLeWord | src/scalar.rs:57-66 | encoding the word decoded from four bytes gives those bytes back |
| Encoding.Join | src/scalar.rs:41 | the high 32 bits of the 64-bit draw are the first 32-bit draw and the low 32 bits are the second |
| Encoding.Ceil4 | src/scalar.rs:45 | an n-byte buffer is cut into c chunks of at most 4 bytes with n <= 4c < n + 4 |
| Encoding.Ceil4Exact | src/scalar.rs:45 | a buffer with 4c - 4 < n <= 4c is cut into exactly c chunks |
| Encoding.CopyChunk | src/scalar.rs:47-48 | after the copy, dest[..i + len] is the untouched prefix followed by the first len bytes of the encoding, and every byte after the chunk is unchanged |
| Recurrence.AdvanceFromStep | src/scalar.rs:33-38 | advancing n steps from the next state is advancing n + 1 steps |
| Recurrence.DrawsAt | src/scalar.rs:33-38 | entry i of the list of draws is the i-th draw, for any list length |
| Recurrence.BytesAt | src/scalar.rs:44-50 | byte i of the byte stream is byte i mod 4 of the little-endian encoding of draw i / 4 |
| Recurrence.FillSpec | src/scalar.rs:44-50 | the bytes for an n-byte buffer number exactly n, so every byte is written |
| Recurrence.FillSpecAt | src/scalar.rs:44-50 | byte i of an n-byte buffer is byte i mod 4 of draw i / 4, so a short last chunk takes the low-order bytes of its draw |
| Recurrence.FillSpecPrefix | src/scalar.rs:44-50 | the bytes for a shorter buffer are a prefix of those for a longer one |
| Recurrence.StepIgnoresMaskedBits | src/scalar.rs:34-36 | the transition never reads the low 1, 3 and 4 bits of z1, z2 and z3 |
| Recurrence.MinimumsAreMaskedBits | src/scalar.rs:20-23 | each minimum (2, 8, 16) holds exactly when the bits the transition reads are not all zero |
| Recurrence.BelowMinimumCollapses | src/scalar.rs:34-36 | a word below its minimum is zero after the first step and after every later step |
| Seeding.CheckedNew | src/scalar.rs:20-29 | `new` succeeds exactly when all three minimums hold and then stores the words unchanged; otherwise it panics with one of the three messages |
| Seeding.Promote | src/scalar.rs:70 | the promoted word is at least the word and at least the minimum, and it is one of them |
| Seeding.SeedState | src/scalar.rs:56-71 | the state `from_seed` builds always meets the minimums |
| Seeding.FromSeedPassesNew | src/scalar.rs:66-70 | `from_seed` never panics: `new` accepts the promoted words and stores them |
| Seeding.SeedStatePromotes | src/scalar.rs:64-70 | each decoded word below its minimum becomes the minimum and every other word is kept; a seed that meets the minimums is kept whole |
| Seeding.SeedRoundTrip | src/scalar.rs:56-71 | every state that meets the minimums is produced by `from_seed` from its own 12-byte encoding |
| Scalar.Taus88Scalar.Init | src/scalar.rs:24-28 | the struct holds the three given words |
| Scalar.Taus88Scalar.New | src/scalar.rs:20-29 | returns a fresh generator holding the words exactly when the minimums hold, and otherwise the panic message of the first failed check |
| Scalar.Taus88Scalar.FromSeed | src/scalar.rs:56-71 | returns a fresh generator in the promoted state decoded from the seed |
| Scalar.Taus88Scalar.NextU32 | src/scalar.rs:33-38 | the state advances one transition and the result is the xor of the three new words |
| Scalar.Taus88Scalar.NextU64 | src/scalar.rs:40-42 | the state advances exactly two transitions and the result holds draw 0 in its high half and draw 1 in its low half |
| Scalar.Taus88Scalar.FillNextChunk | src/scalar.rs:46-48 | one more chunk advances the state one step, extends the written bytes to the stream of k + 1 draws and leaves the bytes after the chunk unchanged |
| Scalar.Taus88Scalar.FillBytes | src/scalar.rs:44-50 | the state advances exactly ceil(n / 4) steps (none for an empty buffer) and the buffer holds the n stream bytes of FillSpec |
| Simd.Lane0Step | src/simd.rs:22-31 | lane 0 of the vector formula, with its mask and shift amounts, equals the scalar formula for z1 |
| Simd.Lane1Step | src/simd.rs:22-31 | lane 1 equals the scalar formula for z2 |
| Simd.Lane2Step | src/simd.rs:22-31 | lane 2 equals the scalar formula for z3 |
| Simd.Lane3Step | src/simd.rs:22-31 | the padding lane, with mask 0 and shifts 0, becomes 0 whatever it held |
| Simd.LaneStep | src/simd.rs:21-32 | one vector step gives the scalar step in lanes 0-2 and 0 in lane 3 |
| Simd.LaneOutput | src/simd.rs:34-35 | the vector output is the scalar output of the state in lanes 0-2 |
| Simd.PaddingIsInert | src/simd.rs:21-35 | vectors that differ only in the padding lane step to the same vector and give the same output |
| Simd.LaneAdvanceIsAdvance | src/simd.rs:21-36 | after n vector steps lanes 0-2 hold the scalar state n steps on, and after at least one step the padding lane is 0 |
| Simd.LaneDrawsAreDraws | src/simd.rs:21-36 | the vector engine's draws from a vector are the scalar draws from its lanes 0-2 |
| Simd.EngineEquivalence | src/simd.rs:54-67 | from the same seed both engines produce identical draw sequences of every length |
| Simd.Taus88Simd.Init | src/simd.rs:14-16 | the struct holds the given vector |
| Simd.Taus88Simd.New | src/simd.rs:10-17 | stores [seed1, seed2, seed3, 0] exactly when the scalar minimums hold, and otherwise panics with the scalar engine's message |
| Simd.Taus88Simd.FromSeed | src/simd.rs:54-67 | the vector holds the scalar engine's promoted seed state and a zero padding lane |
| Simd.Taus88Simd.NextU32 | src/simd.rs:21-36 | the lanes advance one scalar transition, the padding lane becomes 0, and the result is the xor of lanes 0-2 |
| Simd.Taus88Simd.NextU64 | src/simd.rs:38-40 | the state advances exactly two transitions and the result holds draw 0 high and draw 1 low |
| Simd.Taus88Simd.FillNextChunk | src/simd.rs:44-46 | one more chunk advances one step, extends the written bytes to the stream of k + 1 draws and leaves the bytes after the chunk unchanged |
| Simd.Taus88Simd.FillBytes | src/simd.rs:42-48 | the vector is unchanged for an empty buffer and otherwise advanced ceil(n / 4) steps; the buffer holds the same bytes as the scalar engine writes |
| Equivalence.CompareEngines | src/tests.rs:5-16 | both engines built from one seed return the same draws, which are the draws the recurrence defines |
| Equivalence.ScalarNextU64Composition | src/tests.rs:57-71 | on the scalar engine a 64-bit draw equals the composition of two 32-bit draws from an identically seeded generator |
| Equivalence.SimdNextU64Composition | src/tests.rs:57-71 | the same composition law on the vector engine |
| KnownAnswers.ZeroSeedIsPromoted | src/tests.rs:30-42 | the all-zero seed gives the state (2, 8, 16), whose first draw is 2105472 |
| KnownAnswers.NewRejectsLowFirstWord | src/tests.rs:18-24 | `new(1, 8, 16)` panics with the first message and `new(2, 8, 16)` succeeds |
| KnownAnswers.SampleSeedSequence | src/tests.rs:5-16 | the sample seed decodes to (123, 301, 601) and its first five draws are 78099075, 2047148672, 1778027400, 2294194181 and 680023868 on both engines |
| KnownAnswers.SampleSeedOnBothEngines | src/tests.rs:5-16 | both engine objects return 78099075 as their first draw from the sample seed |

## Left out

- The `rand_core` traits `RngCore` and `SeedableRng` are not modelled. Their methods are class members here.
- The `cfg` feature switching and `no_std` attributes in src/lib.rs are not modelled. Both engines exist side by side and are related by engine-equivalence lemmas.
- The benchmark harness in benches/ is left out. It only measures time against other generators.
- Only the lane-wise `&`, `^`, `<<` and `>>` of the portable-SIMD `u32x4` are modelled. A vector shift takes its amount modulo 32.
- A panic is modelled as the value `Panic(message)` of an `Outcome`. Unwinding and aborting the process are not modelled.
- The long-period and "prevents state collapse" claims are statistical and are not modelled. The model does not claim that a step keeps the minimums, because the code never re-checks them. `BelowMinimumCollapses` states what happens to a word below its minimum.
- The test that ten filled bytes from one fixed seed are not all zero (src/tests.rs:44-55) is not modelled. It is a single concrete computation and states no general property.
- `Init` is the bare struct literal, without the checks of `new`. Here only `New` calls it, but Dafny cannot hide a constructor, so the model does not enforce the crate's `pub(crate)` restriction: other modules could build a generator below the minimums or with a nonzero padding lane.
- `from_seed` copies the seed into temporary `[u8; 4]` arrays. The model reads the same slices of the seed directly.
