/** Runs of the engines compared: the scalar and vector engines built from
    the same seed, and a 64-bit draw against two 32-bit draws. */
module Equivalence {
  import opened Encoding
  import opened Recurrence
  import opened Seeding
  import opened Scalar
  import opened Simd

  /** Builds both engines from one seed and takes count draws from each; both
      lists are the draws the recurrence defines for that seed. */
  method CompareEngines(seed: Seed, count: nat) returns (scalarDraws: seq<bv32>, simdDraws: seq<bv32>)
    ensures scalarDraws == simdDraws
    ensures scalarDraws == Draws(SeedState(seed), count)
  {
    var a := Taus88Scalar.FromSeed(seed);
    var b := Taus88Simd.FromSeed(seed);
    ghost var s0 := SeedState(seed);
    scalarDraws, simdDraws := [], [];
    var i := 0;
    while i < count
      invariant 0 <= i <= count
      invariant a.Current() == Advance(s0, i)
      invariant b.z == Pack(a.Current())
      invariant scalarDraws == simdDraws == Draws(s0, i)
    {
      var x := a.NextU32();
      var y := b.NextU32();
      assert x == y == Draw(s0, i);
      scalarDraws, simdDraws := scalarDraws + [x], simdDraws + [y];
      i := i + 1;
    }
  }

  /** A 64-bit draw equals two 32-bit draws from an identically seeded
      generator, the first shifted into the high half (scalar engine). */
  method ScalarNextU64Composition(seed: Seed) returns (wide: bv64, composed: bv64)
    ensures wide == composed
  {
    var rng1 := Taus88Scalar.FromSeed(seed);
    var rng2 := Taus88Scalar.FromSeed(seed);
    ghost var s0 := SeedState(seed);
    wide := rng1.NextU64();
    var hi := rng2.NextU32();
    assert hi == Draw(s0, 0);
    var lo := rng2.NextU32();
    assert lo == Draw(s0, 1);
    composed := Join(hi, lo);
  }

  /** The same composition law on the vector engine. */
  method SimdNextU64Composition(seed: Seed) returns (wide: bv64, composed: bv64)
    ensures wide == composed
  {
    var rng1 := Taus88Simd.FromSeed(seed);
    var rng2 := Taus88Simd.FromSeed(seed);
    ghost var s0 := SeedState(seed);
    wide := rng1.NextU64();
    var hi := rng2.NextU32();
    assert hi == Draw(s0, 0);
    var lo := rng2.NextU32();
    assert lo == Draw(s0, 1);
    composed := Join(hi, lo);
  }
}
